/** An optional value: the model's stand-in for "nothing happens" results. */
module Options {

  datatype Option<+T> = None | Some(value: T)

}
