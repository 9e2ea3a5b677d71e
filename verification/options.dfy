/** The optional value used wherever the addon's Python code works with `None`. */
module Options {

  datatype Option<+T> = None | Some(value: T)
}
