/** The usual optional value; stands for the JavaScript `null`/`undefined` of the source. */
module Options {
  datatype Option<+T> = None | Some(value: T)
}
