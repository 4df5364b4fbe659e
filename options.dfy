/** An optional value: a plan that may not be in the catalogue, a date not yet set. */
module Options {

  datatype Option<+T> = None | Some(value: T)
}
