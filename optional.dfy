/** The usual Some/None wrapper, standing for Ruby's `nil` where a value may be absent. */
module Optional {

  datatype Option<+T> = None | Some(value: T)
}
