/** Values that may be absent: a nil pointer, a missing map key, the zero `time.Time`. */
module Options {
  datatype Option<+T> = None | Some(value: T)
}
