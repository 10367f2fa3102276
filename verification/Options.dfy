/** A value that may be absent: JavaScript's null and undefined results. */
module Options {
  datatype Option<T> = None | Some(value: T)
}
