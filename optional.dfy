/** A value that may be absent: a key missing from a record, or a calculation that returned None. */
module Optional {
  datatype Option<+T> = None | Some(value: T)
}
