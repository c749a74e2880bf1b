/** A value that may be absent: React's `null` state and a callback that may not fire. */
module Optional {
  datatype Option<+T> = None | Some(value: T)
}
