/** Absent values, used in place of the source's `throw`s and null results. */
module Results {

  /** A value that may be absent. */
  datatype Option<+T> = None | Some(value: T)
}
