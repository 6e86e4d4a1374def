/** A value that may be missing: a search without a match, a request without an ack, an empty queue. */
module Options {
  datatype Option<+T> = None | Some(value: T)
}
