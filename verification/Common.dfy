// Values shared by every component: optional values, results, and the answer
// of a call whose effect and whose acknowledgement may come apart.
module Common {

  datatype Option<+T> = None | Some(value: T)

  datatype Result<+T, +E> = Ok(value: T) | Err(error: E)

  /** What became of a write sent to MySQL or to the raft leader.
      `Unacked` took effect although the caller was told that it failed. */
  datatype Reply = Committed | Unacked | Rejected {
    predicate Acked() { Committed? }
    predicate Applied() { !Rejected? }
  }
}
