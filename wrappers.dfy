/** Optional values (Go's nil pointers) and results of calls that can fail (Go's error returns). */
module Wrappers {

  /** A value that may be absent, as a Go pointer field that may be nil. */
  datatype Option<+T> = None | Some(value: T)

  /** The outcome of a call that returns a value or a non-nil error. */
  datatype Result<+T> = Ok(value: T) | Err(message: string)

  /** Dropping the last element of a concatenation with a non-empty right part drops it
      from the right part. */
  lemma DropLast<T>(a: seq<T>, b: seq<T>)
    requires b != []
    ensures (a + b)[..|a + b| - 1] == a + b[..|b| - 1]
    ensures (a + b)[|a + b| - 1] == b[|b| - 1]
  {
  }
}
