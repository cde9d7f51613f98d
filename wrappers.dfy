/** Failure-carrying values shared by every module of the model. */
module Wrappers {

  /** A value that may be absent (Python's `None`). */
  datatype Option<+T> = None | Some(value: T)

  /** The outcome of a Python call that either returns or raises; `Err` carries the
      exception's message. */
  datatype Result<+T> = Ok(value: T) | Err(error: string)

  /** Concatenation is associative; the loops that append to a log use it step by step. */
  lemma AppendAssoc<T>(a: seq<T>, b: seq<T>, c: seq<T>)
    ensures a + (b + c) == (a + b) + c
  {
  }
}
