/** The conventional optional-value datatype used throughout the model, and
    the one fact about sequences that several proofs need spelled out. */
module Wrappers {

  datatype Option<+T> = None | Some(value: T)

  /** Concatenation is associative; appending step by step builds the same
      sequence as appending the steps' concatenation. */
  lemma AppendAssoc<T>(a: seq<T>, b: seq<T>, c: seq<T>)
    ensures a + b + c == a + (b + c)
  {
  }
}
