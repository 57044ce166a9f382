/** Sequence facts the trace proofs use. */
module Seqs {
  /** Concatenation is associative; stated once so that long traces can be regrouped with a call. */
  lemma AppendAssoc<T>(a: seq<T>, b: seq<T>, c: seq<T>)
    ensures (a + b) + c == a + (b + c)
  {
  }
}
