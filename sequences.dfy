/** Facts about sequences that the proofs use in several places. */
module Sequences {
  /** Concatenation is associative; stated once so that proofs about long
      concatenations can regroup them without the solver searching. */
  lemma Associative<T>(a: seq<T>, b: seq<T>, c: seq<T>)
    ensures (a + b) + c == a + (b + c)
  {
  }
}
