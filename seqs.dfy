/** A fact about sequences that the proofs of the generators use. */
module Seqs {
  /** Concatenation is associative. Stated on its own so that a proof can
      use it without the solver having to compare the sequences element by
      element. */
  lemma Associative<T>(a: seq<T>, b: seq<T>, c: seq<T>)
    ensures (a + b) + c == a + (b + c)
  {
  }
}
