/** Logits with a masked value, and lists of distinct ids, as the draft sampler uses them. */
module Scores {

  datatype Score = NegInf | Finite(value: real)

  predicate AtMost(a: Score, b: Score) {
    a.NegInf? || (b.Finite? && a.value <= b.value)
  }

  predicate Distinct(ids: seq<nat>) {
    forall i, j | 0 <= i < j < |ids| :: ids[i] != ids[j]
  }
}
