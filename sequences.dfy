/** Facts about sequences used by several parts of the model. */
module Sequences {

  /** Sequence concatenation regroups freely. */
  lemma AppendAssociative<T>(a: seq<T>, b: seq<T>, c: seq<T>)
    ensures (a + b) + c == a + (b + c)
  {
  }
}
