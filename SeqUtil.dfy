/** Facts about sequences that the proofs of the text-building code share. */
module SeqUtil {
  /** Concatenation regrouped; the solver does not find this by itself once the parts are long texts. */
  lemma ConcatAssoc<T>(a: seq<T>, b: seq<T>, c: seq<T>)
    ensures a + b + c == a + (b + c)
  {
  }

  /** What neither part holds, their concatenation does not hold either. */
  lemma NotInConcat<T>(a: seq<T>, b: seq<T>, x: T)
    requires x !in a && x !in b
    ensures x !in a + b
  {
    forall i | 0 <= i < |a + b|
      ensures (a + b)[i] != x
    {
      if i >= |a| {
        assert (a + b)[i] == b[i - |a|];
      }
    }
  }
}
