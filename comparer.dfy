/** `Comparer.IsEqual`: equality of two strings that may be null. */
module Comparer {
  import opened Wrappers

  /** True when both are null or both are the same character sequence. */
  function IsEqual(s1: Option<string>, s2: Option<string>): (r: bool)
    ensures s1.None? && s2.None? ==> r
    ensures s1.None? != s2.None? ==> !r
    ensures s1.Some? && s2.Some? ==> (r <==> s1.value == s2.value)
  {
    match (s1, s2)
    case (None, None) => true
    case (Some(a), Some(b)) => a == b
    case _ => false
  }

  lemma IsEqualReflexive(s: Option<string>)
    ensures IsEqual(s, s)
  {
  }

  lemma IsEqualSymmetric(s1: Option<string>, s2: Option<string>)
    ensures IsEqual(s1, s2) == IsEqual(s2, s1)
  {
  }
}
