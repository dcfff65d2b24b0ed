/** Facts about sequences the engine's loops share. */
module Seqs {
  import opened Wrappers

  /**
   * The index of the first element that passes `p`, if any: what a
   * `for x in s: if p(x): ...; break` loop stops at.
   */
  function FirstWhere<T>(s: seq<T>, p: T -> bool): (r: Option<nat>)
    ensures r.Some? ==> r.value < |s|
  {
    if s == [] then None
    else if p(s[0]) then Some(0)
    else match FirstWhere(s[1..], p)
      case None => None
      case Some(i) => Some(i + 1)
  }

  /** `FirstWhere` names an element that passes and that no earlier element does, and finds none only when none passes. */
  lemma {:induction false} FirstWhereFacts<T>(s: seq<T>, p: T -> bool)
    ensures var r := FirstWhere(s, p);
      && (r.Some? ==> r.value < |s| && p(s[r.value]))
      && (r.Some? ==> forall j :: 0 <= j < r.value ==> !p(s[j]))
      && (r.None? <==> forall j :: 0 <= j < |s| ==> !p(s[j]))
  {
    if s != [] {
      FirstWhereFacts(s[1..], p);
      assert forall j :: 0 < j < |s| ==> s[j] == s[1..][j - 1];
    }
  }

  /** The prefix of a sequence as long as the sequence is the sequence. */
  lemma WholePrefix<T>(s: seq<T>)
    ensures s[..|s|] == s
  {
  }
}
