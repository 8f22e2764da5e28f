/**
 * What the broker's removal helper (Fuhgettaboutit) does to a slice of
 * instance IDs, as functions on sequences: it looks for the last slot holding
 * the target, copies the last element into that slot, blanks the last slot,
 * and returns every slot but the last. The helper works on the slice in
 * place; Broker.Fuhgettaboutit is proved against these functions.
 */
module Registry {

  /**
   * The index the helper's loop ends with: the last position holding `x`, or
   * 0 (the loop variable's initial value) when `x` does not occur.
   */
  function LastIndex(s: seq<string>, x: string): (i: nat)
    ensures |s| > 0 ==> i < |s|
    ensures x in s ==> s[i] == x && forall j :: i < j < |s| ==> s[j] != x
    ensures x !in s ==> i == 0
    decreases |s|
  {
    if s == [] then 0
    else if s[|s| - 1] == x then |s| - 1
    else LastIndex(s[..|s| - 1], x)
  }

  /** The slots of the slice after the helper's two writes. */
  function Forgotten(s: seq<string>, x: string): (t: seq<string>)
    requires |s| > 0
    ensures |t| == |s| && t[|s| - 1] == ""
    ensures LastIndex(s, x) < |s| - 1 ==> t[LastIndex(s, x)] == s[|s| - 1]
    ensures forall j :: 0 <= j < |s| - 1 && j != LastIndex(s, x) ==> t[j] == s[j]
  {
    var i := LastIndex(s, x);
    s[i := s[|s| - 1]][|s| - 1 := ""]
  }

  /** The slice the helper returns: every slot but the last. */
  function Removed(s: seq<string>, x: string): (t: seq<string>)
    requires |s| > 0
    ensures |t| == |s| - 1
  {
    Forgotten(s, x)[..|s| - 1]
  }

  /** The returned slice holds the input's elements less the one at the chosen index. */
  lemma RemovedIsMultisetMinus(s: seq<string>, x: string)
    requires |s| > 0
    ensures multiset(Removed(s, x)) == multiset(s) - multiset{s[LastIndex(s, x)]}
  {
    var n := |s| - 1;
    var i := LastIndex(s, x);
    assert s == s[..n] + [s[n]];
    assert multiset(s) == multiset(s[..n]) + multiset{s[n]};
    if i == n {
      assert Removed(s, x) == s[..n];
    } else {
      assert Removed(s, x) == s[..n][i := s[n]];
      assert s[..n][i] == s[i];
      assert multiset(s[..n][i := s[n]]) == multiset(s[..n]) - multiset{s[i]} + multiset{s[n]};
    }
  }

  /** When the target occurs, the helper removes exactly one copy of it. */
  lemma RemovedDropsOneTarget(s: seq<string>, x: string)
    requires |s| > 0 && x in s
    ensures multiset(Removed(s, x)) == multiset(s) - multiset{x}
    ensures multiset(Removed(s, x))[x] == multiset(s)[x] - 1
  {
    RemovedIsMultisetMinus(s, x);
  }

  /** When the target does not occur, the helper removes the first element instead. */
  lemma RemovedDropsFirstWhenAbsent(s: seq<string>, x: string)
    requires |s| > 0 && x !in s
    ensures multiset(Removed(s, x)) == multiset(s) - multiset{s[0]}
    ensures |s| > 1 ==> Removed(s, x) == [s[|s| - 1]] + s[1..|s| - 1]
  {
    RemovedIsMultisetMinus(s, x);
  }

  /**
   * Removing the instance that was appended last: the returned slice is the
   * slice before the append, while the slots themselves keep their length and
   * end in a blank.
   */
  lemma ForgetLastAppended(e: seq<string>, x: string)
    ensures Removed(e + [x], x) == e
    ensures Forgotten(e + [x], x) == e + [""]
  {
    var s := e + [x];
    assert s[|s| - 1] == x;
    assert LastIndex(s, x) == |e|;
  }
}
