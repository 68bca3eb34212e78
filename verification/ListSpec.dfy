/** What the operations of the list mean for the sequence of its items. */
module ListSpec {
  import opened Chains

  function FirstIndex(s: seq<int>, x: int): (k: nat)
    requires x in s
    ensures k < |s| && s[k] == x && x !in s[..k]
  {
    if s[0] == x then 0 else 1 + FirstIndex(s[1..], x)
  }

  /** Deletes the first occurrence. */
  function RemoveFirst(s: seq<int>, x: int): seq<int> {
    if x in s then Without(s, FirstIndex(s, x)) else s
  }

  lemma RemoveFirstKeeps(s: seq<int>, x: int)
    ensures forall y :: y in RemoveFirst(s, x) ==> y in s
  {
  }

  function Filter(keep: int -> bool, s: seq<int>): seq<int> {
    if s == [] then []
    else
      var init, last := Filter(keep, s[..|s| - 1]), s[|s| - 1];
      if keep(last) then init + [last] else init
  }

  function Not(p: int -> bool): int -> bool { x => !p(x) }

  lemma FilterSnoc(keep: int -> bool, s: seq<int>, i: nat)
    requires i < |s|
    ensures Filter(keep, s[..i + 1]) == if keep(s[i]) then Filter(keep, s[..i]) + [s[i]] else Filter(keep, s[..i])
  {
    assert s[..i + 1][..i] == s[..i];
  }

  lemma {:induction false} FilterKeeps(keep: int -> bool, s: seq<int>)
    ensures forall x :: x in Filter(keep, s) ==> keep(x) && x in s
  {
    if s == [] {
    } else {
      FilterKeeps(keep, s[..|s| - 1]);
    }
  }

  /** What a cleanup keeps and what it frees are, together, what was there. */
  lemma {:induction false} FilterSplits(p: int -> bool, s: seq<int>)
    ensures multiset(Filter(p, s)) + multiset(Filter(Not(p), s)) == multiset(s)
  {
    if s == [] {
    } else {
      FilterSplits(p, s[..|s| - 1]);
      assert s == s[..|s| - 1] + [s[|s| - 1]];
    }
  }

  lemma {:induction false} FirstIndexIs(s: seq<int>, x: int, k: nat)
    requires k < |s| && s[k] == x && x !in s[..k]
    ensures FirstIndex(s, x) == k
  {
    if k == 0 {
    } else {
      assert s[0] == s[..k][0] != x;
      assert s[1..][..k - 1] == s[..k][1..];
      FirstIndexIs(s[1..], x, k - 1);
    }
  }

  /** The first occurrence of an item behind a part that does not hold it. */
  lemma FirstIndexBehind(a: seq<int>, x: int, b: seq<int>)
    requires x !in a
    ensures x in a + [x] + b && FirstIndex(a + [x] + b, x) == |a|
    ensures Without(a + [x] + b, |a|) == a + b
  {
    var s := a + [x] + b;
    assert s[|a|] == x && s[..|a|] == a;
    FirstIndexIs(s, x, |a|);
  }
}
