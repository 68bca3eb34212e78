/** Bags and sums taken over a sequence, one contribution per position, and what replacing one
    position does to them. */
module Bags {

  function Bag<P>(f: (int, P) -> multiset<int>, ps: seq<P>): multiset<int> {
    if ps == [] then multiset{}
    else Bag(f, ps[..|ps| - 1]) + f(|ps| - 1, ps[|ps| - 1])
  }

  function Sum<P>(f: P -> nat, ps: seq<P>): nat {
    if ps == [] then 0
    else Sum(f, ps[..|ps| - 1]) + f(ps[|ps| - 1])
  }

  /** The numbers 0 .. n - 1, each once. */
  function Below(n: nat): multiset<int> {
    if n == 0 then multiset{} else Below(n - 1) + multiset{n - 1}
  }

  function InOrder(n: nat): seq<int> { seq(n, i => i) }

  lemma {:induction false} InOrderIsBelow(n: nat)
    ensures multiset(InOrder(n)) == Below(n)
  {
    if n == 0 {
    } else {
      InOrderIsBelow(n - 1);
      assert InOrder(n) == InOrder(n - 1) + [n - 1];
      assert multiset(InOrder(n - 1) + [n - 1]) == multiset(InOrder(n - 1)) + multiset{n - 1};
    }
  }

  lemma HeadAndRest(s: seq<int>)
    requires s != []
    ensures multiset(s) == multiset{s[0]} + multiset(s[1..])
  {
    assert s == [s[0]] + s[1..];
  }

  lemma {:induction false} BagUpdate<P>(f: (int, P) -> multiset<int>, ps: seq<P>, t: nat, p: P)
    requires t < |ps|
    ensures Bag(f, ps[t := p]) + f(t, ps[t]) == Bag(f, ps) + f(t, p)
  {
    var n, qs := |ps| - 1, ps[t := p];
    if t == n {
      assert qs[..n] == ps[..n];
    } else {
      assert qs[..n] == ps[..n][t := p];
      BagUpdate(f, ps[..n], t, p);
      var before, after, last := Bag(f, ps[..n]), Bag(f, qs[..n]), f(n, ps[n]);
      assert after + f(t, ps[t]) == before + f(t, p);
      assert after + last + f(t, ps[t]) == (after + f(t, ps[t])) + last;
      assert before + last + f(t, p) == (before + f(t, p)) + last;
    }
  }

  /** The same as a replacement: one contribution is taken out, another is put in. */
  lemma BagReplace<P>(f: (int, P) -> multiset<int>, ps: seq<P>, t: nat, p: P)
    requires t < |ps|
    ensures f(t, ps[t]) <= Bag(f, ps)
    ensures Bag(f, ps[t := p]) == Bag(f, ps) - f(t, ps[t]) + f(t, p)
  {
    BagUpdate(f, ps, t, p);
    forall x ensures f(t, ps[t])[x] <= Bag(f, ps)[x] { BagContains(f, ps, t, x); }
    var after, before, old_, new_ := Bag(f, ps[t := p]), Bag(f, ps), f(t, ps[t]), f(t, p);
    forall x ensures after[x] == (before - old_ + new_)[x] {
      assert (after + old_)[x] == (before + new_)[x];
    }
  }

  lemma {:induction false} SumUpdate<P>(f: P -> nat, ps: seq<P>, t: nat, p: P)
    requires t < |ps|
    ensures Sum(f, ps[t := p]) + f(ps[t]) == Sum(f, ps) + f(p)
  {
    var n := |ps| - 1;
    if t == n {
      assert ps[t := p][..n] == ps[..n];
    } else {
      assert ps[t := p][..n] == ps[..n][t := p];
      SumUpdate(f, ps[..n], t, p);
    }
  }

  /** A position contributes to the bag, and two positions contribute separately. */
  lemma {:induction false} BagContains<P>(f: (int, P) -> multiset<int>, ps: seq<P>, t: nat, x: int)
    requires t < |ps|
    ensures f(t, ps[t])[x] <= Bag(f, ps)[x]
  {
    var n := |ps| - 1;
    if t == n {
    } else {
      BagContains(f, ps[..n], t, x);
    }
  }

  lemma {:induction false} BagContainsBoth<P>(f: (int, P) -> multiset<int>, ps: seq<P>, t: nat, u: nat, x: int)
    requires t < u < |ps|
    ensures f(t, ps[t])[x] + f(u, ps[u])[x] <= Bag(f, ps)[x]
  {
    var n := |ps| - 1;
    if u < n {
      BagContainsBoth(f, ps[..n], t, u, x);
    } else {
      BagContains(f, ps[..n], t, x);
    }
  }

  /** An element of the bag comes from some position. */
  lemma {:induction false} BagWitness<P>(f: (int, P) -> multiset<int>, ps: seq<P>, x: int) returns (t: nat)
    requires x in Bag(f, ps)
    ensures t < |ps| && x in f(t, ps[t])
  {
    var n := |ps| - 1;
    if x in f(n, ps[n]) {
      t := n;
    } else {
      t := BagWitness(f, ps[..n], x);
    }
  }

  /** A positive sum comes from some position. */
  lemma {:induction false} SumWitness<P>(f: P -> nat, ps: seq<P>) returns (t: nat)
    requires Sum(f, ps) > 0
    ensures t < |ps| && f(ps[t]) > 0
  {
    var n := |ps| - 1;
    if f(ps[n]) > 0 {
      t := n;
    } else {
      t := SumWitness(f, ps[..n]);
    }
  }

  lemma {:induction false} BelowCounts(n: nat)
    ensures |Below(n)| == n
    ensures forall x :: Below(n)[x] == if 0 <= x < n then 1 else 0
  {
    if n == 0 {
    } else {
      BelowCounts(n - 1);
      var before := Below(n - 1);
      assert Below(n) == before + multiset{n - 1} && |Below(n)| == |before| + 1;
    }
  }
}
