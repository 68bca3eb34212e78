/** Singly linked chains whose nodes lie in a static array: a link is the index of the next node. */
module Chains {
  import opened Bags

  const NULL := -1

  function LinkAfter(chain: seq<int>, i: nat): int {
    if i + 1 < |chain| then chain[i + 1] else NULL
  }

  /** From `head` the links run through `chain`, each node once, and end. */
  ghost predicate Linked(links: seq<int>, head: int, chain: seq<int>) {
    && (forall i :: 0 <= i < |chain| ==> 0 <= chain[i] < |links|)
    && (forall i, k :: 0 <= i < k < |chain| ==> chain[i] != chain[k])
    && head == (if |chain| == 0 then NULL else chain[0])
    && (forall i :: 0 <= i < |chain| ==> links[chain[i]] == LinkAfter(chain, i))
  }

  /** Unlinking the first node; its own link may be set to anything. */
  lemma PopFirst(links: seq<int>, head: int, chain: seq<int>, link: int)
    requires Linked(links, head, chain) && head != NULL
    ensures 0 <= head < |links| && head == chain[0] && head !in chain[1..]
    ensures Linked(links[head := link], links[head], chain[1..])
  {
    assert links[chain[0]] == LinkAfter(chain, 0);
    var rest := chain[1..];
    forall i | 0 <= i < |rest| ensures links[rest[i]] == LinkAfter(rest, i) && rest[i] != head {
      assert rest[i] == chain[i + 1];
      assert links[chain[i + 1]] == LinkAfter(chain, i + 1);
    }
  }

  /** Linking a node in front. */
  lemma PushFirst(links: seq<int>, head: int, chain: seq<int>, n: int)
    requires Linked(links, head, chain) && 0 <= n < |links| && n !in chain
    ensures Linked(links[n := head], n, [n] + chain)
  {
    var all, after := [n] + chain, links[n := head];
    forall i | 0 <= i < |all| ensures after[all[i]] == LinkAfter(all, i) {
      if i > 0 {
        var m := chain[i - 1];
        assert all[i] == m != n && links[m] == LinkAfter(chain, i - 1);
        assert after[m] == links[m];
      }
    }
  }

  /** Linking an unlinked node behind the last one, or as the only one. */
  lemma AppendLast(links: seq<int>, head: int, chain: seq<int>, n: int)
    requires Linked(links, head, chain) && 0 <= n < |links| && n !in chain && links[n] == NULL
    ensures chain == [] ==> Linked(links, n, [n])
    ensures chain != [] ==> Linked(links[chain[|chain| - 1] := n], head, chain + [n])
  {
    if chain != [] {
      var all, last := chain + [n], chain[|chain| - 1];
      var after := links[last := n];
      forall i | 0 <= i < |all| ensures after[all[i]] == LinkAfter(all, i) {
        if i < |chain| {
          var m := chain[i];
          assert all[i] == m && links[m] == LinkAfter(chain, i);
          assert i < |chain| - 1 ==> m != last && after[m] == links[m];
        }
      }
    }
  }

  function Without<T>(s: seq<T>, k: nat): seq<T>
    requires k < |s|
  {
    s[..k] + s[k + 1..]
  }

  function Skip(k: nat, i: nat): nat { if i < k then i else i + 1 }

  lemma WithoutAt<T>(s: seq<T>, k: nat)
    requires k < |s|
    ensures forall i :: 0 <= i < |s| - 1 ==> Without(s, k)[i] == s[Skip(k, i)]
  {
  }

  /** The node before the removed one inherits its successor; every other node keeps its own. */
  lemma LinkAfterWithout(chain: seq<int>, k: nat, i: nat)
    requires k < |chain| && i < |chain| - 1
    ensures LinkAfter(Without(chain, k), i) ==
            if i + 1 == k then LinkAfter(chain, k) else LinkAfter(chain, Skip(k, i))
  {
    WithoutAt(chain, k);
  }

  lemma RemovedLink(links: seq<int>, head: int, chain: seq<int>, k: nat, i: nat)
    requires Linked(links, head, chain) && 0 < k < |chain| && i < |chain| - 1
    ensures links[chain[k - 1] := links[chain[k]]][chain[Skip(k, i)]] == LinkAfter(Without(chain, k), i)
  {
    hide Without, LinkAfter;
    LinkAfterWithout(chain, k, i);
    assert links[chain[k]] == LinkAfter(chain, k);
    var at := Skip(k, i);
    assert links[chain[at]] == LinkAfter(chain, at);
    if i + 1 != k { assert chain[at] != chain[k - 1]; }
  }

  /** Unlinking a node that is not the first. */
  lemma RemoveInside(links: seq<int>, head: int, chain: seq<int>, k: nat)
    requires Linked(links, head, chain) && 0 < k < |chain|
    ensures Linked(links[chain[k - 1] := links[chain[k]]], head, Without(chain, k))
    ensures chain[k] !in Without(chain, k)
  {
    WithoutAt(chain, k);
    var rest := Without(chain, k);
    var links' := links[chain[k - 1] := links[chain[k]]];
    forall i | 0 <= i < |rest| ensures links'[rest[i]] == LinkAfter(rest, i) {
      RemovedLink(links, head, chain, k, i);
    }
    hide LinkAfter, Without;
    forall i | 0 <= i < |rest| ensures 0 <= rest[i] < |links'| && rest[i] != chain[k] { }
    forall i, l | 0 <= i < l < |rest| ensures rest[i] != rest[l] { }
  }

  /** Writing a link outside the chain does not touch it. */
  lemma WriteOutside(links: seq<int>, head: int, chain: seq<int>, n: int, link: int)
    requires Linked(links, head, chain) && 0 <= n < |links| && n !in chain
    ensures Linked(links[n := link], head, chain)
  {
    forall i | 0 <= i < |chain| ensures links[n := link][chain[i]] == LinkAfter(chain, i) {
      assert links[chain[i]] == LinkAfter(chain, i);
    }
  }

  /** Each node linked to its successor in the array, the last one to nothing. */
  lemma LinkedInOrder(links: seq<int>)
    requires |links| > 0
    requires forall i :: 0 <= i < |links| - 1 ==> links[i] == i + 1
    requires links[|links| - 1] == NULL
    ensures Linked(links, 0, InOrder(|links|))
  {
  }
}
