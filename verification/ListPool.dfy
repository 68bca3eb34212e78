/** The static node pool of a list: two chains that share one array of links. */
module ListPool {
  import opened Bags
  import opened Chains

  /** Both chains are free of cycles and together hold every node of the pool exactly once. */
  ghost predicate Pooled(links: seq<int>, first: int, used: seq<int>, head: int, free: seq<int>) {
    && Linked(links, first, used)
    && Linked(links, head, free)
    && multiset(used) + multiset(free) == Below(|links|)
  }

  /** One node, not yet linked to another, is in neither chain. */
  ghost predicate PooledBut(links: seq<int>, first: int, used: seq<int>, head: int, free: seq<int>, n: int) {
    && Linked(links, first, used)
    && Linked(links, head, free)
    && 0 <= n < |links| && links[n] == NULL && n !in used && n !in free
    && multiset(used) + multiset(free) + multiset{n} == Below(|links|)
  }

  lemma OneAndRest(s: seq<int>, k: nat)
    requires k < |s|
    ensures multiset(s) == multiset{s[k]} + multiset(Without(s, k))
  {
    assert s == s[..k] + [s[k]] + s[k + 1..];
  }

  /** A node is in one chain only. */
  lemma Apart(n: nat, used: seq<int>, free: seq<int>, x: int)
    requires multiset(used) + multiset(free) == Below(n)
    ensures x in used ==> x !in free
  {
    BelowCounts(n);
    assert multiset(used)[x] + multiset(free)[x] == Below(n)[x];
    assert x in used <==> multiset(used)[x] > 0;
    assert x in free <==> multiset(free)[x] > 0;
  }

  /** Pool conservation: every declared node is in the list or free, and in one of them only. */
  lemma PoolConserved(links: seq<int>, first: int, used: seq<int>, head: int, free: seq<int>)
    requires Pooled(links, first, used, head, free)
    ensures |used| + |free| == |links|
    ensures forall n :: 0 <= n < |links| ==> (n in used <==> n !in free)
  {
    BelowCounts(|links|);
    assert |multiset(used) + multiset(free)| == |used| + |free|;
    forall n | 0 <= n < |links| ensures n in used <==> n !in free {
      Apart(|links|, used, free, n);
      assert (multiset(used) + multiset(free))[n] == 1;
      assert n in multiset(used) || n in multiset(free);
    }
  }

  /** Taking the head of the free chain. */
  lemma TakeNode(links: seq<int>, first: int, used: seq<int>, head: int, free: seq<int>)
    requires Pooled(links, first, used, head, free) && head != NULL
    ensures 0 <= head < |links| && free != [] && head == free[0]
    ensures PooledBut(links[head := NULL], first, used, links[head], free[1..], head)
  {
    PopFirst(links, head, free, NULL);
    Apart(|links|, used, free, head);
    WriteOutside(links, first, used, head, NULL);
    HeadAndRest(free);
  }

  /** Linking that node behind the last one of the list. */
  lemma LinkNode(links: seq<int>, first: int, used: seq<int>, head: int, free: seq<int>, n: int)
    requires PooledBut(links, first, used, head, free, n)
    ensures used == [] ==> Pooled(links, n, [n], head, free)
    ensures used != [] ==> Pooled(links[used[|used| - 1] := n], first, used + [n], head, free)
  {
    AppendLast(links, first, used, n);
    if used != [] {
      var last := used[|used| - 1];
      NotTwice(used, free, n, |links|, last);
      WriteOutside(links, head, free, last, n);
    }
  }

  lemma NotTwice(used: seq<int>, free: seq<int>, n: int, size: nat, x: int)
    requires multiset(used) + multiset(free) + multiset{n} == Below(size)
    ensures x in used ==> x !in free
  {
    BelowCounts(size);
    assert multiset(used)[x] + multiset(free)[x] + multiset{n}[x] == Below(size)[x];
    assert x in used <==> multiset(used)[x] > 0;
    assert x in free <==> multiset(free)[x] > 0;
  }

  /** Deleting the first node of the list. */
  lemma DropFirst(links: seq<int>, first: int, used: seq<int>, head: int, free: seq<int>)
    requires Pooled(links, first, used, head, free) && first != NULL
    ensures 0 <= first < |links| && used != [] && first == used[0]
    ensures Pooled(links[first := head], links[first], used[1..], first, [first] + free)
  {
    PopFirst(links, first, used, head);
    Apart(|links|, used, free, first);
    PushFirst(links, head, free, first);
    hide Linked, Below;
    HeadAndRest(used);
    HeadAndRest([first] + free);
    assert ([first] + free)[1..] == free;
  }

  /** Deleting a later node: its predecessor takes over its link, then it goes in front of the free chain. */
  lemma DropInside(links: seq<int>, first: int, used: seq<int>, head: int, free: seq<int>, k: nat)
    requires Pooled(links, first, used, head, free) && 0 < k < |used|
    ensures Pooled(links[used[k - 1] := links[used[k]]][used[k] := head], first, Without(used, k),
                   used[k], [used[k]] + free)
  {
    hide Linked, Below, Without;
    LinkedInRange(links, first, used);
    var n, before := used[k], used[k - 1];
    var links1 := links[before := links[n]];
    RemoveInside(links, first, used, k);
    WriteOutside(links1, first, Without(used, k), n, head);
    Apart(|links|, used, free, n);
    Apart(|links|, used, free, before);
    WriteOutside(links, head, free, before, links[n]);
    PushFirst(links1, head, free, n);
    OneAndRest(used, k);
    HeadAndRest([n] + free);
    assert ([n] + free)[1..] == free;
  }

  lemma LinkedInRange(links: seq<int>, head: int, chain: seq<int>)
    requires Linked(links, head, chain)
    ensures forall i :: 0 <= i < |chain| ==> 0 <= chain[i] < |links|
  {
  }

  /** Following a link. */
  lemma Follow(links: seq<int>, head: int, chain: seq<int>, k: nat)
    requires Linked(links, head, chain) && k < |chain|
    ensures 0 <= chain[k] < |links| && links[chain[k]] == LinkAfter(chain, k)
  {
  }

  lemma FollowUsed(links: seq<int>, first: int, used: seq<int>, head: int, free: seq<int>, k: nat)
    requires Pooled(links, first, used, head, free) && k < |used|
    ensures 0 <= used[k] < |links| && links[used[k]] == LinkAfter(used, k)
  {
  }

  /** A chain ends where its head is NULL; the free chain is used up exactly when every node is in the list. */
  lemma Ends(links: seq<int>, first: int, used: seq<int>, head: int, free: seq<int>)
    requires Pooled(links, first, used, head, free)
    ensures first == NULL <==> used == []
    ensures used != [] ==> first == used[0]
    ensures head == NULL <==> |used| == |links|
  {
    PoolConserved(links, first, used, head, free);
  }

  lemma ButLinked(links: seq<int>, first: int, used: seq<int>, head: int, free: seq<int>, n: int)
    requires PooledBut(links, first, used, head, free, n)
    ensures Linked(links, first, used) && n !in used && 0 <= n < |links|
    ensures forall i :: 0 <= i < |used| ==> 0 <= used[i] < |links|
  {
  }

  /** The node at a position of the chain, or NULL behind its end. */
  function NodeAt(chain: seq<int>, k: nat): int { if k < |chain| then chain[k] else NULL }

  lemma NodeExists(links: seq<int>, first: int, used: seq<int>, head: int, free: seq<int>, k: nat)
    requires Pooled(links, first, used, head, free)
    ensures NodeAt(used, k) == NULL <==> k >= |used|
    ensures k < |used| ==> NodeAt(used, k) == used[k]
    ensures first == NodeAt(used, 0)
  {
  }
}
