/** The list over a static pool of nodes.  A node pointer is an index; node n is (item[n], next[n]). */
module MicroejList {
  import opened Bags
  import opened Chains
  import opened ListSpec
  import opened ListPool

  datatype Status = SUCCESS | ERROR_UNKNOWN | ERROR_NOMEM

  const NO_ITEM := 0

  /** The items of the nodes in the chain. */
  function ItemsOf(item: seq<int>, used: seq<int>): (s: seq<int>)
    requires forall i :: 0 <= i < |used| ==> 0 <= used[i] < |item|
    ensures |s| == |used| && forall i :: 0 <= i < |s| ==> s[i] == item[used[i]]
  {
    seq(|used|, i requires 0 <= i < |used| => item[used[i]])
  }

  lemma ItemsAppended(item: seq<int>, used: seq<int>, n: int, x: int)
    requires forall i :: 0 <= i < |used| ==> 0 <= used[i] < |item|
    requires 0 <= n < |item| && n !in used
    ensures ItemsOf(item[n := x], used + [n]) == ItemsOf(item, used) + [x]
  {
  }

  class List {
    const size: int
    const item: array<int>
    const next: array<int>
    var firstNode: int
    var freeNodes: int
    ghost var used: seq<int>
    ghost var free: seq<int>

    /** As the declaration macro lays it out: the static array of nodes is zeroed. */
    ghost predicate Declared()
      reads this, next
    {
      && 0 < size == item.Length == next.Length && item != next
      && firstNode == NULL && freeNodes == 0 && next[size - 1] == NULL
    }

    /** The links are those of two chains over the pool. */
    ghost predicate Linkage()
      reads this, next
    {
      && 0 < size == item.Length == next.Length && item != next
      && Pooled(next[..], firstNode, used, freeNodes, free)
    }

    /** The stored items, first to last. */
    ghost function Items(): seq<int>
      requires Linkage()
      reads this, item, next
    {
      ItemsOf(item[..], used)
    }

    ghost predicate Valid()
      reads this, item, next
    {
      Linkage() && NO_ITEM !in Items()
    }

    /** microej_list_initialize, on a freshly declared list. */
    method Initialize() returns (result: Status)
      requires Declared()
      modifies this`used, this`free, next
      ensures Valid() && Items() == [] && free == InOrder(size)
      ensures result == SUCCESS
    {
      var i := 0;
      while i < size - 1
        invariant 0 <= i <= size - 1
        invariant forall k :: 0 <= k < i ==> next[k] == k + 1
        invariant next[size - 1] == NULL
      {
        next[i] := i + 1;
        i := i + 1;
      }
      used := [];
      free := InOrder(size);
      LinkedInOrder(next[..]);
      InOrderIsBelow(size);
      return SUCCESS;
    }

    /** microej_list_node_alloc, and the initialization of the node that microej_list_add does. */
    method NodeAlloc(x: int) returns (node: int)
      requires Linkage()
      modifies this`freeNodes, this`free, item, next
      ensures node == NULL <==> old(freeNodes) == NULL
      ensures node == NULL ==> Linkage() && free == old(free) && item[..] == old(item[..])
      ensures node != NULL ==>
                && PooledBut(next[..], firstNode, used, freeNodes, free, node)
                && item[..] == old(item[..])[node := x]
    {
      hide Pooled, PooledBut, Linked;
      node := NULL;
      if freeNodes != NULL {
        TakeNode(next[..], firstNode, used, freeNodes, free);
        node := freeNodes;
        freeNodes := next[node];
        item[node] := x;
        next[node] := NULL;
        free := free[1..];
        assert next[..] == old(next[..])[node := NULL];
      }
    }

    /** microej_list_add: appends at the tail; NOMEM exactly when every node is in use. */
    method Add(x: int) returns (result: Status)
      requires Valid() && x != NO_ITEM
      modifies this, item, next
      ensures Valid()
      ensures result == if |old(used)| == size then ERROR_NOMEM else SUCCESS
      ensures Items() == if |old(used)| == size then old(Items()) else old(Items()) + [x]
    {
      hide Pooled, PooledBut, Linked, ItemsOf;
      Ends(next[..], firstNode, used, freeNodes, free);
      var node := NodeAlloc(x);
      if node == NULL {
        return ERROR_NOMEM;
      }
      ButLinked(next[..], firstNode, used, freeNodes, free, node);
      LinkNode(next[..], firstNode, used, freeNodes, free, node);
      if firstNode == NULL {
        firstNode := node;
        assert used + [node] == [node];
      } else {
        var last := FindLast();
        label linking:
        next[last] := node;
        assert next[..] == old@linking(next[..])[last := node];
      }
      ItemsAppended(old(item[..]), used, node, x);
      used := used + [node];
      return SUCCESS;
    }

    /** The walk of microej_list_add to the end of the list. */
    method FindLast() returns (current: int)
      requires next.Length == size && Linked(next[..], firstNode, used) && firstNode != NULL
      ensures used != [] && current == used[|used| - 1] && 0 <= current < size
    {
      current := firstNode;
      ghost var k := 0;
      Follow(next[..], firstNode, used, 0);
      while next[current] != NULL
        invariant 0 <= k < |used| && current == used[k] && 0 <= current < size
        invariant next[current] == LinkAfter(used, k)
        decreases |used| - k
      {
        current := next[current];
        k := k + 1;
        Follow(next[..], firstNode, used, k);
      }
    }

    /** microej_list_delete: deletes the first node with that item, which goes in front of the free chain. */
    method Delete(x: int) returns (result: Status)
      requires Valid() && x != NO_ITEM
      modifies this, next
      ensures Valid()
      ensures result == if x in old(Items()) then SUCCESS else ERROR_UNKNOWN
      ensures Items() == RemoveFirst(old(Items()), x)
      ensures x in old(Items()) ==>
                var k := FirstIndex(old(Items()), x);
                used == Without(old(used), k) && free == [old(used)[k]] + old(free)
      ensures x !in old(Items()) ==> used == old(used) && free == old(free)
    {
      hide Pooled, Linked, Without, FirstIndex;
      RemoveFirstKeeps(Items(), x);
      Ends(next[..], firstNode, used, freeNodes, free);
      if firstNode != NULL {
        var current := firstNode;
        FollowUsed(next[..], firstNode, used, freeNodes, free, 0);
        if x == item[current] {
          FirstIndexIs(Items(), x, 0);
          DeleteFirst();
          return SUCCESS;
        }
        ghost var k;
        current, k := FindBefore(x);
        if next[current] != NULL {
          FirstIndexIs(Items(), x, k);
          DeleteAfter(current, k);
          return SUCCESS;
        }
      }
      return ERROR_UNKNOWN;
    }

    /** The walk of microej_list_delete: stops in front of the first node with the item, or at the last node. */
    method FindBefore(x: int) returns (current: int, ghost k: nat)
      requires Linkage() && firstNode != NULL && Items()[0] != x
      ensures 0 < k <= |used| && current == used[k - 1] && 0 <= current < size
      ensures next[current] == NULL ==> k == |used| && x !in Items()
      ensures next[current] != NULL ==> k < |used| && Items()[k] == x && x !in Items()[..k]
    {
      hide Pooled, Linked;
      Ends(next[..], firstNode, used, freeNodes, free);
      current := firstNode;
      k := 1;
      FollowUsed(next[..], firstNode, used, freeNodes, free, 0);
      if |used| > 1 { FollowUsed(next[..], firstNode, used, freeNodes, free, 1); }
      while next[current] != NULL && x != item[next[current]]
        invariant 0 < k <= |used| && current == used[k - 1] && 0 <= current < size
        invariant next[current] == LinkAfter(used, k - 1)
        invariant k < |used| ==> 0 <= used[k] < size
        invariant forall i :: 0 <= i < k ==> Items()[i] != x
        decreases |used| - k
      {
        FollowUsed(next[..], firstNode, used, freeNodes, free, k);
        if k + 1 < |used| { FollowUsed(next[..], firstNode, used, freeNodes, free, k + 1); }
        current := next[current];
        k := k + 1;
      }
      assert k == |used| ==> Items()[..k] == Items();
    }

    /** Delete, when the item is in the first node. */
    method DeleteFirst()
      requires Linkage() && firstNode != NULL
      modifies this`firstNode, this`freeNodes, this`used, this`free, next
      ensures Linkage() && old(used) != []
      ensures used == Without(old(used), 0) && free == [old(used)[0]] + old(free)
      ensures Items() == Without(old(Items()), 0)
      ensures FirstIndex(old(Items()), old(Items())[0]) == 0
    {
      hide Pooled, Linked;
      DropFirst(next[..], firstNode, used, freeNodes, free);
      var node := firstNode;
      firstNode := next[node];
      next[node] := freeNodes;
      freeNodes := node;
      assert next[..] == old(next[..])[node := old(freeNodes)];
      used, free := used[1..], [node] + free;
    }

    /** Delete, when the item is in the node behind `current`. */
    method DeleteAfter(current: int, ghost k: nat)
      requires Linkage() && 0 < k < |used| && current == used[k - 1]
      modifies this`freeNodes, this`used, this`free, next
      ensures Linkage()
      ensures used == Without(old(used), k) && free == [old(used)[k]] + old(free)
      ensures Items() == Without(old(Items()), k)
    {
      hide Pooled, Linked;
      FollowUsed(next[..], firstNode, used, freeNodes, free, k - 1);
      FollowUsed(next[..], firstNode, used, freeNodes, free, k);
      DropInside(next[..], firstNode, used, freeNodes, free, k);
      var node := next[current];
      next[current] := next[node];
      next[node] := freeNodes;
      freeNodes := node;
      assert next[..] == old(next[..])[current := old(next[node])][node := old(freeNodes)];
      used, free := Without(used, k), [node] + free;
      WithoutAt(old(used), k);
      WithoutAt(old(Items()), k);
      assert Items() == Without(old(Items()), k);
    }

    /** microej_list_get: the first item the comparison accepts, or NULL. */
    method Get(accepts: int -> bool) returns (found: int)
      requires Valid()
      ensures found == NO_ITEM <==> forall x :: x in Items() ==> !accepts(x)
      ensures found != NO_ITEM ==>
                (exists k :: 0 <= k < |Items()| && found == Items()[k] && accepts(found)
                    && forall i :: 0 <= i < k ==> !accepts(Items()[i]))
    {
      hide Pooled, Linked;
      Ends(next[..], firstNode, used, freeNodes, free);
      if firstNode != NULL {
        var current := firstNode;
        FollowUsed(next[..], firstNode, used, freeNodes, free, 0);
        if accepts(item[current]) {
          assert Items()[0] == item[current];
          return item[current];
        }
        ghost var k := 0;
        if |used| > 1 { FollowUsed(next[..], firstNode, used, freeNodes, free, 1); }
        while next[current] != NULL
          invariant 0 <= k < |used| && current == used[k] && 0 <= current < size
          invariant next[current] == LinkAfter(used, k) && (k + 1 < |used| ==> 0 <= used[k + 1])
          invariant forall i :: 0 <= i <= k ==> !accepts(Items()[i])
          decreases |used| - k
        {
          FollowUsed(next[..], firstNode, used, freeNodes, free, k + 1);
          if k + 2 < |used| { FollowUsed(next[..], firstNode, used, freeNodes, free, k + 2); }
          current := next[current];
          k := k + 1;
          if accepts(item[current]) {
            assert Items()[k] == item[current];
            return item[current];
          }
        }
      }
      return NO_ITEM;
    }

    /** microej_list_visit: calls the visitor on each item, in order. */
    method Visit() returns (visited: seq<int>)
      requires Valid()
      ensures visited == Items()
    {
      hide Pooled, Linked;
      visited := [];
      NodeExists(next[..], firstNode, used, freeNodes, free, 0);
      var current := firstNode;
      ghost var k := 0;
      while current != NULL
        invariant 0 <= k <= |used|
        invariant current == NodeAt(used, k) && (current == NULL ==> k >= |used|)
        invariant visited == Items()[..k]
        decreases |used| - k
      {
        FollowUsed(next[..], firstNode, used, freeNodes, free, k);
        visited := visited + [item[current]];
        current := next[current];
        k := k + 1;
        NodeExists(next[..], firstNode, used, freeNodes, free, k);
      }
      assert k == |used| && Items()[..k] == Items();
    }

    /** The step cleanup and consume share: remembers the next node, then deletes the current item by value. */
    method DeleteCurrent(current: int, ghost k: nat) returns (tmpNode: int, tmpItem: int)
      requires Valid() && k < |used| && current == used[k] && 0 <= current < size
      requires FirstIndex(Items(), Items()[k]) == k
      modifies this, next
      ensures Valid() && tmpItem == old(Items())[k] && Items() == Without(old(Items()), k)
      ensures tmpNode == NodeAt(used, k) && used == Without(old(used), k)
    {
      hide Pooled, Linked;
      FollowUsed(next[..], firstNode, used, freeNodes, free, k);
      WithoutAt(used, k);
      tmpNode, tmpItem := next[current], item[current];
      assert Items()[k] == tmpItem;
      var _ := Delete(tmpItem);
    }

    /** microej_list_cleanup with a pure predicate: keeps the other items in order and hands exactly the deleted
        ones to the free function, in order.  It deletes by value, hence the first node with that item; the
        walk has already deleted every earlier item the predicate accepts, so that node is the current one. */
    method Cleanup(hasToBeDeleted: int -> bool) returns (freed: seq<int>)
      requires Valid()
      modifies this, next
      ensures Valid()
      ensures Items() == Filter(Not(hasToBeDeleted), old(Items()))
      ensures freed == Filter(hasToBeDeleted, old(Items()))
    {
      hide Pooled, Linked, Filter, CleanedTo;
      ghost var all, i, kept: seq<int> := Items(), 0, [];
      CleanupStarts(hasToBeDeleted, all);
      freed := [];
      NodeExists(next[..], firstNode, used, freeNodes, free, 0);
      var current := firstNode;
      while current != NULL
        invariant Valid() && CleanedTo(hasToBeDeleted, all, i, kept, freed, Items())
        invariant current == NodeAt(used, |kept|) && (current == NULL <==> |kept| >= |used|)
        decreases |all| - i
      {
        current, freed, kept := CleanupRound(hasToBeDeleted, current, freed, all, i, kept);
        i := i + 1;
      }
      CleanupEnds(hasToBeDeleted, all, i, kept, freed, Items());
    }

    /** One round of the loop of microej_list_cleanup, at the item number i of those there were at the start. */
    method CleanupRound(hasToBeDeleted: int -> bool, current: int, freed: seq<int>,
                        ghost all: seq<int>, ghost i: nat, ghost kept: seq<int>)
      returns (current': int, freed': seq<int>, ghost kept': seq<int>)
      requires Valid() && CleanedTo(hasToBeDeleted, all, i, kept, freed, Items())
      requires |kept| < |used| && current == used[|kept|]
      modifies this, next
      ensures Valid() && i < |all| && CleanedTo(hasToBeDeleted, all, i + 1, kept', freed', Items())
      ensures current' == NodeAt(used, |kept'|) && (current' == NULL <==> |kept'| >= |used|)
    {
      hide Pooled, Linked, Filter, Without, CleanedTo, FirstIndex;
      FollowUsed(next[..], firstNode, used, freeNodes, free, |kept|);
      CleanupStep(hasToBeDeleted, all, i, kept, freed, Items());
      if hasToBeDeleted(item[current]) {
        var tmpNode, tmpItem := DeleteCurrent(current, |kept|);
        current', freed', kept' := tmpNode, freed + [tmpItem], kept;
      } else {
        current', freed', kept' := next[current], freed, kept + [all[i]];
      }
      NodeExists(next[..], firstNode, used, freeNodes, free, |kept'|);
    }

    /** microej_list_consume: processes and frees every item once, in order, and leaves the list empty. */
    method Consume() returns (processed: seq<int>, freed: seq<int>)
      requires Valid()
      modifies this, next
      ensures Valid() && Items() == [] && |free| == size
      ensures processed == old(Items()) && freed == old(Items())
    {
      hide Pooled, Linked, Without, FirstIndex, RemoveFirst;
      ghost var all, i := Items(), 0;
      processed, freed := [], [];
      NodeExists(next[..], firstNode, used, freeNodes, free, 0);
      var current := firstNode;
      while current != NULL
        invariant Valid() && i <= |all|
        invariant processed == freed == all[..i]
        invariant Items() == all[i..]
        invariant current == NodeAt(used, 0) && (current == NULL ==> |used| == 0)
        decreases |all| - i
      {
        FollowUsed(next[..], firstNode, used, freeNodes, free, 0);
        FirstIndexIs(Items(), Items()[0], 0);
        processed := processed + [item[current]];
        WithoutFirst(Items());
        var tmpNode, tmpItem := DeleteCurrent(current, 0);
        freed := freed + [tmpItem];
        current := tmpNode;
        i := i + 1;
        NodeExists(next[..], firstNode, used, freeNodes, free, 0);
      }
      PoolConserved(next[..], firstNode, used, freeNodes, free);
    }
  }

  lemma WithoutFirst(s: seq<int>)
    requires s != []
    ensures Without(s, 0) == s[1..]
  {
  }

  /** The first i items have been looked at: those to keep are `kept`, those to delete are `freed`. */
  ghost predicate CleanedTo(p: int -> bool, all: seq<int>, i: nat, kept: seq<int>, freed: seq<int>, items: seq<int>) {
    && i <= |all|
    && kept == Filter(Not(p), all[..i])
    && freed == Filter(p, all[..i])
    && items == kept + all[i..]
  }

  lemma CleanupStarts(p: int -> bool, all: seq<int>)
    ensures CleanedTo(p, all, 0, [], [], all)
  {
  }

  lemma CleanupEnds(p: int -> bool, all: seq<int>, i: nat, kept: seq<int>, freed: seq<int>, items: seq<int>)
    requires CleanedTo(p, all, i, kept, freed, items) && |items| <= |kept|
    ensures items == Filter(Not(p), all) && freed == Filter(p, all)
  {
    assert all[..i] == all;
  }

  /** The current item is kept, or it is the first of its value and can be deleted. */
  lemma CleanupStep(p: int -> bool, all: seq<int>, i: nat, kept: seq<int>, freed: seq<int>, items: seq<int>)
    requires CleanedTo(p, all, i, kept, freed, items) && |kept| < |items|
    ensures i < |all| && all[i] == items[|kept|]
    ensures all[i] in all
    ensures !p(all[i]) ==> CleanedTo(p, all, i + 1, kept + [all[i]], freed, items)
    ensures p(all[i]) ==>
              && all[i] in items && FirstIndex(items, all[i]) == |kept|
              && CleanedTo(p, all, i + 1, kept, freed + [all[i]], Without(items, |kept|))
  {
    FilterSnoc(Not(p), all, i);
    FilterSnoc(p, all, i);
    if p(all[i]) { DeletesCurrent(p, all, i, kept); } else { KeepsCurrent(kept, all, i); }
  }

  lemma KeepsCurrent(kept: seq<int>, all: seq<int>, i: nat)
    requires i < |all|
    ensures kept + all[i..] == (kept + [all[i]]) + all[i + 1..]
  {
  }

  /** The first node with the current item is the current node. */
  lemma DeletesCurrent(p: int -> bool, all: seq<int>, i: nat, kept: seq<int>)
    requires i < |all| && p(all[i]) && kept == Filter(Not(p), all[..i])
    ensures var items, x := kept + all[i..], all[i];
            && x in items && FirstIndex(items, x) == |kept|
            && Without(items, |kept|) == kept + all[i + 1..]
  {
    FilterKeeps(Not(p), all[..i]);
    KeepsCurrent(kept, all, i);
    FirstIndexBehind(kept, all[i], all[i + 1..]);
  }
}
