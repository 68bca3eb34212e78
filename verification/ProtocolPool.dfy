/** Every event keeps the pool part of the invariant: ownership and wake-ups. */
module ProtocolPool {
  import opened Bags
  import opened Protocol
  import opened ProtocolInvariants

  // ---- Consequences of ownership and wake-ups -----------------------------------------------

  /** An owned job exists, is not free, and has one owner. */
  lemma Owner(n: nat, free: seq<int>, ps: seq<Phase>, t: nat)
    requires Ownership(n, free, ps)
    requires t < |ps| && Owns(ps[t])
    ensures 0 <= ps[t].job < n
    ensures ps[t].job !in free
    ensures forall u :: 0 <= u < |ps| && u != t && Owns(ps[u]) ==> ps[u].job != ps[t].job
  {
    var j := ps[t].job;
    BelowCounts(n);
    BagContains(JobOf, ps, t, j);
    assert (multiset(free) + Bag(JobOf, ps))[j] <= 1;
    forall u | 0 <= u < |ps| && u != t && Owns(ps[u])
      ensures ps[u].job != j
    {
      if ps[u].job == j {
        if u < t { BagContainsBoth(JobOf, ps, u, t, j); } else { BagContainsBoth(JobOf, ps, t, u, j); }
      }
    }
  }

  /** The job at the head of the free list exists and has no owner. */
  lemma FreeHead(n: nat, free: seq<int>, ps: seq<Phase>)
    requires Ownership(n, free, ps) && free != []
    ensures 0 <= free[0] < n
    ensures forall u :: 0 <= u < |ps| && Owns(ps[u]) ==> ps[u].job != free[0]
  {
    var j := free[0];
    BelowCounts(n);
    assert j in multiset(free);
    assert (multiset(free) + Bag(JobOf, ps))[j] <= 1;
    forall u | 0 <= u < |ps| && Owns(ps[u]) ensures ps[u].job != free[0] {
      BagContains(JobOf, ps, u, j);
    }
  }

  /** A thread named by the waiting list is in phase Waiting. */
  lemma HeadWaits(free: seq<int>, waiting: seq<int>, ps: seq<Phase>)
    requires Wakeups(free, waiting, ps) && waiting != []
    ensures 0 <= waiting[0] < |ps| && ps[waiting[0]].Waiting?
  {
    var u := waiting[0];
    assert u in multiset(waiting);
    var t := BagWitness(WaiterOf, ps, u);
  }

  // ---- Moving one thread ---------------------------------------------------------------------

  lemma SameOwner(n: nat, free: seq<int>, ps: seq<Phase>, t: nat, p: Phase)
    requires Ownership(n, free, ps) && t < |ps| && JobOf(t, ps[t]) == JobOf(t, p)
    ensures Ownership(n, free, ps[t := p])
  {
    BagReplace(JobOf, ps, t, p);
  }

  lemma TakesJob(n: nat, free: seq<int>, ps: seq<Phase>, t: nat, p: Phase)
    requires Ownership(n, free, ps) && free != [] && t < |ps| && !Owns(ps[t]) && Owns(p) && p.job == free[0]
    ensures Ownership(n, free[1..], ps[t := p])
  {
    BagReplace(JobOf, ps, t, p);
    HeadAndRest(free);
  }

  lemma GivesJob(n: nat, free: seq<int>, ps: seq<Phase>, t: nat)
    requires Ownership(n, free, ps) && t < |ps| && Owns(ps[t])
    ensures Ownership(n, [ps[t].job] + free, ps[t := Idle])
  {
    BagReplace(JobOf, ps, t, Idle);
    HeadAndRest([ps[t].job] + free);
    assert ([ps[t].job] + free)[1..] == free;
  }

  lemma SameWakeups(free: seq<int>, waiting: seq<int>, ps: seq<Phase>, t: nat, p: Phase)
    requires Wakeups(free, waiting, ps) && t < |ps|
    requires !ps[t].Waiting? && !p.Waiting? && !ps[t].Retry? && !p.Retry?
    ensures Wakeups(free, waiting, ps[t := p])
  {
    BagReplace(WaiterOf, ps, t, p);
    SumUpdate(IsRetry, ps, t, p);
  }

  /** Taking a job uses up at most the one resume that the taker stood for. */
  lemma TakingKeepsWakeups(free: seq<int>, waiting: seq<int>, ps: seq<Phase>, t: nat, p: Phase)
    requires Wakeups(free, waiting, ps) && free != [] && t < |ps|
    requires (ps[t].Fresh? || ps[t].Retry?) && Owns(p)
    ensures Wakeups(free[1..], waiting, ps[t := p])
  {
    BagReplace(WaiterOf, ps, t, p);
    SumUpdate(IsRetry, ps, t, p);
  }

  lemma QueueingKeepsWakeups(free: seq<int>, waiting: seq<int>, ps: seq<Phase>, t: nat, p: Phase)
    requires Wakeups(free, waiting, ps) && free == [] && t < |ps|
    requires (ps[t].Fresh? || ps[t].Retry?) && p.Waiting?
    ensures Wakeups(free, waiting + [t], ps[t := p])
  {
    BagReplace(WaiterOf, ps, t, p);
  }

  lemma RefusalKeepsWakeups(free: seq<int>, waiting: seq<int>, ps: seq<Phase>, t: nat)
    requires Wakeups(free, waiting, ps) && free == [] && t < |ps|
    requires ps[t].Fresh? || ps[t].Retry?
    ensures Wakeups(free, waiting, ps[t := Idle])
  {
    BagReplace(WaiterOf, ps, t, Idle);
  }

  /** Freeing a job resumes a waiting thread, if there is one. */
  lemma FreeingKeepsWakeups(free: seq<int>, waiting: seq<int>, ps: seq<Phase>, t: nat, j: int)
    requires Wakeups(free, waiting, ps) && t < |ps| && Owns(ps[t])
    ensures waiting == [] ==> Wakeups([j] + free, [], ps[t := Idle])
    ensures waiting != [] ==> 0 <= waiting[0] < |ps| && ps[waiting[0]].Waiting?
    ensures waiting != [] ==>
              var u := waiting[0];
              Wakeups([j] + free, waiting[1..], ps[t := Idle][u := Retry(ps[u].call)])
  {
    BagReplace(WaiterOf, ps, t, Idle);
    if waiting != [] {
      HeadWaits(free, waiting, ps);
      ResumeKeepsWakeups(free, waiting, ps, t, j);
    }
  }

  lemma ResumeKeepsWakeups(free: seq<int>, waiting: seq<int>, ps: seq<Phase>, t: nat, j: int)
    requires Wakeups(free, waiting, ps) && t < |ps| && Owns(ps[t])
    requires waiting != [] && 0 <= waiting[0] < |ps| && ps[waiting[0]].Waiting?
    ensures var u := waiting[0];
            Wakeups([j] + free, waiting[1..], ps[t := Idle][u := Retry(ps[u].call)])
  {
    var u, qs := waiting[0], ps[t := Idle];
    SameWakeups(free, waiting, ps, t, Idle);
    BagReplace(WaiterOf, qs, u, Retry(ps[u].call));
    SumUpdate(IsRetry, qs, u, Retry(ps[u].call));
    HeadAndRest(waiting);
  }

  // ---- The events ----------------------------------------------------------------------------

  /** An event that moves one thread and leaves the pool alone. */
  lemma MoveKeepsPool(c: Config, s: State, s': State, t: nat, p: Phase)
    requires PoolInv(c, s) && t < |s.phases|
    requires s'.pool == s.pool && |s'.records| == |s.records| && s'.phases == s.phases[t := p]
    requires JobOf(t, s.phases[t]) == JobOf(t, p)
    requires !s.phases[t].Waiting? && !p.Waiting? && !s.phases[t].Retry? && !p.Retry?
    ensures PoolInv(c, s')
  {
    SameOwner(c.jobs, s.pool.free, s.phases, t, p);
    SameWakeups(s.pool.free, s.pool.waiting, s.phases, t, p);
  }

  lemma GrantKeepsPool(c: Config, s: State, t: nat, s': State)
    requires PoolInv(c, s) && Enabled(s, Ask(t)) && s.pool.free != []
    requires s'.pool == s.pool.(free := s.pool.free[1..]) && |s'.records| == |s.records|
    requires s'.phases == s.phases[t := Holding(s.phases[t].call, s.pool.free[0])]
    ensures PoolInv(c, s')
  {
    hide Ownership, Wakeups;
    var p := Holding(s.phases[t].call, s.pool.free[0]);
    TakesJob(c.jobs, s.pool.free, s.phases, t, p);
    TakingKeepsWakeups(s.pool.free, s.pool.waiting, s.phases, t, p);
  }

  lemma WaitKeepsPool(c: Config, s: State, t: nat, s': State)
    requires PoolInv(c, s) && Enabled(s, Ask(t)) && s.pool.free == [] && |s.pool.waiting| < s.pool.capacity
    requires s'.pool == s.pool.(waiting := s.pool.waiting + [t]) && |s'.records| == |s.records|
    requires s'.phases == s.phases[t := Waiting(s.phases[t].call)]
    ensures PoolInv(c, s')
  {
    hide Ownership, Wakeups;
    var p := Waiting(s.phases[t].call);
    SameOwner(c.jobs, s.pool.free, s.phases, t, p);
    QueueingKeepsWakeups(s.pool.free, s.pool.waiting, s.phases, t, p);
  }

  lemma RefusalKeepsPool(c: Config, s: State, t: nat, s': State)
    requires PoolInv(c, s) && Enabled(s, Ask(t)) && s.pool.free == []
    requires s'.pool == s.pool && |s'.records| == |s.records| && s'.phases == s.phases[t := Idle]
    ensures PoolInv(c, s')
  {
    hide Ownership, Wakeups;
    SameOwner(c.jobs, s.pool.free, s.phases, t, Idle);
    RefusalKeepsWakeups(s.pool.free, s.pool.waiting, s.phases, t);
  }

  /** The phases after t gave its job back: t is idle, and the first waiting thread may retry. */
  ghost predicate Freed(s: State, t: nat, s': State)
    requires t < |s.phases| && Owns(s.phases[t])
  {
    var qs, waiting := s.phases[t := Idle], s.pool.waiting;
    && |s'.records| == |s.records|
    && s'.pool.capacity == s.pool.capacity
    && s'.pool.free == [s.phases[t].job] + s.pool.free
    && (waiting == [] ==> s'.pool.waiting == [] && s'.phases == qs)
    && (waiting != [] && 0 <= waiting[0] < |qs| && qs[waiting[0]].Waiting? ==>
          s'.pool.waiting == waiting[1..] && s'.phases == qs[waiting[0] := Retry(qs[waiting[0]].call)])
  }

  lemma FreeKeepsPool(c: Config, s: State, t: nat, s': State)
    requires PoolInv(c, s) && t < |s.phases| && Owns(s.phases[t]) && Freed(s, t, s')
    ensures PoolInv(c, s')
  {
    var j := s.phases[t].job;
    GivesJob(c.jobs, s.pool.free, s.phases, t);
    FreeingKeepsWakeups(s.pool.free, s.pool.waiting, s.phases, t, j);
    if s.pool.waiting != [] {
      var u, qs := s.pool.waiting[0], s.phases[t := Idle];
      SameOwner(c.jobs, [j] + s.pool.free, qs, u, Retry(qs[u].call));
    }
  }

  // ---- The same facts, from the invariant ---------------------------------------------------

  lemma OwnerJob(c: Config, s: State, t: nat)
    requires PoolInv(c, s) && t < |s.phases| && Owns(s.phases[t])
    ensures 0 <= s.phases[t].job < |s.records|
    ensures forall u :: 0 <= u < |s.phases| && u != t && Owns(s.phases[u]) ==> s.phases[u].job != s.phases[t].job
  {
    Owner(c.jobs, s.pool.free, s.phases, t);
  }

  lemma FreeJob(c: Config, s: State)
    requires PoolInv(c, s) && s.pool.free != []
    ensures 0 <= s.pool.free[0] < |s.records|
  {
    FreeHead(c.jobs, s.pool.free, s.phases);
  }

  lemma FirstWaiter(c: Config, s: State)
    requires PoolInv(c, s) && s.pool.waiting != []
    ensures 0 <= s.pool.waiting[0] < |s.phases| && s.phases[s.pool.waiting[0]].Waiting?
  {
    HeadWaits(s.pool.free, s.pool.waiting, s.phases);
  }
}
