/** What holds in every reachable state and over every run. */
module ProtocolTheorems {
  import opened Bags
  import opened Protocol
  import opened ProtocolInvariants
  import opened ProtocolPool
  import opened ProtocolFlow
  import opened ProtocolSteps

  // ---- The invariant holds -------------------------------------------------------------------

  lemma {:induction false} IdleThreads(ps: seq<Phase>)
    requires forall t :: 0 <= t < |ps| ==> ps[t].Idle?
    ensures Bag(JobOf, ps) == multiset{} && Bag(WaiterOf, ps) == multiset{} && Bag(TicketOf, ps) == multiset{}
    ensures Sum(IsOutstanding, ps) == 0
  {
    if ps == [] {
    } else {
      IdleThreads(ps[..|ps| - 1]);
    }
  }

  lemma InitHasInv(c: Config)
    ensures Inv(c, Init(c))
  {
    InOrderIsBelow(c.jobs);
    IdleThreads(Init(c).phases);
    assert Init(c).posts[..0] == [];
  }

  lemma {:induction false} RunKeepsInv(c: Config, s: State, es: seq<Event>)
    requires Inv(c, s) && IsRun(c, s, es)
    ensures Inv(c, RunTo(c, s, es))
    decreases |es|
  {
    hide Inv, Apply, Enabled;
    if es == [] {
    } else {
      StepKeepsInv(c, s, es[0]);
      RunKeepsInv(c, Apply(c, s, es[0]), es[1..]);
    }
  }

  lemma ReachableInv(c: Config, s: State)
    requires Reachable(c, s)
    ensures Inv(c, s)
  {
    hide Inv, Init;
    var es :| IsRun(c, Init(c), es) && RunTo(c, Init(c), es) == s;
    InitHasInv(c);
    RunKeepsInv(c, Init(c), es);
  }

  lemma {:induction false} RunSnoc(c: Config, s: State, es: seq<Event>, e: Event)
    requires IsRun(c, s, es) && Enabled(RunTo(c, s, es), e)
    ensures IsRun(c, s, es + [e]) && RunTo(c, s, es + [e]) == Apply(c, RunTo(c, s, es), e)
    decreases |es|
  {
    hide Apply, Enabled;
    var all := es + [e];
    if es == [] {
      assert all[1..] == [];
    } else {
      RunSnoc(c, Apply(c, s, es[0]), es[1..], e);
      assert all[1..] == es[1..] + [e];
    }
  }

  lemma ReachableStep(c: Config, s: State, e: Event)
    requires Reachable(c, s) && Enabled(s, e)
    ensures Reachable(c, Apply(c, s, e))
  {
    hide Apply, Enabled, Init;
    var es :| IsRun(c, Init(c), es) && RunTo(c, Init(c), es) == s;
    RunSnoc(c, Init(c), es, e);
  }

  // ---- Each job is in exactly one place -------------------------------------------------------

  ghost predicate HeldBy(s: State, t: int, j: int) {
    0 <= t < |s.phases| && (s.phases[t].Holding? || s.phases[t].Filled?) && s.phases[t].job == j
  }

  ghost predicate AnsweredBy(s: State, t: int, j: int) {
    0 <= t < |s.phases| && HasTicket(s.phases[t]) && !Unanswered(s.phases[t]) && s.phases[t].job == j
  }

  ghost predicate WithWorker(s: State, j: int) { !s.task.Fetching? && s.task.job == j }

  ghost predicate Held(s: State, j: int) { exists t :: HeldBy(s, t, j) }

  ghost predicate AnsweredJob(s: State, j: int) { exists t :: AnsweredBy(s, t, j) }

  ghost function Count(b: bool): nat { if b then 1 else 0 }

  /** Distinct entries. */
  ghost predicate Distinct(xs: seq<int>) {
    forall i, k :: 0 <= i < k < |xs| ==> xs[i] != xs[k]
  }

  lemma {:induction false} CountedOnce(xs: seq<int>)
    requires forall x :: multiset(xs)[x] <= 1
    ensures Distinct(xs)
  {
    if xs == [] {
    } else {
      var n := |xs| - 1;
      assert xs == xs[..n] + [xs[n]];
      assert multiset(xs) == multiset(xs[..n]) + multiset{xs[n]};
      forall x ensures multiset(xs[..n])[x] <= 1 { assert multiset(xs)[x] <= 1; }
      CountedOnce(xs[..n]);
      forall i | 0 <= i < n ensures xs[i] != xs[n] {
        assert xs[..n][i] in multiset(xs[..n]);
        assert multiset(xs)[xs[n]] <= 1;
      }
    }
  }

  lemma FreeIsDistinct(n: nat, free: seq<int>, ps: seq<Phase>)
    requires Ownership(n, free, ps)
    ensures Distinct(free)
  {
    BelowCounts(n);
    forall x ensures multiset(free)[x] <= 1 {
      assert (multiset(free) + Bag(JobOf, ps))[x] <= 1;
    }
    CountedOnce(free);
  }

  /** A job is free or has an owner. */
  lemma FreeOrOwned(n: nat, free: seq<int>, ps: seq<Phase>, j: int) returns (t: int)
    requires Ownership(n, free, ps) && 0 <= j < n
    ensures j in free || (0 <= t < |ps| && Owns(ps[t]) && ps[t].job == j)
  {
    BelowCounts(n);
    t := -1;
    assert (multiset(free) + Bag(JobOf, ps))[j] == 1;
    if j !in free {
      assert j !in multiset(free);
      t := BagWitness(JobOf, ps, j);
    }
  }

  lemma QueueIsDistinct(c: Config, s: State)
    requires Inv(c, s)
    ensures Distinct(s.queue)
    ensures forall k :: 0 <= k < |s.queue| ==> !WithWorker(s, s.queue[k])
    ensures forall k :: 0 <= k < |s.queue| ==> 0 <= s.queue[k] < c.jobs
  {
    hide Memory, AllWritten, Results, CountInv, Ownership, Wakeups, Tickets, QueueIsTail;
    forall i, k | 0 <= i < k < |s.queue| ensures s.queue[i] != s.queue[k] {
      var u := QueuedOwner(s.posts, s.queue, s.task, s.phases, i);
      var v := QueuedOwner(s.posts, s.queue, s.task, s.phases, k);
      OwnerJob(c, s, u);
    }
    forall k | 0 <= k < |s.queue|
      ensures 0 <= s.queue[k] < c.jobs && !WithWorker(s, s.queue[k])
    {
      var u := QueuedOwner(s.posts, s.queue, s.task, s.phases, k);
      OwnerJob(c, s, u);
      if !s.task.Fetching? {
        var v := WorkerOwner(s.posts, s.queue, s.task, s.phases);
      }
    }
  }

  /** An unanswered thread's job is in the queue or with the worker. */
  lemma UnansweredPlace(c: Config, s: State, t: nat)
    requires FlowInv(c, s) && t < |s.phases| && Unanswered(s.phases[t])
    ensures s.phases[t].job in s.queue || WithWorker(s, s.phases[t].job)
  {
    var p := s.phases[t];
    assert PostMatches(s.posts, t, p);
    var k := p.ticket - (|s.posts| - |s.queue|);
    if 0 <= k {
      assert s.queue[k] == s.posts[|s.posts| - |s.queue| + k].job;
    }
  }

  /** The owner of a job that is queued or with the worker is unanswered. */
  lemma BusyOwner(c: Config, s: State, j: int) returns (u: nat)
    requires FlowInv(c, s) && (j in s.queue || WithWorker(s, j))
    ensures u < |s.phases| && Unanswered(s.phases[u]) && s.phases[u].job == j
  {
    if j in s.queue {
      var k :| 0 <= k < |s.queue| && s.queue[k] == j;
      u := QueuedOwner(s.posts, s.queue, s.task, s.phases, k);
    } else {
      u := WorkerOwner(s.posts, s.queue, s.task, s.phases);
    }
  }

  /** Job ownership partition: in every reachable state each job is in exactly one of the free list, a
      native's hands, the queue, the worker's hands, or an answered thread's hands; neither the free list nor
      the queue lists a job twice, and no two threads own the same job. */
  lemma EachJobInOnePlace(c: Config, s: State, j: int)
    requires Reachable(c, s) && 0 <= j < c.jobs
    ensures Count(j in s.pool.free) + Count(Held(s, j)) + Count(j in s.queue) + Count(WithWorker(s, j))
            + Count(AnsweredJob(s, j)) == 1
    ensures Distinct(s.pool.free) && Distinct(s.queue)
    ensures forall t, u :: 0 <= t < u < |s.phases| && Owns(s.phases[t]) && Owns(s.phases[u]) ==>
              s.phases[t].job != s.phases[u].job
  {
    ReachableInv(c, s);
    FreeIsDistinct(c.jobs, s.pool.free, s.phases);
    QueueIsDistinct(c, s);
    OnePlace(c, s, j);
    forall t, u | 0 <= t < u < |s.phases| && Owns(s.phases[t]) && Owns(s.phases[u])
      ensures s.phases[t].job != s.phases[u].job
    {
      OwnerJob(c, s, t);
    }
  }

  lemma OnePlace(c: Config, s: State, j: int)
    requires Inv(c, s) && 0 <= j < c.jobs
    ensures Count(j in s.pool.free) + Count(Held(s, j)) + Count(j in s.queue) + Count(WithWorker(s, j))
            + Count(AnsweredJob(s, j)) == 1
  {
    hide DataInv, CountInv, FlowInv, Wakeups, Ownership;
    var t := FreeOrOwned(c.jobs, s.pool.free, s.phases, j);
    if j in s.queue || WithWorker(s, j) {
      var u := BusyOwner(c, s, j);
      Owner(c.jobs, s.pool.free, s.phases, u);
      QueueIsDistinct(c, s);
    } else if j in s.pool.free {
      NoOwner(c, s, j);
    } else {
      Owner(c.jobs, s.pool.free, s.phases, t);
      if Unanswered(s.phases[t]) { UnansweredPlace(c, s, t); }
      assert HeldBy(s, t, j) || AnsweredBy(s, t, j);
    }
  }

  lemma NoOwner(c: Config, s: State, j: int)
    requires PoolInv(c, s) && j in s.pool.free
    ensures !Held(s, j) && !AnsweredJob(s, j)
  {
    forall t | 0 <= t < |s.phases| && Owns(s.phases[t]) ensures s.phases[t].job != j {
      Owner(c.jobs, s.pool.free, s.phases, t);
    }
  }
}
