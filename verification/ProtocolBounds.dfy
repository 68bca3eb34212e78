/** Bounds that no line of the code checks, and wake-ups. */
module ProtocolBounds {
  import opened Bags
  import opened WorkerSpec
  import opened Protocol
  import opened ProtocolInvariants
  import opened ProtocolPool
  import opened ProtocolFlow
  import opened ProtocolTheorems

  // ---- No lost wake-up -----------------------------------------------------------------------

  /** Whenever threads wait for a job, each free job is matched by a thread that was resumed and has not
      retried yet; the waiting list names exactly the suspended threads, each once. */
  lemma NoLostWakeup(c: Config, s: State)
    requires Reachable(c, s)
    ensures s.pool.waiting != [] ==> |s.pool.free| <= Sum(IsRetry, s.phases)
    ensures forall t :: 0 <= t < |s.phases| ==> (t in s.pool.waiting <==> s.phases[t].Waiting?)
    ensures Distinct(s.pool.waiting) && |s.pool.waiting| <= c.capacity
  {
    ReachableInv(c, s);
    WaitersAreWaiting(s.pool.free, s.pool.waiting, s.phases);
  }

  lemma WaitersAreWaiting(free: seq<int>, waiting: seq<int>, ps: seq<Phase>)
    requires Wakeups(free, waiting, ps)
    ensures forall t :: 0 <= t < |ps| ==> (t in waiting <==> ps[t].Waiting?)
    ensures Distinct(waiting)
  {
    forall t | 0 <= t < |ps| ensures t in waiting <==> ps[t].Waiting? {
      if t in waiting {
        assert t in multiset(waiting);
        var u := BagWitness(WaiterOf, ps, t);
      }
      if ps[t].Waiting? {
        BagContains(WaiterOf, ps, t, t);
        assert t in multiset(waiting);
      }
    }
    forall x ensures multiset(waiting)[x] <= 1 { WaitsOnce(ps, x); }
    CountedOnce(waiting);
  }

  lemma {:induction false} WaitsOnce(ps: seq<Phase>, x: int)
    ensures Bag(WaiterOf, ps)[x] <= 1
    ensures !(0 <= x < |ps|) ==> Bag(WaiterOf, ps)[x] == 0
  {
    if ps == [] {
    } else {
      WaitsOnce(ps[..|ps| - 1], x);
    }
  }

  /** A free job beside a waiting thread means some thread is on its way to take a job. */
  lemma FreeJobHasTaker(c: Config, s: State) returns (t: nat)
    requires Reachable(c, s) && s.pool.waiting != [] && s.pool.free != []
    ensures Enabled(s, Ask(t)) && s.phases[t].Retry?
  {
    NoLostWakeup(c, s);
    t := SumWitness(IsRetry, s.phases);
  }

  // ---- The queue never outgrows the pool -----------------------------------------------------

  lemma {:induction false} DistinctCounts(xs: seq<int>)
    requires Distinct(xs)
    ensures forall x :: multiset(xs)[x] <= if x in xs then 1 else 0
  {
    if xs == [] {
    } else {
      var n := |xs| - 1;
      assert xs == xs[..n] + [xs[n]];
      DistinctCounts(xs[..n]);
    }
  }

  lemma DistinctBounded(xs: seq<int>, n: nat)
    requires Distinct(xs) && forall k :: 0 <= k < |xs| ==> 0 <= xs[k] < n
    ensures |xs| <= n
  {
    DistinctCounts(xs);
    BelowCounts(n);
    assert Below(n) == multiset(xs) + (Below(n) - multiset(xs));
  }

  /** Implicit queue bound: the pending messages, with the one the worker holds, never exceed the size given
      to OSAL_queue_create, although the post never compares against it. */
  lemma QueueBound(c: Config, s: State)
    requires Reachable(c, s)
    ensures |s.queue| + (if s.task.Fetching? then 0 else 1) <= c.jobs
  {
    ReachableInv(c, s);
    QueueIsDistinct(c, s);
    if s.task.Fetching? {
      DistinctBounded(s.queue, c.jobs);
    } else {
      WorkersJob(c, s);
      DistinctBounded(s.queue + [s.task.job], c.jobs);
    }
  }

  lemma WorkersJob(c: Config, s: State)
    requires Inv(c, s) && !s.task.Fetching?
    ensures 0 <= s.task.job < c.jobs && s.task.job !in s.queue
  {
    hide Tickets, QueueIsTail, Ownership, Wakeups, DataInv, CountInv;
    QueueIsDistinct(c, s);
    var u := WorkerOwner(s.posts, s.queue, s.task, s.phases);
    OwnerJob(c, s, u);
    assert WithWorker(s, s.task.job);
  }

  // ---- When the waiting list can be full ------------------------------------------------------

  /** Threads that own a job and threads that wait are different threads. */
  lemma {:induction false} ThreadsCounted(ps: seq<Phase>)
    ensures |Bag(JobOf, ps)| + |Bag(WaiterOf, ps)| <= |ps|
  {
    if ps == [] {
    } else {
      LastThreadCounted(ps);
      ThreadsCounted(ps[..|ps| - 1]);
    }
  }

  /** A thread that asks for a job is neither. */
  lemma {:induction false} AskerNotCounted(ps: seq<Phase>, t: nat)
    requires t < |ps| && !Owns(ps[t]) && !ps[t].Waiting?
    ensures |Bag(JobOf, ps)| + |Bag(WaiterOf, ps)| < |ps|
  {
    hide Bag;
    var n := |ps| - 1;
    LastThreadCounted(ps);
    if t == n { ThreadsCounted(ps[..n]); } else { AskerNotCounted(ps[..n], t); }
  }

  lemma LastThreadCounted(ps: seq<Phase>)
    requires ps != []
    ensures var n := |ps| - 1;
            |Bag(JobOf, ps)| + |Bag(WaiterOf, ps)| ==
            |Bag(JobOf, ps[..n])| + |Bag(WaiterOf, ps[..n])| + if Owns(ps[n]) || ps[n].Waiting? then 1 else 0
  {
  }

  lemma FullCounts(c: Config, s: State, t: nat)
    requires PoolInv(c, s) && t < |s.phases| && !Owns(s.phases[t]) && !s.phases[t].Waiting?
    requires s.pool.free == [] && |s.pool.waiting| >= c.capacity
    ensures c.threads > c.jobs + c.capacity
  {
    AskerNotCounted(s.phases, t);
    BelowCounts(c.jobs);
    assert |multiset(s.pool.free) + Bag(JobOf, s.phases)| == c.jobs;
    assert |multiset(s.pool.waiting)| == |s.pool.waiting|;
  }

  lemma FullNeedsThreads(c: Config, s: State, t: nat)
    requires Reachable(c, s) && Enabled(s, Ask(t)) && Allocate(s.pool, t).1.ListFull?
    ensures c.threads > c.jobs + c.capacity
  {
    hide FlowInv, DataInv, CountInv, Ownership, Wakeups;
    ReachableInv(c, s);
    FullCounts(c, s, t);
  }

  /** A state in which the first k threads have asked for a job and nothing else has happened. */
  ghost predicate Crowd(c: Config, s: State, k: nat) {
    && |s.phases| == c.threads
    && s.pool.capacity == c.capacity
    && (k <= c.jobs ==> |s.pool.free| == c.jobs - k && s.pool.waiting == [])
    && (k >= c.jobs ==> s.pool.free == [] && |s.pool.waiting| == k - c.jobs)
    && (forall t :: k <= t < c.threads ==> s.phases[t].Idle?)
  }

  lemma {:induction false} CrowdReached(c: Config, k: nat) returns (s: State)
    requires k <= c.threads && k <= c.jobs + c.capacity
    ensures Reachable(c, s) && Crowd(c, s, k)
  {
    if k == 0 {
      s := Init(c);
      assert IsRun(c, s, []) && RunTo(c, s, []) == s;
    } else {
      var s0 := CrowdReached(c, k - 1);
      s := CrowdGrows(c, s0, k - 1);
    }
  }

  lemma CrowdGrows(c: Config, s0: State, k: nat) returns (s: State)
    requires Reachable(c, s0) && Crowd(c, s0, k) && k < c.threads && k < c.jobs + c.capacity
    ensures Reachable(c, s) && Crowd(c, s, k + 1)
  {
    var s1 := Apply(c, s0, Begin(k, Call(0, [])));
    ReachableStep(c, s0, Begin(k, Call(0, [])));
    s := DoAsk(s1, k);
    ReachableStep(c, s1, Ask(k));
  }

  /** Pigeonhole bound: the exception "waiting list is full" can be thrown exactly when there are more Java
      threads than jobs and waiting slots together. */
  lemma ListFullIff(c: Config)
    ensures (exists s, t: nat :: Reachable(c, s) && Enabled(s, Ask(t)) && Allocate(s.pool, t).1.ListFull?)
            <==> c.threads > c.jobs + c.capacity
  {
    if s, t: nat :| Reachable(c, s) && Enabled(s, Ask(t)) && Allocate(s.pool, t).1.ListFull? {
      FullNeedsThreads(c, s, t);
    }
    if c.threads > c.jobs + c.capacity {
      var k := c.jobs + c.capacity;
      var s := CrowdReached(c, k);
      var s' := Apply(c, s, Begin(k, Call(0, [])));
      ReachableStep(c, s, Begin(k, Call(0, [])));
      assert Enabled(s', Ask(k)) && Allocate(s'.pool, k).1.ListFull?;
    }
  }
}
