/** Allocations and frees of one job over a run. */
module ProtocolJobs {
  import opened Bags
  import opened WorkerSpec
  import opened Protocol
  import opened ProtocolTheorems

  /** The event hands job j to a thread. */
  predicate Grants(s: State, e: Event, j: int) {
    e.Ask? && Allocate(s.pool, e.thread).1 == Granted(j)
  }

  /** The event frees job j: a refused native, a failed post, or an on-done callback. */
  predicate Frees(s: State, e: Event, j: int)
    requires Enabled(s, e)
  {
    (e.Reject? || e.PostFails? || e.OnDone?) && s.phases[e.thread].job == j
  }

  function GrantCount(c: Config, s: State, es: seq<Event>, j: int): nat
    requires IsRun(c, s, es)
    decreases |es|
  {
    if es == [] then 0
    else (if Grants(s, es[0], j) then 1 else 0) + GrantCount(c, Apply(c, s, es[0]), es[1..], j)
  }

  function FreeCount(c: Config, s: State, es: seq<Event>, j: int): nat
    requires IsRun(c, s, es)
    decreases |es|
  {
    if es == [] then 0
    else (if Frees(s, es[0], j) then 1 else 0) + FreeCount(c, Apply(c, s, es[0]), es[1..], j)
  }

  /** What an event does to the pool. */
  lemma PoolStep(c: Config, s: State, e: Event)
    requires Enabled(s, e)
    ensures Apply(c, s, e).pool ==
            if e.Ask? then Allocate(s.pool, e.thread).0
            else if e.Reject? || e.PostFails? || e.OnDone? then Release(s.pool, s.phases[e.thread].job).0
            else s.pool
  {
    hide Allocate, Release, ResumeWaiter, ResumeOwner;
  }

  lemma AllocateCounts(p: Pool, t: int, j: int)
    ensures multiset(Allocate(p, t).0.free)[j] + (if Allocate(p, t).1 == Granted(j) then 1 else 0)
            == multiset(p.free)[j]
  {
    if p.free != [] { HeadAndRest(p.free); }
  }

  lemma ReleaseCounts(p: Pool, job: int, j: int)
    ensures multiset(Release(p, job).0.free)[j] == multiset(p.free)[j] + if job == j then 1 else 0
  {
    assert multiset([job] + p.free) == multiset{job} + multiset(p.free);
  }

  lemma FreeListStep(c: Config, s: State, e: Event, j: int)
    requires Enabled(s, e)
    ensures multiset(Apply(c, s, e).pool.free)[j] + (if Grants(s, e, j) then 1 else 0)
            == multiset(s.pool.free)[j] + (if Frees(s, e, j) then 1 else 0)
  {
    hide Apply, Allocate, Release;
    PoolStep(c, s, e);
    if e.Ask? {
      AllocateCounts(s.pool, e.thread, j);
    } else if e.Reject? || e.PostFails? || e.OnDone? {
      ReleaseCounts(s.pool, s.phases[e.thread].job, j);
    }
  }

  lemma {:induction false} FreeListRun(c: Config, s: State, es: seq<Event>, j: int)
    requires IsRun(c, s, es)
    ensures multiset(RunTo(c, s, es).pool.free)[j] + GrantCount(c, s, es, j)
            == multiset(s.pool.free)[j] + FreeCount(c, s, es, j)
    decreases |es|
  {
    hide Apply, Enabled, Grants, Frees;
    if es == [] {
    } else {
      FreeListStep(c, s, es[0], j);
      FreeListRun(c, Apply(c, s, es[0]), es[1..], j);
    }
  }

  /** Each allocated job is freed exactly once: over every run, and so over every part of one, a job has been handed
      out once more than freed while it is out, and as often as freed when it is back on the free list. */
  lemma FreedExactlyOnce(c: Config, es: seq<Event>, j: int)
    requires IsRun(c, Init(c), es) && 0 <= j < c.jobs
    ensures GrantCount(c, Init(c), es, j)
            == FreeCount(c, Init(c), es, j) + if j in RunTo(c, Init(c), es).pool.free then 0 else 1
  {
    var s := RunTo(c, Init(c), es);
    FreeListRun(c, Init(c), es, j);
    InOrderIsBelow(c.jobs);
    BelowCounts(c.jobs);
    ReachableInv(c, s);
    assert (multiset(s.pool.free) + Bag(JobOf, s.phases))[j] == 1;
  }
}
