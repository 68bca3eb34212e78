/** Every run without new calls ends, and where it ends everything is settled. */
module ProtocolDraining {
  import opened Bags
  import opened WorkerSpec
  import opened Protocol
  import opened ProtocolInvariants
  import opened ProtocolTheorems
  import opened ProtocolBounds

  // ---- A potential that every event but a new call uses up -----------------------------------

  /** Freeing a job may send a waiting thread back to retry; the phases that still have to free a job carry
      that one unit in advance. */
  function Rank(p: Phase): nat {
    match p
    case Idle => 0
    case Fresh(_) => 11
    case Waiting(_) => 10
    case Retry(_) => 11
    case Holding(_, _) => 9
    case Filled(_, _) => 8
    case Posted(_, _, _, woken) => if woken then 3 else 4
    case Suspended(_, _, _) => 3
    case Done(_, _, _) => 2
  }

  function TaskRank(task: Task): nat {
    match task
    case Fetching => 0
    case Fetched(_) => 2
    case Ran(_) => 1
  }

  function Potential(s: State): nat {
    Sum(Rank, s.phases) + 3 * |s.queue| + TaskRank(s.task)
  }

  lemma RankMove(ps: seq<Phase>, t: nat, p: Phase)
    requires t < |ps|
    ensures Sum(Rank, ps[t := p]) == Sum(Rank, ps) - Rank(ps[t]) + Rank(p)
  {
    SumUpdate(Rank, ps, t, p);
  }

  lemma ResumeCostsOne(ps: seq<Phase>, who: Option<int>)
    ensures Sum(Rank, ResumeWaiter(ps, who)) <= Sum(Rank, ps) + 1
  {
    match who
    case None =>
    case Some(u) =>
      if 0 <= u < |ps| && ps[u].Waiting? { RankMove(ps, u, Retry(ps[u].call)); }
  }

  lemma FreeingDrains(s: State, t: nat)
    requires t < |s.phases| && Owns(s.phases[t])
    ensures Potential(FreeAndReturn(s, t)) <= Potential(s) - Rank(s.phases[t]) + 1
  {
    RankMove(s.phases, t, Idle);
    ResumeCostsOne(s.phases[t := Idle], Release(s.pool, s.phases[t].job).1);
  }

  lemma OwnerResumed(ps: seq<Phase>, u: int)
    ensures Sum(Rank, ResumeOwner(ps, u)) <= Sum(Rank, ps)
  {
    if 0 <= u < |ps| && (ps[u].Posted? || ps[u].Suspended?) { RankMove(ps, u, ResumeOwner(ps, u)[u]); }
  }

  lemma ThreadEventDrains(c: Config, s: State, e: Event)
    requires Enabled(s, e) && (e.Ask? || e.Fill? || e.PostOk? || e.Suspend?)
    ensures Potential(Apply(c, s, e)) < Potential(s)
  {
    var t := e.thread;
    RankMove(s.phases, t, Apply(c, s, e).phases[t]);
  }

  lemma WorkerEventDrains(c: Config, s: State, e: Event)
    requires Enabled(s, e) && (e.Fetch? || e.Execute? || e.Wake?)
    ensures Potential(Apply(c, s, e)) < Potential(s)
  {
    if e.Wake? { OwnerResumed(s.phases, s.records[s.task.job].thread); }
  }

  lemma FreeingEventDrains(c: Config, s: State, e: Event)
    requires Enabled(s, e) && (e.Reject? || e.PostFails? || e.OnDone?)
    ensures Potential(Apply(c, s, e)) < Potential(s)
  {
    if e.PostFails? { FreeingDrains(Stamp(s, e.thread), e.thread); } else { FreeingDrains(s, e.thread); }
  }

  lemma EventDrains(c: Config, s: State, e: Event)
    requires Enabled(s, e) && !e.Begin?
    ensures Potential(Apply(c, s, e)) < Potential(s)
  {
    hide Apply, Potential;
    match e
    case Ask(_) => ThreadEventDrains(c, s, e);
    case Fill(_) => ThreadEventDrains(c, s, e);
    case PostOk(_) => ThreadEventDrains(c, s, e);
    case Suspend(_) => ThreadEventDrains(c, s, e);
    case Reject(_) => FreeingEventDrains(c, s, e);
    case PostFails(_) => FreeingEventDrains(c, s, e);
    case OnDone(_) => FreeingEventDrains(c, s, e);
    case Fetch => WorkerEventDrains(c, s, e);
    case Execute => WorkerEventDrains(c, s, e);
    case Wake => WorkerEventDrains(c, s, e);
  }

  lemma BeginAddsEleven(c: Config, s: State, e: Event)
    requires Enabled(s, e) && e.Begin?
    ensures Potential(Apply(c, s, e)) == Potential(s) + 11
  {
    RankMove(s.phases, e.thread, Fresh(e.call));
  }

  function Begins(es: seq<Event>): nat {
    if es == [] then 0 else (if es[0].Begin? then 1 else 0) + Begins(es[1..])
  }

  /** Draining, from any state: a run in which b calls begin takes at most Potential + 12 b events; without new
      calls it ends within Potential events, whatever the interleaving and however threads barge in. */
  lemma {:induction false} RunsEnd(c: Config, s: State, es: seq<Event>)
    requires IsRun(c, s, es)
    ensures |es| + Potential(RunTo(c, s, es)) <= Potential(s) + 12 * Begins(es)
    decreases |es|
  {
    hide Apply, Enabled, Potential;
    if es == [] {
    } else {
      if es[0].Begin? { BeginAddsEleven(c, s, es[0]); } else { EventDrains(c, s, es[0]); }
      RunsEnd(c, Apply(c, s, es[0]), es[1..]);
    }
  }

  lemma {:induction false} IdleRank(n: nat)
    ensures Sum(Rank, seq(n, i => Idle)) == 0
  {
    if n == 0 {
    } else {
      IdleRank(n - 1);
      assert seq(n, i => Idle)[..n - 1] == seq(n - 1, i => Idle);
    }
  }

  /** Every call costs at most twelve events, over any whole run of the worker. */
  lemma TwelveEventsPerCall(c: Config, es: seq<Event>)
    requires IsRun(c, Init(c), es)
    ensures |es| <= 12 * Begins(es)
  {
    IdleRank(c.threads);
    RunsEnd(c, Init(c), es);
  }

  // ---- Where a run can stop ------------------------------------------------------------------

  /** Nothing can happen until some thread makes a new call. */
  ghost predicate Stuck(s: State) {
    forall e :: Enabled(s, e) ==> e.Begin?
  }

  /** A stuck thread is idle or waits for a job. */
  lemma StuckThread(c: Config, s: State, t: nat)
    requires Inv(c, s) && Stuck(s) && t < |s.phases|
    ensures s.phases[t].Idle? || s.phases[t].Waiting?
  {
    hide PoolInv, DataInv, CountInv, Tickets, QueueIsTail;
    assert !Enabled(s, Ask(t)) && !Enabled(s, Reject(t)) && !Enabled(s, Suspend(t)) && !Enabled(s, OnDone(t));
    if s.phases[t].Suspended? {
      UnansweredPlace(c, s, t);
      StuckWorker(c, s);
    }
  }

  lemma BusyWorkerMoves(c: Config, s: State)
    requires Inv(c, s) && !s.task.Fetching?
    ensures Enabled(s, Execute) || Enabled(s, Wake)
  {
    hide FlowInv, DataInv, CountInv, Ownership, Wakeups;
    WorkersJob(c, s);
  }

  lemma StuckWorker(c: Config, s: State)
    requires Inv(c, s) && Stuck(s)
    ensures s.task.Fetching? && s.queue == []
  {
    hide Inv;
    if !s.task.Fetching? { BusyWorkerMoves(c, s); }
    assert !Enabled(s, Fetch);
  }

  lemma {:induction false} NoOwnersNoRetries(ps: seq<Phase>)
    requires forall t :: 0 <= t < |ps| ==> ps[t].Idle? || ps[t].Waiting?
    ensures Bag(JobOf, ps) == multiset{} && Bag(TicketOf, ps) == multiset{} && Sum(IsRetry, ps) == 0
  {
    if ps == [] {
    } else {
      NoOwnersNoRetries(ps[..|ps| - 1]);
    }
  }

  lemma StuckThreadsIdle(c: Config, s: State)
    requires Inv(c, s) && Stuck(s) && c.jobs > 0
    ensures forall t :: 0 <= t < |s.phases| ==> s.phases[t].Idle?
    ensures multiset(s.pool.free) == Below(c.jobs) && s.pool.waiting == []
  {
    hide DataInv, CountInv, FlowInv, Stuck;
    forall t | 0 <= t < |s.phases| ensures s.phases[t].Idle? || s.phases[t].Waiting? { StuckThread(c, s, t); }
    NoOwnersNoRetries(s.phases);
    BelowCounts(c.jobs);
    assert |multiset(s.pool.free)| == c.jobs;
    WaitersAreWaiting(s.pool.free, s.pool.waiting, s.phases);
  }

  /** Where a run stops, every call has returned or failed, every job is free, queue and worker are empty, every
      post was answered exactly once, and the file system is the sequential execution of the posts. */
  lemma StuckMeansSettled(c: Config, s: State)
    requires Reachable(c, s) && Stuck(s) && c.jobs > 0
    ensures forall t :: 0 <= t < |s.phases| ==> s.phases[t].Idle?
    ensures multiset(s.pool.free) == Below(c.jobs) && s.pool.waiting == []
    ensures s.queue == [] && s.task.Fetching?
    ensures s.calls == |s.answers| + s.failures
    ensures Bag(ReturnTicket, s.answers) == Below(|s.posts|)
    ensures s.fs == Sequential(c, s.posts).0
  {
    ReachableInv(c, s);
    StuckThreadsIdle(c, s);
    StuckWorker(c, s);
    IdleThreads(s.phases);
    assert s.posts[..Executed(s)] == s.posts;
  }

  /** Whenever no call is in progress, every job is back on the free list. */
  lemma NoCallAllFree(c: Config, s: State)
    requires Reachable(c, s) && forall t :: 0 <= t < |s.phases| ==> s.phases[t].Idle?
    ensures multiset(s.pool.free) == Below(c.jobs) && |s.pool.free| == c.jobs && s.pool.waiting == []
    ensures s.calls == |s.answers| + s.failures
  {
    ReachableInv(c, s);
    IdleThreads(s.phases);
    BelowCounts(c.jobs);
    assert |multiset(s.pool.free)| == c.jobs;
    assert |multiset(s.pool.waiting)| == 0;
  }

  /** From every reachable state the outstanding calls can be finished without any new one. */
  lemma {:induction false} CanSettle(c: Config, s: State) returns (es: seq<Event>)
    requires Reachable(c, s)
    ensures IsRun(c, s, es) && Begins(es) == 0 && Stuck(RunTo(c, s, es)) && Reachable(c, RunTo(c, s, es))
    decreases Potential(s)
  {
    hide Apply, Enabled, Potential, Reachable;
    if e :| Enabled(s, e) && !e.Begin? {
      EventDrains(c, s, e);
      ReachableStep(c, s, e);
      var rest := CanSettle(c, Apply(c, s, e));
      es := [e] + rest;
      assert es[1..] == rest;
    } else {
      es := [];
    }
  }
}
