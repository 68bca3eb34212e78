/** The file system natives and their on-done callbacks take the protocol's steps, so what holds in every reachable
    state of the protocol holds for the worker object they share. */
module LlfsRefinement {
  import opened Bags
  import opened WorkerSpec
  import opened Protocol
  import D = ProtocolDraining
  import J = ProtocolJobs
  import I = ProtocolInvariants
  import T = ProtocolTheorems
  import S = ProtocolSteps
  import Q = OsalQueueSpec
  import V = WorkerRuns
  import W = AsyncWorker
  import R = ClientRuns
  import WR = WaitingRing
  import opened Chains
  import L = LlfsClient
  import opened WorkerRefinement

  // ---- One native ----------------------------------------------------------------------------

  lemma RunOne(c: Config, s: State, a: Event)
    requires Enabled(s, a)
    ensures IsRun(c, s, [a]) && RunTo(c, s, [a]) == Apply(c, s, a)
  {
    hide Apply, Enabled;
    assert [a][1..] == [];
  }

  lemma RunThree(c: Config, s: State, a: Event, b: Event, d: Event)
    requires Enabled(s, a) && Enabled(Apply(c, s, a), b) && Enabled(Apply(c, Apply(c, s, a), b), d)
    ensures IsRun(c, s, [a, b, d]) && RunTo(c, s, [a, b, d]) == Apply(c, Apply(c, Apply(c, s, a), b), d)
  {
    hide Apply, Enabled;
    var s1 := Apply(c, s, a);
    RunOne(c, Apply(c, s1, b), d);
    assert [a, b, d][1..] == [b, d] && [b, d][1..] == [d];
    assert IsRun(c, s1, [b, d]);
  }

  /** Without a free job. */
  lemma WaitShows(c: Config, s: State, t: nat, q: Q.Queue, e: L.Entry, pool: Pool)
    requires Shows(s.pool, s.records, q, s) && Enabled(s, Ask(t)) && s.pool.free == []
    requires e == (if |s.pool.waiting| >= s.pool.capacity then L.ListFullThrown else L.AwaitsJob)
    requires L.PoolAfter(s.pool, pool, t, e)
    ensures Shows(pool, s.records, q, DoAsk(s, t))
    ensures LeftAs(e, DoAsk(s, t).phases[t])
  {
  }

  /** The state in which a native holds the first free job with its parameters written. */
  function AskedAndFilled(c: Config, s: State, t: nat): State
    requires Enabled(s, Ask(t)) && s.pool.free != []
  {
    DoFill(c, DoAsk(s, t), t)
  }

  lemma FilledState(c: Config, s: State, t: nat, filled: L.Filled)
    requires Enabled(s, Ask(t)) && s.pool.free != [] && 0 <= s.pool.free[0] < |s.records|
    requires filled.params == c.fill(s.phases[t].call, s.records[s.pool.free[0]].params)
    ensures var j, call := s.pool.free[0], s.phases[t].call;
            AskedAndFilled(c, s, t)
            == s.(pool := s.pool.(free := s.pool.free[1..]),
                  records := s.records[j := s.records[j].(params := filled.params)],
                  phases := s.phases[t := Filled(call, j)])
  {
  }

  /** With a free job: the native leaves the pool, the records and the queue as the protocol's last event does. */
  lemma ServedShows(c: Config, s: State, t: nat, filled: L.Filled, throws: bool, malloc: Q.Malloc, e: L.Entry,
                    pool: Pool, records: seq<Record>, q: Q.Queue, q': Q.Queue)
    requires Shows(s.pool, s.records, q, s) && Enabled(s, Ask(t))
    requires s.pool.free != [] && 0 <= s.pool.free[0] < |s.records|
    requires filled.params == c.fill(s.phases[t].call, s.records[s.pool.free[0]].params)
    requires L.Served(s.pool.free[0], filled, throws, t, s.phases[t].call.action, malloc, e, s.records, records, q, q')
    requires L.PoolAfter(s.pool, pool, t, e)
    ensures var s2 := AskedAndFilled(c, s, t);
            && Enabled(s2, PostOk(t)) && s2.phases[t].job == s.pool.free[0]
            && (e.Submitted? <==> filled.accepted && malloc.Allocated?) && (e.Submitted? ==> e.job == s.pool.free[0])
            && (e.Submitted? || e.Refused?)
            && Shows(pool, records, q', if !filled.accepted then DoReject(s2, t)
                                        else if malloc.Allocated? then DoPostOk(s2, t) else DoPostFails(s2, t))
  {
    var j := s.pool.free[0];
    FilledState(c, s, t, filled);
    assert [j] + s.pool.free[1..] == s.pool.free;
    Q.EntryIsSafe(q, Q.Post(j, malloc));
  }

  /** The last event of a native that got a job. */
  function LastEvent(t: nat, accepted: bool, malloc: Q.Malloc): Event {
    if !accepted then Reject(t) else if malloc.Allocated? then PostOk(t) else PostFails(t)
  }

  lemma ServedRun(c: Config, s: State, t: nat, accepted: bool, malloc: Q.Malloc)
    requires Enabled(s, Ask(t)) && s.pool.free != [] && Enabled(AskedAndFilled(c, s, t), PostOk(t))
    ensures var es, s2 := [Ask(t), Fill(t), LastEvent(t, accepted, malloc)], AskedAndFilled(c, s, t);
            && IsRun(c, s, es)
            && RunTo(c, s, es) == if !accepted then DoReject(s2, t)
                                  else if malloc.Allocated? then DoPostOk(s2, t) else DoPostFails(s2, t)
  {
    hide FreeAndReturn, Stamp;
    RunThree(c, s, Ask(t), Fill(t), LastEvent(t, accepted, malloc));
  }

  lemma LeavingPhase(c: Config, s2: State, t: nat, accepted: bool, malloc: Q.Malloc)
    requires Enabled(s2, PostOk(t))
    ensures var s' := if !accepted then DoReject(s2, t)
                      else if malloc.Allocated? then DoPostOk(s2, t) else DoPostFails(s2, t);
            && |s'.phases| == |s2.phases|
            && if accepted && malloc.Allocated? then s'.phases[t].Posted? && s'.phases[t].job == s2.phases[t].job
               else s'.phases[t].Idle?
  {
  }

  /** The phase of its thread says how a native left. */
  ghost predicate LeftAs(e: L.Entry, p: Phase) {
    match e
    case AwaitsJob => p.Waiting?
    case Submitted(j) => p.Posted? && p.job == j
    case _ => p.Idle?
  }

  /** LLFS natives are runs of the protocol: whatever the arguments, whether or not a job, a place in the waiting list
      and memory for the message are found, the native leaves the worker as [Ask], [Ask, Fill, Reject],
      [Ask, Fill, PostFails] or [Ask, Fill, PostOk] does, and its thread in the matching phase. */
  method NativeRefines(w: W.Worker, c: Config, s: State, t: nat, call: Call, fill: Params -> L.Filled, throws: bool,
                       malloc: Q.Malloc)
    returns (e: L.Entry, es: seq<Event>)
    requires Represents(w, s) && Enabled(s, Ask(t)) && s.phases[t].call == call
    requires forall slot :: fill(slot).params == c.fill(call, slot)
    modifies w`freeJobs, w`waitingThreadOffset, w`freeWaitingThreadOffset, w`chain, w.jobs, w.waitingThreads, w.slots
    modifies w.jobsQueue, w.jobsQueue.waitingMsg, w.jobsQueue.waitingMsg.repr
    ensures es in [[Ask(t)], [Ask(t), Fill(t), Reject(t)], [Ask(t), Fill(t), PostFails(t)],
                   [Ask(t), Fill(t), PostOk(t)]]
    ensures IsRun(c, s, es) && Represents(w, RunTo(c, s, es))
    ensures t < |RunTo(c, s, es).phases| && LeftAs(e, RunTo(c, s, es).phases[t])
    ensures w.jobsQueue != null
    ensures fresh(w.jobsQueue.waitingMsg.repr - old(w.jobsQueue.waitingMsg.repr))
  {
    hide Apply, RunTo, IsRun, DoAsk, DoReject, DoPostOk, DoPostFails, AskedAndFilled, Q.Apply, Q.Safe, L.PoolAfter,
      L.Served;
    ghost var q := w.jobsQueue.Abs();
    e := L.ExecJob(w, t, fill, throws, call.action, malloc);
    if s.pool.free == [] {
      WaitShows(c, s, t, q, e, w.Abs());
      AskRun(c, s, t);
      es := [Ask(t)];
    } else {
      var filled := fill(s.records[s.pool.free[0]].params);
      ServedShows(c, s, t, filled, throws, malloc, e, w.Abs(), w.Records(), q, w.jobsQueue.Abs());
      ServedRun(c, s, t, filled.accepted, malloc);
      LeavingPhase(c, AskedAndFilled(c, s, t), t, filled.accepted, malloc);
      es := [Ask(t), Fill(t), LastEvent(t, filled.accepted, malloc)];
    }
  }

  lemma AskRun(c: Config, s: State, t: nat)
    requires Enabled(s, Ask(t))
    ensures IsRun(c, s, [Ask(t)]) && RunTo(c, s, [Ask(t)]) == DoAsk(s, t) && |DoAsk(s, t).phases| == |s.phases|
  {
    RunOne(c, s, Ask(t));
  }

  // ---- One on-done callback ------------------------------------------------------------------

  lemma CallbackShows(c: Config, s: State, t: nat, q: Q.Queue, pool: Pool)
    requires Shows(s.pool, s.records, q, s) && Enabled(s, OnDone(t)) && pool == Release(s.pool, s.phases[t].job).0
    ensures Shows(pool, s.records, q, DoOnDone(s, t))
    ensures DoOnDone(s, t).phases == ResumeWaiter(s.phases[t := Idle], Release(s.pool, s.phases[t].job).1)
  {
    hide Release, ResumeWaiter, Q.Safe;
  }

  /** An on-done callback returns the result of its own action in the sequential execution, frees the job whether or
      not it throws, and resumes the thread the protocol does. */
  method CallbackRefines(w: W.Worker, c: Config, s: State, t: nat, resultOf: Params -> int, throws: bool)
    returns (x: L.Exit, ghost s': State)
    requires t < |s.phases| && s.phases[t].Done?
    requires Reachable(c, s) && Represents(w, s)
    modifies w`freeJobs, w`waitingThreadOffset, w`chain, w.jobs
    ensures s' == Apply(c, s, OnDone(t)) && Represents(w, s')
    ensures x.result == resultOf(I.OutputOf(c, s.posts, s.phases[t].ticket))
    ensures x.thrown <==> throws && x.result == L.LLFS_NOK
    ensures s'.phases == ResumeWaiter(s.phases[t := Idle], x.resumed)
  {
    hide I.Inv, FreeAndReturn, DoOnDone, Release, ResumeWaiter, Q.Safe, Reachable;
    T.ReachableInv(c, s);
    R.CallbackReads(c, s, t);
    OwnedJob(w, c, s, t);
    CallbackShows(c, s, t, w.jobsQueue.Abs(), Release(s.pool, s.phases[t].job).0);
    s' := DoOnDone(s, t);
    x := L.OnDone(w, s.phases[t].job, resultOf, throws);
  }

  // ---- Worker turns between the calls of a native ---------------------------------------------

  /** The worker task goes on: it fetches, executes, resumes the owner, falls asleep, or is woken. */
  method WorkTurn(w: W.Worker, c: Config, x: V.World) returns (ms: seq<V.Move>)
    requires Follows(w, x)
    modifies w.slots, w.jobsQueue, w.jobsQueue.waitingMsg
    ensures ms == R.WorkerMove(x) && V.IsPath(c, x, ms) && Follows(w, V.PathTo(c, x, ms))
    ensures w.jobsQueue != null && w.jobsQueue.waitingMsg.repr == old(w.jobsQueue.waitingMsg.repr)
  {
    hide Represents, Apply, V.PathTo, V.IsPath;
    ghost var g;
    var s := x.state;
    ms := [];
    if V.CanMove(x, V.Take(Fetch)) {
      var fetched;
      fetched, g := FetchRefines(w, c, s);
      ms := [V.Take(Fetch)];
    } else if V.CanMove(x, V.Take(Execute)) {
      var fs;
      fs, g := ExecuteRefines(w, c, s, s.task.job, s.fs);
      ms := [V.Take(Execute)];
    } else if V.CanMove(x, V.Take(Wake)) {
      var resumed;
      resumed, g := WakeRefines(w, c, s, s.task.job);
      ms := [V.Take(Wake)];
    } else if V.CanMove(x, V.Sleep) {
      var fetched := WaitRefines(w, c, s);
      ms := [V.Sleep];
    } else if V.CanMove(x, V.WakeOnNothing) {
      WaiterFetches(w, x);
      var fetched := WaitRefines(w, c, s);
      ms := [V.WakeOnNothing];
    }
    R.PathNone(c, x);
    if ms != [] { V.PathOne(c, x, ms[0]); }
  }

  /** Up to n turns of the worker task. */
  method WorkTurns(w: W.Worker, c: Config, x: V.World, n: nat) returns (ms: seq<V.Move>)
    requires Follows(w, x)
    modifies w.slots, w.jobsQueue, w.jobsQueue.waitingMsg
    ensures R.AreWork(c, x, n, ms) && V.IsPath(c, x, ms) && Follows(w, V.PathTo(c, x, ms))
    ensures w.jobsQueue != null && w.jobsQueue.waitingMsg.repr == old(w.jobsQueue.waitingMsg.repr)
    decreases n
  {
    FollowerHasQueue(w, x);
    hide Follows, V.PathTo, V.IsPath, R.WorkerMove, R.AreWork, V.Do, V.CanMove, V.IsWorkers;
    R.NoMoves(c, x);
    ms := [];
    if n > 0 {
      ms := WorkTurn(w, c, x);
      var more := WorkTurns(w, c, V.PathTo(c, x, ms), n - 1);
      R.NextMoves(c, x, n, ms, more);
      ms := ms + more;
    }
  }

  /** A post that fails, turns of the worker task, and the free_job that follows: the same as if the job had been
      freed at once. */
  method FailedPost(w: W.Worker, c: Config, x: V.World, t: nat, malloc: Q.Malloc, n: nat) returns (ms: seq<V.Move>)
    requires Reachable(c, x.state) && Follows(w, x) && V.CanMove(x, V.Take(PostFails(t))) && !malloc.Allocated?
    modifies w`freeJobs, w`waitingThreadOffset, w`chain, w.jobs, w.slots
    modifies w.jobsQueue, w.jobsQueue.waitingMsg, w.jobsQueue.waitingMsg.repr
    ensures ms == [V.Take(PostFails(t))] + R.WorkerMoves(c, V.Do(c, x, V.Take(PostFails(t))), n)
    ensures V.IsPath(c, x, ms) && Follows(w, V.PathTo(c, x, ms))
    ensures w.jobsQueue != null && fresh(w.jobsQueue.waitingMsg.repr - old(w.jobsQueue.waitingMsg.repr))
  {
    hide I.Inv, Represents, Reachable, V.PathTo, V.IsPath, V.Do, Apply, Stamp, DoReject, R.WorkerMoves;
    ghost var g;
    var result, resumed;
    var s := x.state;
    T.ReachableInv(c, s);
    V.FailureInTwo(c, x, t);
    result, g := PostRefines(w, c, s, t, s.phases[t].job, s.phases[t].call.action, malloc);
    var y := V.World(Stamp(s, t), Q.Signalled(x.consumer), x.lost);
    S.StampKeepsInv(c, s, t);
    var more := WorkTurns(w, c, y, n);
    R.WorkerMovesArePath(c, y, n);
    V.FreeCommutesAll(c, y, more, t);
    R.SameMoves(c, y, n, t);
    V.PathKeepsInv(c, y, more);
    var s' := V.PathTo(c, y, more).state;
    resumed, g := RejectRefines(w, c, s', t, s'.phases[t].job);
    RejectIs(c, s', t);
    ms := [V.Take(PostFails(t))] + more;
    V.PathOne(c, x, V.Take(PostFails(t)));
    V.PathAppend(c, x, [V.Take(PostFails(t))], more);
  }

  lemma RejectIs(c: Config, s: State, t: nat)
    requires Enabled(s, Reject(t))
    ensures Apply(c, s, Reject(t)) == DoReject(s, t)
  {
  }

  /** One move of a native or callback. */
  method OneMove(w: W.Worker, c: Config, x: V.World, m: V.Move) returns (ms: seq<V.Move>)
    requires Reachable(c, x.state) && Follows(w, x) && V.CanMove(x, m)
    modifies w`freeJobs, w`freeWaitingThreadOffset, w`waitingThreadOffset, w`chain, w.jobs, w.slots, w.waitingThreads
    modifies w.jobsQueue, w.jobsQueue.waitingMsg, w.jobsQueue.waitingMsg.repr
    ensures ms == [m] && V.IsPath(c, x, ms) && V.PathTo(c, x, ms) == V.Do(c, x, m) && Follows(w, V.Do(c, x, m))
    ensures w.jobsQueue != null && fresh(w.jobsQueue.waitingMsg.repr - old(w.jobsQueue.waitingMsg.repr))
  {
    hide I.Inv, Follows, Reachable, V.PathTo, V.IsPath, V.Do, V.CanMove;
    T.ReachableInv(c, x.state);
    V.PathOne(c, x, m);
    MoveRefines(w, c, x, m);
    ms := [m];
  }

  /** A call into the worker, and turns of the worker task after it. */
  method MoveThenWork(w: W.Worker, c: Config, x: V.World, m: V.Move, n: nat) returns (ms: seq<V.Move>)
    requires Reachable(c, x.state) && Follows(w, x) && V.CanMove(x, m)
    modifies w`freeJobs, w`freeWaitingThreadOffset, w`waitingThreadOffset, w`chain, w.jobs, w.slots, w.waitingThreads
    modifies w.jobsQueue, w.jobsQueue.waitingMsg, w.jobsQueue.waitingMsg.repr
    ensures ms == [m] + R.WorkerMoves(c, V.Do(c, x, m), n)
    ensures V.IsPath(c, x, ms) && Follows(w, V.PathTo(c, x, ms))
    ensures w.jobsQueue != null && fresh(w.jobsQueue.waitingMsg.repr - old(w.jobsQueue.waitingMsg.repr))
  {
    FollowerHasQueue(w, x);
    hide Follows, Reachable, V.PathTo, V.IsPath, V.Do, V.CanMove, R.WorkerMoves;
    ms := OneMove(w, c, x, m);
    var more := WorkTurns(w, c, V.Do(c, x, m), n);
    V.PathAppend(c, x, ms, more);
    ms := ms + more;
  }

  /** A native that asks for a job, with the worker task running between its calls as the plan says. */
  method AskingNative(w: W.Worker, c: Config, x: V.World, t: nat, plan: R.Plan) returns (ms: seq<V.Move>)
    requires Reachable(c, x.state) && Follows(w, x) && V.CanMove(x, V.Take(Ask(t)))
    modifies w`freeJobs, w`freeWaitingThreadOffset, w`waitingThreadOffset, w`chain, w.jobs, w.slots, w.waitingThreads
    modifies w.jobsQueue, w.jobsQueue.waitingMsg, w.jobsQueue.waitingMsg.repr
    ensures ms == R.AskMoves(c, x, t, plan) && V.IsPath(c, x, ms) && Follows(w, V.PathTo(c, x, ms))
    ensures w.jobsQueue != null && fresh(w.jobsQueue.waitingMsg.repr - old(w.jobsQueue.waitingMsg.repr))
  {
    FollowerHasQueue(w, x);
    hide Follows, Reachable, V.PathTo, V.IsPath, V.CanMove, V.Do, R.WorkerMoves, R.HoldingMoves;
    if w.freeJobs == NULL {
      FreeShown(w, x);
      ms := OneMove(w, c, x, V.Take(Ask(t)));
    } else {
      FreeShown(w, x);
      ms := MoveThenWork(w, c, x, V.Take(Ask(t)), plan.afterAsk);
      ReachableAlong(c, x, ms);
      var y := V.PathTo(c, x, ms);
      var more := HoldingNative(w, c, y, t, plan);
      V.PathAppend(c, x, ms, more);
      ms := ms + more;
    }
  }

  /** The worker has a free job exactly when the protocol does. */
  lemma FreeShown(w: W.Worker, x: V.World)
    requires Follows(w, x)
    ensures w.freeJobs == NULL <==> x.state.pool.free == []
  {
  }

  /** A native with its job, from the writing of the parameters on. */
  method HoldingNative(w: W.Worker, c: Config, x: V.World, t: nat, plan: R.Plan) returns (ms: seq<V.Move>)
    requires Reachable(c, x.state) && Follows(w, x)
    modifies w`freeJobs, w`freeWaitingThreadOffset, w`waitingThreadOffset, w`chain, w.jobs, w.slots, w.waitingThreads
    modifies w.jobsQueue, w.jobsQueue.waitingMsg, w.jobsQueue.waitingMsg.repr
    ensures ms == R.HoldingMoves(c, x, t, plan) && V.IsPath(c, x, ms) && Follows(w, V.PathTo(c, x, ms))
    ensures w.jobsQueue != null && fresh(w.jobsQueue.waitingMsg.repr - old(w.jobsQueue.waitingMsg.repr))
  {
    FollowerHasQueue(w, x);
    hide Follows, Reachable, V.PathTo, V.IsPath, V.CanMove, V.Do, R.WorkerMoves, R.EndMoves;
    R.PathNone(c, x);
    ms := [];
    if V.CanMove(x, V.Take(Fill(t))) {
      ms := MoveThenWork(w, c, x, V.Take(Fill(t)), plan.afterFill);
      ReachableAlong(c, x, ms);
      var y := V.PathTo(c, x, ms);
      var more := EndNative(w, c, y, t, plan);
      V.PathAppend(c, x, ms, more);
      ms := ms + more;
    }
  }

  /** The end of a native whose parameters are written. */
  method EndNative(w: W.Worker, c: Config, x: V.World, t: nat, plan: R.Plan) returns (ms: seq<V.Move>)
    requires Reachable(c, x.state) && Follows(w, x)
    modifies w`freeJobs, w`freeWaitingThreadOffset, w`waitingThreadOffset, w`chain, w.jobs, w.slots, w.waitingThreads
    modifies w.jobsQueue, w.jobsQueue.waitingMsg, w.jobsQueue.waitingMsg.repr
    ensures ms == R.EndMoves(c, x, t, plan) && V.IsPath(c, x, ms) && Follows(w, V.PathTo(c, x, ms))
    ensures w.jobsQueue != null && fresh(w.jobsQueue.waitingMsg.repr - old(w.jobsQueue.waitingMsg.repr))
  {
    FollowerHasQueue(w, x);
    hide Follows, Reachable, V.PathTo, V.IsPath, V.CanMove, V.Do, R.WorkerMoves;
    R.PathNone(c, x);
    ms := [];
    if plan.accepted && !plan.malloc.Allocated? {
      if V.CanMove(x, V.Take(PostFails(t))) {
        ms := FailedPost(w, c, x, t, plan.malloc, plan.afterFailure);
      }
    } else {
      var e := if plan.accepted then PostOk(t) else Reject(t);
      if V.CanMove(x, V.Take(e)) { ms := OneMove(w, c, x, V.Take(e)); }
    }
  }

  lemma ReachableAlong(c: Config, x: V.World, ms: seq<V.Move>)
    requires Reachable(c, x.state) && V.IsPath(c, x, ms)
    ensures Reachable(c, V.PathTo(c, x, ms).state) && R.After(c, x, ms) == V.PathTo(c, x, ms)
  {
    hide Init, IsRun, RunTo;
    var es :| IsRun(c, Init(c), es) && RunTo(c, Init(c), es) == x.state;
    V.PathIsRun(c, x, ms);
    RunAppend(c, Init(c), es, V.Events(ms));
  }

  lemma {:induction false} RunAppend(c: Config, s: State, es: seq<Event>, more: seq<Event>)
    requires IsRun(c, s, es) && IsRun(c, RunTo(c, s, es), more)
    ensures IsRun(c, s, es + more) && RunTo(c, s, es + more) == RunTo(c, RunTo(c, s, es), more)
    decreases |es|
  {
    hide Apply, Enabled;
    if es == [] {
      assert es + more == more;
    } else {
      RunAppend(c, Apply(c, s, es[0]), es[1..], more);
      assert (es + more)[1..] == es[1..] + more;
    }
  }

  // ---- Whole runs ----------------------------------------------------------------------------

  /** One turn, as far as it is possible now, and the result of its on-done callback if it has one. */
  method TakeTurn(w: W.Worker, c: Config, x: V.World, turn: R.Turn, resultOf: Params -> int)
    returns (ms: seq<V.Move>, results: seq<int>)
    requires Reachable(c, x.state) && Follows(w, x)
    modifies w`freeJobs, w`freeWaitingThreadOffset, w`waitingThreadOffset, w`chain, w.jobs, w.slots, w.waitingThreads
    modifies w.jobsQueue, w.jobsQueue.waitingMsg, w.jobsQueue.waitingMsg.repr
    ensures ms == R.TurnMoves(c, x, turn) && V.IsPath(c, x, ms) && Follows(w, V.PathTo(c, x, ms))
    ensures results == R.TurnResult(c, x, turn, resultOf)
    ensures w.jobsQueue != null && fresh(w.jobsQueue.waitingMsg.repr - old(w.jobsQueue.waitingMsg.repr))
  {
    FollowerHasQueue(w, x);
    hide Reachable, Follows, V.PathTo, V.IsPath, V.CanMove, V.Do, R.AskMoves, R.WorkerMove;
    R.PathNone(c, x);
    ms, results := [], [];
    match turn
    case Native(t, call, plan) =>
      if V.CanMove(x, V.Take(Begin(t, call))) {
        ms := NewNative(w, c, x, t, call, plan);
      }
    case RetryNative(t, plan) =>
      if V.CanMove(x, V.Take(Ask(t))) {
        ms := AskingNative(w, c, x, t, plan);
      } else {
        R.CannotAsk(c, x, t, plan);
      }
    case Leave(t) =>
      if V.CanMove(x, V.Take(Suspend(t))) {
        ms := OneMove(w, c, x, V.Take(Suspend(t)));
      }
    case Callback(t, throws) =>
      if V.CanMove(x, V.Take(OnDone(t))) {
        var result;
        ms, result := CallbackTurn(w, c, x, t, resultOf, throws);
        results := [result];
      }
    case Work => ms := WorkTurn(w, c, x);
  }

  lemma FollowerAwake(w: W.Worker, x: V.World)
    requires Follows(w, x)
    ensures V.Awake(x)
  {
  }

  /** A Java thread calls a native. */
  method NewNative(w: W.Worker, c: Config, x: V.World, t: nat, call: Call, plan: R.Plan) returns (ms: seq<V.Move>)
    requires Reachable(c, x.state) && Follows(w, x) && V.CanMove(x, V.Take(Begin(t, call)))
    modifies w`freeJobs, w`freeWaitingThreadOffset, w`waitingThreadOffset, w`chain, w.jobs, w.slots, w.waitingThreads
    modifies w.jobsQueue, w.jobsQueue.waitingMsg, w.jobsQueue.waitingMsg.repr
    ensures ms == [V.Take(Begin(t, call))] + R.AskMoves(c, V.Do(c, x, V.Take(Begin(t, call))), t, plan)
    ensures V.IsPath(c, x, ms) && Follows(w, V.PathTo(c, x, ms))
    ensures w.jobsQueue != null && fresh(w.jobsQueue.waitingMsg.repr - old(w.jobsQueue.waitingMsg.repr))
  {
    FollowerHasQueue(w, x);
    hide Reachable, Follows, V.PathTo, V.IsPath, V.CanMove, V.Do, R.AskMoves;
    R.BeginStep(c, x, t, call);
    ms := OneMove(w, c, x, V.Take(Begin(t, call)));
    ReachableAlong(c, x, ms);
    var more := AskingNative(w, c, V.Do(c, x, V.Take(Begin(t, call))), t, plan);
    V.PathAppend(c, x, ms, more);
    ms := ms + more;
  }

  method CallbackTurn(w: W.Worker, c: Config, x: V.World, t: nat, resultOf: Params -> int, throws: bool)
    returns (ms: seq<V.Move>, result: int)
    requires Reachable(c, x.state) && Follows(w, x) && V.CanMove(x, V.Take(OnDone(t)))
    modifies w`freeJobs, w`waitingThreadOffset, w`chain, w.jobs
    ensures ms == [V.Take(OnDone(t))] && V.IsPath(c, x, ms) && Follows(w, V.PathTo(c, x, ms))
    ensures t < |x.state.phases| && x.state.phases[t].Done?
    ensures result == resultOf(I.OutputOf(c, x.state.posts, x.state.phases[t].ticket))
  {
    hide Reachable, Represents, Apply, V.PathTo, V.IsPath;
    ghost var g;
    var exit;
    exit, g := CallbackRefines(w, c, x.state, t, resultOf, throws);
    ms, result := [V.Take(OnDone(t))], exit.result;
    V.PathOne(c, x, V.Take(OnDone(t)));
  }

  /** Any number of Java threads calling natives, retrying, and running callbacks, in any order, with the worker task
      running between any two calls into the worker, is a path of the protocol with the wait, and the worker object
      stores its last world.  Every turn has its outcome for calls, posts, answers and failures, and the callbacks
      return the results of the sequential execution.  Each allocated job has been freed exactly once, or is out; when
      no call is in progress the free list of the object holds all jobs, and nobody waits; and the worker is never lost
      unless a post failed while it slept on an empty queue. */
  method Serve(w: W.Worker, c: Config, turns: seq<R.Turn>, resultOf: Params -> int)
    returns (x: V.World, ms: seq<V.Move>, results: seq<int>)
    requires Follows(w, V.Start(c))
    modifies w`freeJobs, w`freeWaitingThreadOffset, w`waitingThreadOffset, w`chain, w.jobs, w.slots, w.waitingThreads
    modifies w.jobsQueue, w.jobsQueue.waitingMsg, w.jobsQueue.waitingMsg.repr
    ensures ms == R.ServeMoves(c, V.Start(c), turns) && R.Outcomes(c, V.Start(c), turns)
    ensures V.IsPath(c, V.Start(c), ms) && x == V.PathTo(c, V.Start(c), ms) && Follows(w, x)
    ensures IsRun(c, Init(c), V.Events(ms)) && RunTo(c, Init(c), V.Events(ms)) == x.state
    ensures results == R.ResultsOf(resultOf, x.state.answers)
    ensures V.NoPostFailsAsleep(c, V.Start(c), ms) ==> !x.lost
    ensures forall j :: 0 <= j < c.jobs ==>
              J.GrantCount(c, Init(c), V.Events(ms), j) ==
              J.FreeCount(c, Init(c), V.Events(ms), j) + if j in w.chain then 0 else 1
    ensures (forall t :: 0 <= t < |x.state.phases| ==> x.state.phases[t].Idle?) ==>
              multiset(w.chain) == Below(c.jobs) && |w.chain| == c.jobs && w.Waiting() == []
  {
    hide Reachable, Follows, Init, V.PathTo, V.IsPath, V.Start, R.ServeMoves, R.Outcomes, R.Gained;
    StartOutcomes(c, turns);
    ms, results := ServeFrom(w, c, V.Start(c), turns, resultOf);
    x := V.PathTo(c, V.Start(c), ms);
    AllResults(c, x, resultOf, results);
    V.SignalMeansMessageIff(c, ms);
    ServedAll(w, c, ms);
  }

  lemma AllResults(c: Config, x: V.World, resultOf: Params -> int, results: seq<int>)
    requires R.Gained(resultOf, V.Start(c).state, x.state, results)
    ensures results == R.ResultsOf(resultOf, x.state.answers)
  {
    assert R.ResultsOf(resultOf, V.Start(c).state.answers) == [];
  }

  /** Turn after turn, from any world. */
  method ServeFrom(w: W.Worker, c: Config, x: V.World, turns: seq<R.Turn>, resultOf: Params -> int)
    returns (ms: seq<V.Move>, results: seq<int>)
    requires Reachable(c, x.state) && Follows(w, x)
    modifies w`freeJobs, w`freeWaitingThreadOffset, w`waitingThreadOffset, w`chain, w.jobs, w.slots, w.waitingThreads
    modifies w.jobsQueue, w.jobsQueue.waitingMsg, w.jobsQueue.waitingMsg.repr
    ensures ms == R.ServeMoves(c, x, turns) && V.IsPath(c, x, ms) && Follows(w, V.PathTo(c, x, ms))
    ensures R.Gained(resultOf, x.state, V.PathTo(c, x, ms).state, results)
    decreases |turns|
  {
    FollowerHasQueue(w, x);
    FollowerAwake(w, x);
    hide Reachable, Follows, V.PathTo, V.IsPath, V.CanMove, V.Do, V.Awake, R.TurnMoves, R.TurnResult, R.Gained;
    R.PathNone(c, x);
    ms, results := [], [];
    R.GainsNothing(resultOf, x.state);
    if turns != [] {
      T.ReachableInv(c, x.state);
      R.TurnGains(c, x, turns[0], resultOf);
      ms, results := TakeTurn(w, c, x, turns[0], resultOf);
      ReachableAlong(c, x, ms);
      var more, moreResults := ServeFrom(w, c, V.PathTo(c, x, ms), turns[1..], resultOf);
      V.PathAppend(c, x, ms, more);
      R.GainsAdd(resultOf, x.state, V.PathTo(c, x, ms).state, V.PathTo(c, x, ms + more).state, results, moreResults);
      ms, results := ms + more, results + moreResults;
    }
  }

  lemma StartOutcomes(c: Config, turns: seq<R.Turn>)
    ensures R.Outcomes(c, V.Start(c), turns) && Reachable(c, V.Start(c).state)
  {
    R.PathNone(c, V.Start(c));
    V.PathIsReachable(c, []);
    hide Init, I.Inv, Reachable;
    T.InitHasInv(c);
    V.StartIsAwake(c);
    R.ServeOutcomes(c, V.Start(c), turns);
  }

  /** What the protocol's theorems say about the object that stores its last state. */
  lemma ServedAll(w: W.Worker, c: Config, ms: seq<V.Move>)
    requires V.IsPath(c, V.Start(c), ms) && Follows(w, V.PathTo(c, V.Start(c), ms))
    ensures w.ValidRing()
    ensures IsRun(c, Init(c), V.Events(ms))
    ensures RunTo(c, Init(c), V.Events(ms)) == V.PathTo(c, V.Start(c), ms).state
    ensures forall j :: 0 <= j < c.jobs ==>
              J.GrantCount(c, Init(c), V.Events(ms), j) ==
              J.FreeCount(c, Init(c), V.Events(ms), j) + if j in w.chain then 0 else 1
    ensures var s := V.PathTo(c, V.Start(c), ms).state;
            (forall t :: 0 <= t < |s.phases| ==> s.phases[t].Idle?) ==>
              multiset(w.chain) == Below(c.jobs) && |w.chain| == c.jobs && w.Waiting() == []
  {
    var s, es := V.PathTo(c, V.Start(c), ms).state, V.Events(ms);
    V.PathIsRun(c, V.Start(c), ms);
    V.PathIsReachable(c, ms);
    assert w.Abs() == s.pool;
    hide *;
    forall j | 0 <= j < c.jobs
      ensures J.GrantCount(c, Init(c), es, j) == J.FreeCount(c, Init(c), es, j) + if j in w.chain then 0 else 1
    {
      J.FreedExactlyOnce(c, es, j);
    }
    if forall t :: 0 <= t < |s.phases| ==> s.phases[t].Idle? {
      D.NoCallAllFree(c, s);
    }
  }

  /** The same from the declaration of the worker on. */
  method InitializeAndServe(w: W.Worker, c: Config, turns: seq<R.Turn>, resultOf: Params -> int)
    returns (x: V.World, ms: seq<V.Move>, results: seq<int>)
    requires w.Declared() && w.jobs.Length == w.slots.Length && w.Records() == Init(c).records
    requires w.jobCount == c.jobs > 0 && w.waitingThreadsLength == c.capacity + 1 <= WR.OFFSETS
    modifies w, w.jobs, w.slots, w.waitingThreads
    ensures ms == R.ServeMoves(c, V.Start(c), turns) && R.Outcomes(c, V.Start(c), turns)
    ensures V.IsPath(c, V.Start(c), ms) && x == V.PathTo(c, V.Start(c), ms) && Follows(w, x)
    ensures results == R.ResultsOf(resultOf, x.state.answers)
    ensures (forall t :: 0 <= t < |x.state.phases| ==> x.state.phases[t].Idle?) ==> |w.chain| == c.jobs
  {
    hide Follows, Represents;
    var result := InitializeRefines(w, c);
    x, ms, results := Serve(w, c, turns, resultOf);
  }
}
