/** What clients of the worker do, turn by turn, and what becomes of it: the moves of natives, callbacks and worker task
    as functions of the world, and their outcome for calls, posts, answers and failures. */
module ClientRuns {
  import opened WorkerSpec
  import opened Protocol
  import opened WorkerRuns
  import I = ProtocolInvariants
  import S = ProtocolSteps
  import Q = OsalQueueSpec

  /** What a native makes of its arguments and of its post, and how many turns the worker task takes after
      allocate_job, after the parameters are written, and after a post that fails. */
  datatype Plan = Plan(accepted: bool, malloc: Q.Malloc, afterAsk: nat, afterFill: nat, afterFailure: nat)

  /** What happens next: a Java thread calls a native, or its retry callback runs; the native returns; an on-done
      callback runs; or the worker task does what it does next. */
  datatype Turn =
    | Native(thread: nat, call: Call, plan: Plan)
    | RetryNative(thread: nat, plan: Plan)
    | Leave(thread: nat)
    | Callback(thread: nat, throws: bool)
    | Work

  // ---- The moves of a turn -------------------------------------------------------------------

  /** What the worker task does next, if it can do anything. */
  function WorkerMove(x: World): (ms: seq<Move>)
    ensures ms == [] || (|ms| == 1 && CanMove(x, ms[0]) && IsWorkers(ms[0]))
  {
    if CanMove(x, Take(Fetch)) then [Take(Fetch)]
    else if CanMove(x, Take(Execute)) then [Take(Execute)]
    else if CanMove(x, Take(Wake)) then [Take(Wake)]
    else if CanMove(x, Sleep) then [Sleep]
    else if CanMove(x, WakeOnNothing) then [WakeOnNothing]
    else []
  }

  /** The next n of them, as far as there are any. */
  function WorkerMoves(c: Config, x: World, n: nat): seq<Move>
    decreases n
  {
    if n == 0 || WorkerMove(x) == [] then []
    else WorkerMove(x) + WorkerMoves(c, Do(c, x, WorkerMove(x)[0]), n - 1)
  }

  function After(c: Config, x: World, ms: seq<Move>): World {
    if IsPath(c, x, ms) then PathTo(c, x, ms) else x
  }

  /** The end of a native whose parameters are written. */
  function EndMoves(c: Config, x: World, t: nat, plan: Plan): seq<Move> {
    var e := if !plan.accepted then Reject(t) else if plan.malloc.Allocated? then PostOk(t) else PostFails(t);
    if !CanMove(x, Take(e)) then []
    else if e.PostFails? then [Take(e)] + WorkerMoves(c, Do(c, x, Take(e)), plan.afterFailure)
    else [Take(e)]
  }

  /** A native with its job, from the writing of the parameters on. */
  function HoldingMoves(c: Config, x: World, t: nat, plan: Plan): seq<Move> {
    if !CanMove(x, Take(Fill(t))) then []
    else
      var ms := [Take(Fill(t))] + WorkerMoves(c, Do(c, x, Take(Fill(t))), plan.afterFill);
      ms + EndMoves(c, After(c, x, ms), t, plan)
  }

  /** A native, from allocate_job on. */
  function AskMoves(c: Config, x: World, t: nat, plan: Plan): seq<Move> {
    if !CanMove(x, Take(Ask(t))) then []
    else if x.state.pool.free == [] then [Take(Ask(t))]
    else
      var ms := [Take(Ask(t))] + WorkerMoves(c, Do(c, x, Take(Ask(t))), plan.afterAsk);
      ms + HoldingMoves(c, After(c, x, ms), t, plan)
  }

  function TurnMoves(c: Config, x: World, turn: Turn): seq<Move> {
    match turn
    case Native(t, call, plan) =>
      if !CanMove(x, Take(Begin(t, call))) then []
      else [Take(Begin(t, call))] + AskMoves(c, Do(c, x, Take(Begin(t, call))), t, plan)
    case RetryNative(t, plan) => AskMoves(c, x, t, plan)
    case Leave(t) => if CanMove(x, Take(Suspend(t))) then [Take(Suspend(t))] else []
    case Callback(t, _) => if CanMove(x, Take(OnDone(t))) then [Take(OnDone(t))] else []
    case Work => WorkerMove(x)
  }

  function ServeMoves(c: Config, x: World, turns: seq<Turn>): seq<Move>
    decreases |turns|
  {
    if turns == [] then []
    else
      var ms := TurnMoves(c, x, turns[0]);
      ms + ServeMoves(c, After(c, x, ms), turns[1..])
  }

  // ---- The worker task -----------------------------------------------------------------------

  /** The worker task moves whenever it can, and there is only one move it can make. */
  lemma WorkerMoveIs(x: World, m: Move)
    requires Awake(x)
    ensures m in WorkerMove(x) <==> CanMove(x, m) && IsWorkers(m)
  {
  }

  lemma {:induction false} WorkerMovesArePath(c: Config, x: World, n: nat)
    ensures var ms := WorkerMoves(c, x, n);
            && IsPath(c, x, ms) && AllWorkers(ms) && |ms| <= n
            && (|ms| < n ==> WorkerMove(PathTo(c, x, ms)) == [])
    decreases n
  {
    hide CanMove, Do, IsWorkers, WorkerMove;
    if n == 0 || WorkerMove(x) == [] {
    } else {
      var m := WorkerMove(x)[0];
      assert m in WorkerMove(x) && WorkerMove(x) == [m];
      WorkerMovesArePath(c, Do(c, x, m), n - 1);
      assert WorkerMoves(c, x, n)[1..] == WorkerMoves(c, Do(c, x, m), n - 1);
    }
  }

  ghost predicate AreWork(c: Config, x: World, n: nat, ms: seq<Move>) { ms == WorkerMoves(c, x, n) }

  /** One move and then the others. */
  lemma NextMoves(c: Config, x: World, n: nat, ms: seq<Move>, more: seq<Move>)
    requires n > 0 && ms == WorkerMove(x) && IsPath(c, x, ms) && AreWork(c, PathTo(c, x, ms), n - 1, more)
    requires IsPath(c, PathTo(c, x, ms), more)
    ensures AreWork(c, x, n, ms + more)
    ensures IsPath(c, x, ms + more) && PathTo(c, x, ms + more) == PathTo(c, PathTo(c, x, ms), more)
  {
    hide CanMove, Do, WorkerMove, IsWorkers;
    PathAppend(c, x, ms, more);
    if ms == [] {
      assert PathTo(c, x, []) == x;
    } else {
      assert ms == [ms[0]];
      PathOne(c, x, ms[0]);
    }
  }

  lemma NoMoves(c: Config, x: World)
    ensures AreWork(c, x, 0, []) && IsPath(c, x, []) && PathTo(c, x, []) == x
  {
  }

  /** A freed job makes no difference to what the worker task does next. */
  lemma SameNext(x: World, t: nat)
    requires Enabled(x.state, PostOk(t))
    ensures WorkerMove(Freed(x, t)) == WorkerMove(x)
  {
    hide ResumeWaiter, Release;
  }

  lemma {:induction false} SameMoves(c: Config, x: World, n: nat, t: nat)
    requires I.Inv(c, x.state) && Enabled(x.state, PostOk(t))
    ensures WorkerMoves(c, Freed(x, t), n) == WorkerMoves(c, x, n)
    decreases n
  {
    hide I.Inv, CanMove, Do, DoReject, WorkerMove, IsWorkers, Enabled, Answers;
    SameNext(x, t);
    if n == 0 || WorkerMove(x) == [] {
    } else {
      var m := WorkerMove(x)[0];
      assert m in WorkerMove(x) && WorkerMove(x) == [m];
      WakeAnswers(c, x, m);
      FreeCommutes(c, x, m, t);
      MoveKeepsInv(c, x, m);
      SameMoves(c, Do(c, x, m), n - 1, t);
    }
  }

  /** Neither calls, posts, answers nor failures change, nor what a thread is about. */
  ghost predicate Undisturbed(s: State, s': State, t: nat) {
    && s'.posts == s.posts && s'.answers == s.answers && s'.calls == s.calls && s'.failures == s.failures
    && s'.pool == s.pool && |s'.phases| == |s.phases|
    && (t < |s.phases| ==> s'.phases[t] == s.phases[t])
  }

  lemma WorkerMovesUndisturbing(c: Config, x: World, n: nat, t: nat)
    requires I.Inv(c, x.state) && t < |x.state.phases| && !Unanswered(x.state.phases[t])
    ensures var ms := WorkerMoves(c, x, n);
            && IsPath(c, x, ms) && After(c, x, ms) == PathTo(c, x, ms)
            && Undisturbed(x.state, PathTo(c, x, ms).state, t)
            && I.Inv(c, PathTo(c, x, ms).state)
  {
    hide I.Inv, IsPath, PathTo, WorkerMoves, AllWorkers;
    WorkerMovesArePath(c, x, n);
    WorkersKeepThread(c, x, WorkerMoves(c, x, n), t);
    WorkersKeepHistory(c, x, WorkerMoves(c, x, n));
    PathKeepsInv(c, x, WorkerMoves(c, x, n));
  }

  // ---- The outcome of a native ---------------------------------------------------------------

  /** The call is posted, with its action, once. */
  ghost predicate IsPosted(s: State, s': State, t: nat, call: Call) {
    && t < |s'.phases| && s'.phases[t].Posted? && s'.phases[t].call == call
    && |s'.posts| == |s.posts| + 1 && s'.posts[..|s.posts|] == s.posts
    && s'.posts[|s.posts|].thread == t && s'.posts[|s.posts|].call == call
    && s'.posts[|s.posts|].action == call.action
    && s'.answers == s.answers && s'.calls == s.calls && s'.failures == s.failures
  }

  /** The call has failed, and nothing was posted. */
  ghost predicate HasFailed(s: State, s': State, t: nat) {
    && t < |s'.phases| && s'.phases[t].Idle?
    && s'.posts == s.posts && s'.answers == s.answers && s'.calls == s.calls && s'.failures == s.failures + 1
  }

  /** The call waits for a job. */
  ghost predicate IsWaiting(s: State, s': State, t: nat, call: Call) {
    && t < |s'.phases| && s'.phases[t] == Waiting(call)
    && s'.posts == s.posts && s'.answers == s.answers && s'.calls == s.calls && s'.failures == s.failures
  }

  lemma EndStep(c: Config, x: World, t: nat, e: Event)
    requires CanMove(x, Take(PostOk(t))) && (e == Reject(t) || e == PostOk(t) || e == PostFails(t))
    ensures CanMove(x, Take(e)) && !Do(c, x, Take(e)).lost
    ensures var s, s' := x.state, Do(c, x, Take(e)).state;
            && |s'.phases| == |s.phases|
            && if e.PostOk? then IsPosted(s, s', t, s.phases[t].call) else HasFailed(s, s', t)
  {
  }

  lemma FailedUndisturbed(s: State, s': State, s'': State, t: nat)
    requires HasFailed(s, s', t) && Undisturbed(s', s'', t)
    ensures HasFailed(s, s'', t)
  {
  }

  lemma EndOutcome(c: Config, x: World, t: nat, plan: Plan)
    requires I.Inv(c, x.state) && CanMove(x, Take(PostOk(t)))
    ensures var ms := EndMoves(c, x, t, plan);
            && IsPath(c, x, ms) && After(c, x, ms) == PathTo(c, x, ms)
            && var s, s' := x.state, PathTo(c, x, ms).state;
               if plan.accepted && plan.malloc.Allocated? then IsPosted(s, s', t, s.phases[t].call)
               else HasFailed(s, s', t)
    ensures After(c, x, EndMoves(c, x, t, plan)).lost ==> plan.accepted && !plan.malloc.Allocated?
    ensures Take(PostOk(t)) in EndMoves(c, x, t, plan) <==> plan.accepted && plan.malloc.Allocated?
    ensures Take(PostFails(t)) in EndMoves(c, x, t, plan) <==> plan.accepted && !plan.malloc.Allocated?
    ensures Take(Reject(t)) in EndMoves(c, x, t, plan) <==> !plan.accepted
  {
    hide I.Inv, CanMove, Do, IsPosted, HasFailed, Undisturbed, WorkerMoves;
    var e := if !plan.accepted then Reject(t) else if plan.malloc.Allocated? then PostOk(t) else PostFails(t);
    EndStep(c, x, t, e);
    PathOne(c, x, Take(e));
    if e.PostFails? {
      var y, more := Do(c, x, Take(e)), WorkerMoves(c, Do(c, x, Take(e)), plan.afterFailure);
      MoveKeepsInv(c, x, Take(e));
      FailedIsIdle(x.state, y.state, t);
      WorkerMovesUndisturbing(c, y, plan.afterFailure, t);
      WorkerMovesArePath(c, y, plan.afterFailure);
      PathAppend(c, x, [Take(e)], more);
      FailedUndisturbed(x.state, y.state, PathTo(c, y, more).state, t);
    }
  }

  lemma FailedIsIdle(s: State, s': State, t: nat)
    requires HasFailed(s, s', t)
    ensures t < |s'.phases| && !Unanswered(s'.phases[t])
  {
  }

  /** What thread t is about, and the history, are the same. */
  ghost predicate SameFor(s: State, s': State, t: nat, call: Call) {
    && s'.posts == s.posts && s'.answers == s.answers && s'.calls == s.calls && s'.failures == s.failures
    && t < |s'.phases| && (s'.phases[t].Holding? || s'.phases[t].Filled?) && s'.phases[t].call == call
  }

  /** How a native with a job leaves the world: posted if it accepted its arguments and the message found memory, and
      failed otherwise.  If the worker is lost meanwhile, it is left with its job, unless its post had failed. */
  ghost predicate NativeLeft(s: State, x': World, t: nat, call: Call, plan: Plan) {
    var posts := plan.accepted && plan.malloc.Allocated?;
    if x'.lost then SameFor(s, x'.state, t, call) || (plan.accepted && !posts && HasFailed(s, x'.state, t))
    else if posts then IsPosted(s, x'.state, t, call)
    else HasFailed(s, x'.state, t)
  }

  lemma LeftSince(s: State, s': State, x'': World, t: nat, call: Call, plan: Plan)
    requires SameFor(s, s', t, call) && NativeLeft(s', x'', t, call, plan)
    ensures NativeLeft(s, x'', t, call, plan)
  {
  }

  /** A move of the native and the turns of the worker task after it. */
  lemma MoveAndWork(c: Config, x: World, m: Move, n: nat, t: nat)
    requires I.Inv(c, x.state) && CanMove(x, m)
    requires t < |Do(c, x, m).state.phases| && !Unanswered(Do(c, x, m).state.phases[t])
    ensures var ms := [m] + WorkerMoves(c, Do(c, x, m), n);
            && IsPath(c, x, ms) && After(c, x, ms) == PathTo(c, x, ms)
            && Undisturbed(Do(c, x, m).state, PathTo(c, x, ms).state, t)
            && I.Inv(c, PathTo(c, x, ms).state)
  {
    hide I.Inv, CanMove, Do, Undisturbed, WorkerMoves, Unanswered;
    MoveKeepsInv(c, x, m);
    PathOne(c, x, m);
    WorkerMovesUndisturbing(c, Do(c, x, m), n, t);
    PathAppend(c, x, [m], WorkerMoves(c, Do(c, x, m), n));
  }

  lemma FillStep(c: Config, x: World, t: nat)
    requires CanMove(x, Take(Fill(t)))
    ensures var y := Do(c, x, Take(Fill(t)));
            && SameFor(x.state, y.state, t, x.state.phases[t].call) && y.state.phases[t].Filled?
  {
  }

  /** What the worker task leaves undisturbed can still be posted. */
  lemma StillHolding(s: State, s': State, x'': World, t: nat, call: Call)
    requires SameFor(s, s', t, call) && Undisturbed(s', x''.state, t)
    ensures SameFor(s, x''.state, t, call)
    ensures x''.state.phases[t] == s'.phases[t]
    ensures !x''.lost ==> if s'.phases[t].Filled? then CanMove(x'', Take(PostOk(t))) else CanMove(x'', Take(Fill(t)))
  {
  }

  lemma HoldingOutcome(c: Config, x: World, t: nat, plan: Plan)
    requires I.Inv(c, x.state) && CanMove(x, Take(Fill(t)))
    requires t < |x.state.phases| && x.state.phases[t].Holding?
    ensures var ms := HoldingMoves(c, x, t, plan);
            && IsPath(c, x, ms) && After(c, x, ms) == PathTo(c, x, ms)
            && NativeLeft(x.state, PathTo(c, x, ms), t, x.state.phases[t].call, plan)
  {
    hide I.Inv, CanMove, Do, IsPosted, HasFailed, Undisturbed, WorkerMoves, EndMoves, SameFor;
    var m, call := Take(Fill(t)), x.state.phases[t].call;
    var y := Do(c, x, m);
    FillStep(c, x, t);
    HolderAnswers(x.state, y.state, t, call);
    MoveAndWork(c, x, m, plan.afterFill, t);
    var ms := [m] + WorkerMoves(c, y, plan.afterFill);
    var z := PathTo(c, x, ms);
    StillHolding(x.state, y.state, z, t, call);
    if z.lost {
      LostEnds(c, z, t, plan);
      assert ms + [] == ms;
    } else {
      EndOutcome(c, z, t, plan);
      PathAppend(c, x, ms, EndMoves(c, z, t, plan));
      LeftSince(x.state, z.state, PathTo(c, z, EndMoves(c, z, t, plan)), t, call, plan);
    }
  }

  lemma HolderAnswers(s: State, s': State, t: nat, call: Call)
    requires SameFor(s, s', t, call)
    ensures t < |s'.phases| && !Unanswered(s'.phases[t])
  {
  }

  lemma LostEnds(c: Config, x: World, t: nat, plan: Plan)
    requires x.lost
    ensures EndMoves(c, x, t, plan) == [] && HoldingMoves(c, x, t, plan) == []
  {
  }

  /** How a native leaves: it waits if there is no free job but a place in the waiting list, it fails if there is
      neither, and with a job it leaves as it should. */
  ghost predicate AskedFor(s: State, x': World, t: nat, call: Call, plan: Plan) {
    if s.pool.free != [] then NativeLeft(s, x', t, call, plan)
    else if |s.pool.waiting| < s.pool.capacity then IsWaiting(s, x'.state, t, call)
    else HasFailed(s, x'.state, t)
  }

  lemma AskStep(c: Config, x: World, t: nat)
    requires CanMove(x, Take(Ask(t)))
    ensures t < |x.state.phases| && !x.state.phases[t].Idle?
    ensures var s, y := x.state, Do(c, x, Take(Ask(t)));
            var call := s.phases[t].call;
            if s.pool.free != [] then SameFor(s, y.state, t, call) && y.state.phases[t].Holding?
            else if |s.pool.waiting| < s.pool.capacity then IsWaiting(s, y.state, t, call)
            else HasFailed(s, y.state, t)
  {
  }

  lemma AskOutcome(c: Config, x: World, t: nat, plan: Plan)
    requires I.Inv(c, x.state) && CanMove(x, Take(Ask(t)))
    requires t < |x.state.phases| && !x.state.phases[t].Idle?
    ensures var ms := AskMoves(c, x, t, plan);
            && IsPath(c, x, ms) && After(c, x, ms) == PathTo(c, x, ms)
            && AskedFor(x.state, PathTo(c, x, ms), t, x.state.phases[t].call, plan)
  {
    hide I.Inv, CanMove, Do, IsPosted, HasFailed, IsWaiting, Undisturbed, WorkerMoves, HoldingMoves, SameFor,
      EndMoves;
    var m, call := Take(Ask(t)), x.state.phases[t].call;
    var y := Do(c, x, m);
    AskStep(c, x, t);
    PathOne(c, x, m);
    if x.state.pool.free != [] {
      HolderAnswers(x.state, y.state, t, call);
      MoveAndWork(c, x, m, plan.afterAsk, t);
      var ms := [m] + WorkerMoves(c, y, plan.afterAsk);
      var z := PathTo(c, x, ms);
      StillHolding(x.state, y.state, z, t, call);
      if z.lost {
        LostEnds(c, z, t, plan);
        assert ms + [] == ms;
      } else {
        HolderAnswers(x.state, z.state, t, call);
        HoldingOutcome(c, z, t, plan);
        PathAppend(c, x, ms, HoldingMoves(c, z, t, plan));
        LeftSince(x.state, z.state, PathTo(c, z, HoldingMoves(c, z, t, plan)), t, call, plan);
      }
    }
  }

  /** n turns of the worker task, or fewer if it has nothing more to do. */
  ghost predicate WorksFor(c: Config, x: World, ms: seq<Move>, n: nat) {
    IsPath(c, x, ms) && AllWorkers(ms) && |ms| <= n && (|ms| < n ==> WorkerMove(PathTo(c, x, ms)) == [])
  }

  /** The worker task runs between the calls of a native as its plan says: after allocate_job (w1), after the parameters
      are written (w2), and after a failed post (w3).  A worker that is lost ends the native. */
  ghost predicate AskIsKept(c: Config, x: World, t: nat, plan: Plan, w1: seq<Move>, w2: seq<Move>, w3: seq<Move>,
                            ms: seq<Move>)
    requires CanMove(x, Take(Ask(t)))
  {
    var y := Do(c, x, Take(Ask(t)));
    && WorksFor(c, y, w1, plan.afterAsk)
    && var z, n := PathTo(c, y, w1), |w1| + 1;
       if z.lost then ms == [Take(Ask(t))] + w1
       else
         && |ms| >= n && ms[..n] == [Take(Ask(t))] + w1
         && CanMove(z, Take(Fill(t))) && FillIsKept(c, z, t, plan, w2, w3, ms[n..])
  }

  lemma PlanIsKept(c: Config, x: World, t: nat, plan: Plan) returns (w1: seq<Move>, w2: seq<Move>, w3: seq<Move>)
    requires I.Inv(c, x.state) && CanMove(x, Take(Ask(t))) && x.state.pool.free != []
    ensures AskIsKept(c, x, t, plan, w1, w2, w3, AskMoves(c, x, t, plan))
  {
    hide I.Inv, CanMove, Do, IsPath, PathTo, WorkerMoves, HoldingMoves, SameFor, Undisturbed, FillIsKept;
    AskStep(c, x, t);
    var m, y, call := Take(Ask(t)), Do(c, x, Take(Ask(t))), x.state.phases[t].call;
    HolderAnswers(x.state, y.state, t, call);
    MoveAndWork(c, x, m, plan.afterAsk, t);
    WorkerMovesArePath(c, y, plan.afterAsk);
    w1, w2, w3 := WorkerMoves(c, y, plan.afterAsk), [], [];
    PathOne(c, x, m);
    PathAppend(c, x, [m], w1);
    var z := PathTo(c, y, w1);
    StillHolding(x.state, y.state, z, t, call);
    if z.lost {
      LostEnds(c, z, t, plan);
      assert [m] + w1 + [] == [m] + w1;
    } else {
      w2, w3 := FillPlan(c, z, t, plan);
      assert ([m] + w1 + HoldingMoves(c, z, t, plan))[|w1| + 1..] == HoldingMoves(c, z, t, plan);
    }
  }

  /** The same from the writing of the parameters on. */
  ghost predicate FillIsKept(c: Config, x: World, t: nat, plan: Plan, w2: seq<Move>, w3: seq<Move>, ms: seq<Move>)
    requires CanMove(x, Take(Fill(t)))
  {
    var y := Do(c, x, Take(Fill(t)));
    && WorksFor(c, y, w2, plan.afterFill)
    && var z, e := PathTo(c, y, w2), if !plan.accepted then Reject(t) else if plan.malloc.Allocated? then PostOk(t)
                                     else PostFails(t);
       if z.lost then ms == [Take(Fill(t))] + w2
       else
         && CanMove(z, Take(e))
         && (if e.PostFails? then WorksFor(c, Do(c, z, Take(e)), w3, plan.afterFailure) else w3 == [])
         && ms == [Take(Fill(t))] + w2 + [Take(e)] + w3
  }

  lemma FillPlan(c: Config, x: World, t: nat, plan: Plan) returns (w2: seq<Move>, w3: seq<Move>)
    requires I.Inv(c, x.state) && CanMove(x, Take(Fill(t)))
    ensures FillIsKept(c, x, t, plan, w2, w3, HoldingMoves(c, x, t, plan))
  {
    hide I.Inv, IsPath, PathTo, WorkerMoves, SameFor, Undisturbed;
    var m, call := Take(Fill(t)), x.state.phases[t].call;
    var y := Do(c, x, m);
    FillStep(c, x, t);
    HolderAnswers(x.state, y.state, t, call);
    MoveAndWork(c, x, m, plan.afterFill, t);
    WorkerMovesArePath(c, y, plan.afterFill);
    w2, w3 := WorkerMoves(c, y, plan.afterFill), [];
    PathOne(c, x, m);
    PathAppend(c, x, [m], w2);
    var z := PathTo(c, y, w2);
    StillHolding(x.state, y.state, z, t, call);
    hide CanMove, Do;
    if z.lost {
      LostEnds(c, z, t, plan);
      assert [m] + w2 + [] == [m] + w2;
    } else {
      var e := if !plan.accepted then Reject(t) else if plan.malloc.Allocated? then PostOk(t) else PostFails(t);
      EndStep(c, z, t, e);
      if e.PostFails? {
        w3 := WorkerMoves(c, Do(c, z, Take(e)), plan.afterFailure);
        WorkerMovesArePath(c, Do(c, z, Take(e)), plan.afterFailure);
      }
      assert [m] + w2 + ([Take(e)] + w3) == [m] + w2 + [Take(e)] + w3;
    }
  }

  // ---- The outcome of a turn -----------------------------------------------------------------

  /** What becomes of calls, posts, answers and failures in one turn.
      - A native that an idle thread calls counts as a call and leaves as it asked for; a retry does not count again.
      - A native that returns suspends its thread, or finds it already answered.
      - A callback answers the thread's call with what the sequential execution left for its post.
      - The worker task changes none of them, and does something unless it can do nothing. */
  ghost predicate Outcome(c: Config, x: World, turn: Turn, x': World) {
    var s, s' := x.state, x'.state;
    match turn
    case Native(t, call, plan) =>
      if x.lost || t >= |s.phases| || !s.phases[t].Idle? then x' == x
      else AskedFor(s.(calls := s.calls + 1), x', t, call, plan)
    case RetryNative(t, plan) =>
      if x.lost || t >= |s.phases| || !(s.phases[t].Retry? || s.phases[t].Fresh?) then x' == x
      else AskedFor(s, x', t, s.phases[t].call, plan)
    case Leave(t) =>
      if x.lost || t >= |s.phases| || !s.phases[t].Posted? then x' == x
      else
        var p := s.phases[t];
        x' == x.(state := s.(phases := s.phases[t := if p.woken then Done(p.call, p.job, p.ticket)
                                                     else Suspended(p.call, p.job, p.ticket)]))
    case Callback(t, _) =>
      if x.lost || t >= |s.phases| || !s.phases[t].Done? then x' == x
      else
        var p := s.phases[t];
        && s'.answers == s.answers + [Return(p.call, t, p.ticket, I.OutputOf(c, s.posts, p.ticket))]
        && t < |s'.phases| && s'.phases[t].Idle?
        && s'.posts == s.posts && s'.calls == s.calls && s'.failures == s.failures
    case Work =>
      && s'.answers == s.answers && s'.posts == s.posts && s'.calls == s.calls && s'.failures == s.failures
      && (x' == x ==> forall m :: IsWorkers(m) ==> !CanMove(x, m))
  }

  /** What the callback of a post finds in its job is what the sequential execution leaves there. */
  lemma CallbackReads(c: Config, s: State, t: nat)
    requires I.Inv(c, s) && Enabled(s, OnDone(t))
    ensures 0 <= s.phases[t].job < |s.records|
    ensures s.records[s.phases[t].job].params == I.OutputOf(c, s.posts, s.phases[t].ticket)
  {
    hide I.CountInv, I.Ownership, I.Wakeups, I.Tickets, I.QueueIsTail, I.Memory, I.AllWritten;
    S.OnDoneKeepsResults(c, s, t);
    var p := s.phases[t];
    var r := Return(p.call, t, p.ticket, s.records[p.job].params);
    var n := |s.answers|;
    assert (s.answers + [r])[n] == r;
  }

  lemma BeginStep(c: Config, x: World, t: nat, call: Call)
    requires CanMove(x, Take(Begin(t, call)))
    ensures var y := Do(c, x, Take(Begin(t, call)));
            && CanMove(y, Take(Ask(t))) && t < |y.state.phases| && y.state.phases[t] == Fresh(call)
            && y.state == x.state.(phases := y.state.phases, calls := x.state.calls + 1)
  {
  }

  lemma SameAsked(s: State, s1: State, x': World, t: nat, call: Call, plan: Plan)
    requires AskedFor(s1, x', t, call, plan)
    requires s1.pool == s.pool && s1.posts == s.posts && s1.answers == s.answers
    requires s1.calls == s.calls && s1.failures == s.failures
    ensures AskedFor(s, x', t, call, plan)
  {
  }

  lemma NativeTurn(c: Config, x: World, t: nat, call: Call, plan: Plan)
    requires I.Inv(c, x.state) && CanMove(x, Take(Begin(t, call)))
    ensures var ms := [Take(Begin(t, call))] + AskMoves(c, Do(c, x, Take(Begin(t, call))), t, plan);
            && IsPath(c, x, ms)
            && AskedFor(x.state.(calls := x.state.calls + 1), PathTo(c, x, ms), t, call, plan)
  {
    hide I.Inv, CanMove, Do, AskedFor, AskMoves;
    var m := Take(Begin(t, call));
    var y := Do(c, x, m);
    BeginStep(c, x, t, call);
    MoveKeepsInv(c, x, m);
    AskOutcome(c, y, t, plan);
    PathOne(c, x, m);
    PathAppend(c, x, [m], AskMoves(c, y, t, plan));
    SameAsked(x.state.(calls := x.state.calls + 1), y.state, PathTo(c, y, AskMoves(c, y, t, plan)), t, call, plan);
  }

  lemma CallbackStep(c: Config, x: World, t: nat)
    requires I.Inv(c, x.state) && CanMove(x, Take(OnDone(t)))
    ensures var s, s', p := x.state, Do(c, x, Take(OnDone(t))).state, x.state.phases[t];
            && s'.answers == s.answers + [Return(p.call, t, p.ticket, I.OutputOf(c, s.posts, p.ticket))]
            && t < |s'.phases| && s'.phases[t].Idle?
            && s'.posts == s.posts && s'.calls == s.calls && s'.failures == s.failures
  {
    hide I.Inv, I.OutputOf;
    CallbackReads(c, x.state, t);
  }

  lemma WorkStep(c: Config, x: World)
    requires Awake(x)
    ensures var ms := WorkerMove(x);
            && IsPath(c, x, ms)
            && (PathTo(c, x, ms) == x ==> forall m :: IsWorkers(m) ==> !CanMove(x, m))
            && var s, s' := x.state, PathTo(c, x, ms).state;
               s'.answers == s.answers && s'.posts == s.posts && s'.calls == s.calls && s'.failures == s.failures
  {
    hide IsPath, PathTo, WorkerMove, CanMove;
    if WorkerMove(x) == [] {
      PathNone(c, x);
      forall m | IsWorkers(m) ensures !CanMove(x, m) { WorkerMoveIs(x, m); }
    } else {
      var m := WorkerMove(x)[0];
      assert m in WorkerMove(x) && WorkerMove(x) == [m];
      PathOne(c, x, m);
      WorkerMoveMoves(c, x, m);
    }
  }

  lemma WorkerMoveMoves(c: Config, x: World, m: Move)
    requires CanMove(x, m) && IsWorkers(m)
    ensures Do(c, x, m) != x
    ensures var s, s' := x.state, Do(c, x, m).state;
            s'.answers == s.answers && s'.posts == s.posts && s'.calls == s.calls && s'.failures == s.failures
  {
  }

  lemma PathNone(c: Config, x: World)
    ensures IsPath(c, x, []) && PathTo(c, x, []) == x
  {
  }

  const NO_CALL := Call(0, [])

  /** Whether a turn can happen. */
  lemma WhoCan(x: World, t: nat, call: Call)
    ensures CanMove(x, Take(Begin(t, call))) <==> !x.lost && t < |x.state.phases| && x.state.phases[t].Idle?
    ensures CanMove(x, Take(Ask(t))) <==>
              !x.lost && t < |x.state.phases| && (x.state.phases[t].Retry? || x.state.phases[t].Fresh?)
    ensures CanMove(x, Take(Suspend(t))) <==> !x.lost && t < |x.state.phases| && x.state.phases[t].Posted?
    ensures CanMove(x, Take(OnDone(t))) <==> !x.lost && t < |x.state.phases| && x.state.phases[t].Done?
  {
  }

  lemma LeaveStep(c: Config, x: World, t: nat)
    requires CanMove(x, Take(Suspend(t)))
    ensures var p := x.state.phases[t];
            Do(c, x, Take(Suspend(t))) ==
            x.(state := x.state.(phases := x.state.phases[t := if p.woken then Done(p.call, p.job, p.ticket)
                                                               else Suspended(p.call, p.job, p.ticket)]))
  {
  }

  /** Every turn takes its moves and has its outcome. */
  lemma TurnOutcome(c: Config, x: World, turn: Turn)
    requires I.Inv(c, x.state) && Awake(x)
    ensures var ms := TurnMoves(c, x, turn);
            IsPath(c, x, ms) && Outcome(c, x, turn, PathTo(c, x, ms))
  {
    hide I.Inv, Awake, CanMove, IsPath, PathTo, Do, AskedFor, AskMoves, WorkerMove, IsWorkers;
    PathNone(c, x);
    match turn
    case Native(t, call, plan) =>
      WhoCan(x, t, call);
      if CanMove(x, Take(Begin(t, call))) { NativeTurn(c, x, t, call, plan); }
    case RetryNative(t, plan) =>
      WhoCan(x, t, NO_CALL);
      if CanMove(x, Take(Ask(t))) { AskOutcome(c, x, t, plan); } else { CannotAsk(c, x, t, plan); }
    case Leave(t) =>
      WhoCan(x, t, NO_CALL);
      if CanMove(x, Take(Suspend(t))) {
        LeaveStep(c, x, t);
        PathOne(c, x, Take(Suspend(t)));
      }
    case Callback(t, _) =>
      WhoCan(x, t, NO_CALL);
      if CanMove(x, Take(OnDone(t))) {
        CallbackStep(c, x, t);
        PathOne(c, x, Take(OnDone(t)));
      }
    case Work => WorkStep(c, x);
  }

  lemma CannotAsk(c: Config, x: World, t: nat, plan: Plan)
    requires !CanMove(x, Take(Ask(t)))
    ensures AskMoves(c, x, t, plan) == []
  {
  }

  /** What the on-done callbacks returned, in their order. */
  function ResultsOf(resultOf: Params -> int, answers: seq<Return>): seq<int> {
    seq(|answers|, k requires 0 <= k < |answers| => resultOf(answers[k].params))
  }

  /** Between two states the callbacks have returned these results. */
  ghost predicate Gained(resultOf: Params -> int, s: State, s': State, results: seq<int>) {
    ResultsOf(resultOf, s'.answers) == ResultsOf(resultOf, s.answers) + results
  }

  lemma GainsAdd(resultOf: Params -> int, s: State, s': State, s'': State, results: seq<int>, more: seq<int>)
    requires Gained(resultOf, s, s', results) && Gained(resultOf, s', s'', more)
    ensures Gained(resultOf, s, s'', results + more)
  {
  }

  lemma GainsNothing(resultOf: Params -> int, s: State)
    ensures Gained(resultOf, s, s, [])
  {
  }

  /** The result of a turn: that of the callback's own action in the sequential execution, and none for other turns. */
  function TurnResult(c: Config, x: World, turn: Turn, resultOf: Params -> int): seq<int> {
    if turn.Callback? && CanMove(x, Take(OnDone(turn.thread))) then
      [resultOf(I.OutputOf(c, x.state.posts, x.state.phases[turn.thread].ticket))]
    else []
  }

  lemma TurnGains(c: Config, x: World, turn: Turn, resultOf: Params -> int)
    requires I.Inv(c, x.state) && Awake(x)
    ensures IsPath(c, x, TurnMoves(c, x, turn))
    ensures Gained(resultOf, x.state, PathTo(c, x, TurnMoves(c, x, turn)).state, TurnResult(c, x, turn, resultOf))
  {
    hide I.Inv, Awake, TurnMoves, IsPath, PathTo, CanMove, I.OutputOf, ResultsOf;
    TurnOutcome(c, x, turn);
    match turn
    case Callback(t, _) =>
      WhoCan(x, t, NO_CALL);
      if CanMove(x, Take(OnDone(t))) {
        var p := x.state.phases[t];
        ResultAdded(resultOf, x.state.answers, Return(p.call, t, p.ticket, I.OutputOf(c, x.state.posts, p.ticket)));
      }
    case _ =>
  }

  lemma ResultAdded(resultOf: Params -> int, answers: seq<Return>, r: Return)
    ensures ResultsOf(resultOf, answers + [r]) == ResultsOf(resultOf, answers) + [resultOf(r.params)]
  {
  }

  // ---- The outcome of all turns --------------------------------------------------------------

  /** Turn after turn, each with its outcome. */
  ghost predicate Outcomes(c: Config, x: World, turns: seq<Turn>)
    decreases |turns|
  {
    turns == []
    || var x' := After(c, x, TurnMoves(c, x, turns[0]));
       Outcome(c, x, turns[0], x') && Outcomes(c, x', turns[1..])
  }

  lemma {:induction false} ServeOutcomes(c: Config, x: World, turns: seq<Turn>)
    requires I.Inv(c, x.state) && Awake(x)
    ensures IsPath(c, x, ServeMoves(c, x, turns)) && Outcomes(c, x, turns)
    decreases |turns|
  {
    hide I.Inv, Awake, IsPath, PathTo, TurnMoves, Outcome;
    if turns == [] {
      PathNone(c, x);
    } else {
      var ms := TurnMoves(c, x, turns[0]);
      TurnOutcome(c, x, turns[0]);
      PathKeepsInv(c, x, ms);
      PathKeepsAwake(c, x, ms);
      ServeOutcomes(c, PathTo(c, x, ms), turns[1..]);
      PathAppend(c, x, ms, ServeMoves(c, PathTo(c, x, ms), turns[1..]));
    }
  }
}
