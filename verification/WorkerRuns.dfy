/** Runs of the protocol together with the wait in the queue.  The worker task falls asleep on an empty queue, and every
    post signals it, also one that fails; a worker that is woken on an empty queue goes on without a job. */
module WorkerRuns {
  import opened Bags
  import opened WorkerSpec
  import opened Protocol
  import I = ProtocolInvariants
  import T = ProtocolTheorems
  import D = ProtocolDraining
  import S = ProtocolSteps
  import Q = OsalQueueSpec

  /** `consumer` is where the worker task stands in the queue.  A worker is lost once a fetch has returned OSAL_OK
      without a job: the code then runs the action behind an indeterminate pointer, and the model stops. */
  datatype World = World(state: State, consumer: Q.Consumer, lost: bool)

  datatype Move =
    | Take(event: Event)   // an event of the protocol
    | Sleep                // the worker comes to an empty queue and waits
    | WakeOnNothing        // the worker is woken by a signal and finds no message

  function Start(c: Config): World { World(Init(c), Q.Outside, false) }

  predicate CanMove(x: World, m: Move) {
    && !x.lost
    && match m
       case Take(e) => Enabled(x.state, e) && (e.Fetch? ==> x.consumer != Q.Blocked(false))
       case Sleep => x.state.task.Fetching? && x.state.queue == [] && x.consumer.Outside?
       case WakeOnNothing => x.state.queue == [] && x.consumer == Q.Blocked(true)
  }

  /** Where an event leaves the consumer: a fetch ends the wait, a post signals whether or not it succeeds. */
  function ConsumerAfter(consumer: Q.Consumer, e: Event): Q.Consumer {
    match e
    case Fetch => Q.Outside
    case PostOk(_) => Q.Signalled(consumer)
    case PostFails(_) => Q.Signalled(consumer)
    case _ => consumer
  }

  function Do(c: Config, x: World, m: Move): World
    requires CanMove(x, m)
  {
    match m
    case Take(e) => x.(state := Apply(c, x.state, e), consumer := ConsumerAfter(x.consumer, e))
    case Sleep => x.(consumer := Q.Blocked(false))
    case WakeOnNothing => x.(consumer := Q.Outside, lost := true)
  }

  predicate IsPath(c: Config, x: World, ms: seq<Move>)
    decreases |ms|
  {
    ms == [] || (CanMove(x, ms[0]) && IsPath(c, Do(c, x, ms[0]), ms[1..]))
  }

  function PathTo(c: Config, x: World, ms: seq<Move>): World
    requires IsPath(c, x, ms)
    decreases |ms|
  {
    if ms == [] then x else PathTo(c, Do(c, x, ms[0]), ms[1..])
  }

  /** The protocol's part of a path. */
  function Events(ms: seq<Move>): seq<Event> {
    if ms == [] then []
    else if ms[0].Take? then [ms[0].event] + Events(ms[1..])
    else Events(ms[1..])
  }

  // ---- Paths ---------------------------------------------------------------------------------

  lemma PathOne(c: Config, x: World, m: Move)
    requires CanMove(x, m)
    ensures IsPath(c, x, [m]) && PathTo(c, x, [m]) == Do(c, x, m)
  {
    hide CanMove, Do;
    assert [m][1..] == [];
  }

  lemma {:induction false} PathAppend(c: Config, x: World, ms: seq<Move>, more: seq<Move>)
    requires IsPath(c, x, ms) && IsPath(c, PathTo(c, x, ms), more)
    ensures IsPath(c, x, ms + more) && PathTo(c, x, ms + more) == PathTo(c, PathTo(c, x, ms), more)
    decreases |ms|
  {
    hide CanMove, Do;
    if ms == [] {
      assert ms + more == more;
    } else {
      PathAppend(c, Do(c, x, ms[0]), ms[1..], more);
      assert (ms + more)[1..] == ms[1..] + more;
    }
  }

  /** A path is a run of the protocol, so whatever holds in its reachable states holds along every path. */
  lemma {:induction false} PathIsRun(c: Config, x: World, ms: seq<Move>)
    requires IsPath(c, x, ms)
    ensures IsRun(c, x.state, Events(ms)) && RunTo(c, x.state, Events(ms)) == PathTo(c, x, ms).state
    decreases |ms|
  {
    hide Apply, Enabled;
    if ms == [] {
    } else {
      PathIsRun(c, Do(c, x, ms[0]), ms[1..]);
      if ms[0].Take? { assert Events(ms)[1..] == Events(ms[1..]); }
    }
  }

  lemma PathIsReachable(c: Config, ms: seq<Move>)
    requires IsPath(c, Start(c), ms)
    ensures Reachable(c, PathTo(c, Start(c), ms).state)
  {
    hide Init, IsRun, RunTo;
    PathIsRun(c, Start(c), ms);
  }

  lemma PathKeepsInv(c: Config, x: World, ms: seq<Move>)
    requires I.Inv(c, x.state) && IsPath(c, x, ms)
    ensures I.Inv(c, PathTo(c, x, ms).state)
  {
    hide I.Inv, IsRun, RunTo;
    PathIsRun(c, x, ms);
    T.RunKeepsInv(c, x.state, Events(ms));
  }

  // ---- The worker task beside a native -------------------------------------------------------

  /** A move of the worker task. */
  predicate IsWorkers(m: Move) {
    m.Sleep? || m.WakeOnNothing? || m.event.Fetch? || m.event.Execute? || m.event.Wake?
  }

  predicate AllWorkers(ms: seq<Move>) {
    forall i :: 0 <= i < |ms| ==> IsWorkers(ms[i])
  }

  /** The worker task touches the phase of the thread it answers, and of no other. */
  lemma WorkerKeepsThread(c: Config, x: World, m: Move, t: nat)
    requires I.Inv(c, x.state) && CanMove(x, m) && IsWorkers(m)
    requires t < |x.state.phases| && !Unanswered(x.state.phases[t])
    ensures var s, s' := x.state, Do(c, x, m).state;
            |s'.phases| == |s.phases| && s'.phases[t] == s.phases[t] && s'.pool == s.pool
  {
    hide I.PoolInv, I.FlowInv, I.DataInv, I.CountInv;
    if m.Take? && m.event.Wake? { var u := S.WakesOwner(c, x.state); }
  }

  lemma {:induction false} WorkersKeepThread(c: Config, x: World, ms: seq<Move>, t: nat)
    requires I.Inv(c, x.state) && IsPath(c, x, ms) && AllWorkers(ms)
    requires t < |x.state.phases| && !Unanswered(x.state.phases[t])
    ensures var s, s' := x.state, PathTo(c, x, ms).state;
            |s'.phases| == |s.phases| && s'.phases[t] == s.phases[t] && s'.pool == s.pool
    decreases |ms|
  {
    hide I.Inv, CanMove, Do, Unanswered;
    if ms == [] {
    } else {
      WorkerKeepsThread(c, x, ms[0], t);
      MoveKeepsInv(c, x, ms[0]);
      WorkersKeepThread(c, Do(c, x, ms[0]), ms[1..], t);
    }
  }

  lemma {:induction false} WorkersKeepHistory(c: Config, x: World, ms: seq<Move>)
    requires IsPath(c, x, ms) && AllWorkers(ms)
    ensures var s, s' := x.state, PathTo(c, x, ms).state;
            s'.posts == s.posts && s'.answers == s.answers && s'.calls == s.calls && s'.failures == s.failures
    decreases |ms|
  {
    if ms == [] {
    } else {
      WorkersKeepHistory(c, Do(c, x, ms[0]), ms[1..]);
    }
  }

  lemma MoveKeepsInv(c: Config, x: World, m: Move)
    requires I.Inv(c, x.state) && CanMove(x, m)
    ensures I.Inv(c, Do(c, x, m).state)
  {
    hide I.Inv, Apply, Enabled;
    if m.Take? { S.StepKeepsInv(c, x.state, m.event); }
  }

  /** The world in which thread t has also freed the job it filled. */
  function Freed(x: World, t: nat): World
    requires Enabled(x.state, Reject(t))
  {
    x.(state := DoReject(x.state, t))
  }

  /** A failed post is stamped and signalled first and freed afterwards. */
  lemma FailureInTwo(c: Config, x: World, t: nat)
    requires CanMove(x, Take(PostFails(t)))
    ensures Enabled(Stamp(x.state, t), Reject(t))
    ensures var y := World(Stamp(x.state, t), Q.Signalled(x.consumer), x.lost);
            Do(c, x, Take(PostFails(t))) == Freed(y, t)
  {
    hide FreeAndReturn, Q.Signalled;
  }

  /** The worker task resumes only a thread that waits for it. */
  predicate Answers(s: State, m: Move) {
    m.Take? && m.event.Wake? && s.task.Ran? && 0 <= s.task.job < |s.records| ==>
      var u := s.records[s.task.job].thread;
      0 <= u < |s.phases| && Unanswered(s.phases[u])
  }

  lemma WakeAnswers(c: Config, x: World, m: Move)
    requires I.Inv(c, x.state) && CanMove(x, m)
    ensures Answers(x.state, m)
  {
    hide I.PoolInv, I.FlowInv, I.DataInv, I.CountInv;
    if m.Take? && m.event.Wake? { var u := S.WakesOwner(c, x.state); }
  }

  /** Freeing a job and a move of the worker task do not depend on each other's order. */
  lemma FreeCommutes(c: Config, x: World, m: Move, t: nat)
    requires Answers(x.state, m) && CanMove(x, m) && IsWorkers(m) && Enabled(x.state, PostOk(t))
    ensures Enabled(Do(c, x, m).state, PostOk(t))
    ensures CanMove(Freed(x, t), m) && Do(c, Freed(x, t), m) == Freed(Do(c, x, m), t)
  {
    hide Release;
    if m.Take? && m.event.Wake? {
      var u := x.state.records[x.state.task.job].thread;
      ResumesCommute(x.state.phases, t, Release(x.state.pool, x.state.phases[t].job).1, u);
    }
  }

  lemma ResumesCommute(ps: seq<Phase>, t: nat, who: Option<int>, u: nat)
    requires t < |ps| && u < |ps| && u != t && Unanswered(ps[u])
    ensures ResumeOwner(ResumeWaiter(ps[t := Idle], who), u) == ResumeWaiter(ResumeOwner(ps, u)[t := Idle], who)
  {
  }

  lemma {:induction false} FreeCommutesAll(c: Config, x: World, ms: seq<Move>, t: nat)
    requires I.Inv(c, x.state) && IsPath(c, x, ms) && AllWorkers(ms) && Enabled(x.state, PostOk(t))
    ensures Enabled(PathTo(c, x, ms).state, PostOk(t))
    ensures IsPath(c, Freed(x, t), ms) && PathTo(c, Freed(x, t), ms) == Freed(PathTo(c, x, ms), t)
    decreases |ms|
  {
    hide I.Inv, CanMove, Do, DoReject, IsWorkers;
    if ms == [] {
    } else {
      assert IsWorkers(ms[0]) && AllWorkers(ms[1..]);
      WakeAnswers(c, x, ms[0]);
      FreeCommutes(c, x, ms[0], t);
      MoveKeepsInv(c, x, ms[0]);
      FreeCommutesAll(c, Do(c, x, ms[0]), ms[1..], t);
    }
  }

  // ---- No lost wake-up -----------------------------------------------------------------------

  /** The worker waits only where it fetches, and does not sleep unsignalled beside a message. */
  predicate Awake(x: World) {
    && (x.consumer.Blocked? ==> x.state.task.Fetching?)
    && (x.state.queue != [] ==> x.consumer != Q.Blocked(false))
  }

  /** What an event does to the queue and the worker task. */
  lemma QueueStep(c: Config, s: State, e: Event)
    requires Enabled(s, e)
    ensures var s' := Apply(c, s, e);
            && (e.PostOk? ==> s'.queue == s.queue + [s.phases[e.thread].job])
            && (e.Fetch? ==> s.queue != [] && s.task.Fetching? && s'.queue == s.queue[1..])
            && (!e.PostOk? && !e.Fetch? ==> s'.queue == s.queue)
            && (e.Execute? || e.Wake? ==> !s.task.Fetching?)
            && (!e.Fetch? && !e.Execute? && !e.Wake? ==> s'.task == s.task)
  {
    hide ResumeWaiter, ResumeOwner, Allocate, Release;
  }

  lemma MoveKeepsAwake(c: Config, x: World, m: Move)
    requires Awake(x) && CanMove(x, m)
    ensures Awake(Do(c, x, m))
  {
    hide Apply, Enabled;
    if m.Take? { QueueStep(c, x.state, m.event); }
  }

  lemma {:induction false} PathKeepsAwake(c: Config, x: World, ms: seq<Move>)
    requires Awake(x) && IsPath(c, x, ms)
    ensures Awake(PathTo(c, x, ms))
    decreases |ms|
  {
    hide Awake, CanMove, Do;
    if ms == [] {
    } else {
      MoveKeepsAwake(c, x, ms[0]);
      PathKeepsAwake(c, Do(c, x, ms[0]), ms[1..]);
    }
  }

  /** The wait holds up nothing: until the worker is lost, every event the protocol allows can happen. */
  lemma WaitBlocksNothing(c: Config, ms: seq<Move>, e: Event)
    requires IsPath(c, Start(c), ms)
    ensures var x := PathTo(c, Start(c), ms);
            CanMove(x, Take(e)) <==> !x.lost && Enabled(x.state, e)
  {
    hide Apply, Enabled;
    PathKeepsAwake(c, Start(c), ms);
    if e.Fetch? && Enabled(PathTo(c, Start(c), ms).state, e) {
      QueueStep(c, PathTo(c, Start(c), ms).state, e);
    }
  }

  // ---- When the worker can be lost -----------------------------------------------------------

  /** The worker can be woken now and find no message. */
  predicate Exposed(x: World) { CanMove(x, WakeOnNothing) }

  /** A post fails while the worker sleeps on an empty queue. */
  predicate FailsAsleep(x: World, m: Move) {
    m.Take? && m.event.PostFails? && x.consumer.Blocked? && x.state.queue == []
  }

  predicate NeverExposed(c: Config, x: World, ms: seq<Move>)
    requires IsPath(c, x, ms)
    decreases |ms|
  {
    !Exposed(x) && (ms == [] || NeverExposed(c, Do(c, x, ms[0]), ms[1..]))
  }

  predicate NoPostFailsAsleep(c: Config, x: World, ms: seq<Move>)
    requires IsPath(c, x, ms)
    decreases |ms|
  {
    ms == [] || (!FailsAsleep(x, ms[0]) && NoPostFailsAsleep(c, Do(c, x, ms[0]), ms[1..]))
  }

  lemma ExposedStep(c: Config, x: World, m: Move)
    requires Awake(x) && CanMove(x, m) && !Exposed(x)
    ensures Exposed(Do(c, x, m)) <==> FailsAsleep(x, m)
    ensures !Do(c, x, m).lost
  {
    hide Apply, Enabled;
    if m.Take? { QueueStep(c, x.state, m.event); }
  }

  lemma {:induction false} ExposedIff(c: Config, x: World, ms: seq<Move>)
    requires Awake(x) && IsPath(c, x, ms) && !Exposed(x) && !x.lost
    ensures NeverExposed(c, x, ms) <==> NoPostFailsAsleep(c, x, ms)
    ensures NoPostFailsAsleep(c, x, ms) ==> !PathTo(c, x, ms).lost
    decreases |ms|
  {
    hide Awake, CanMove, Do, Exposed, FailsAsleep;
    if ms == [] {
    } else {
      MoveKeepsAwake(c, x, ms[0]);
      ExposedStep(c, x, ms[0]);
      if FailsAsleep(x, ms[0]) {
        AtOnce(c, Do(c, x, ms[0]), ms[1..]);
      } else {
        ExposedIff(c, Do(c, x, ms[0]), ms[1..]);
      }
    }
  }

  lemma AtOnce(c: Config, x: World, ms: seq<Move>)
    requires IsPath(c, x, ms) && Exposed(x)
    ensures !NeverExposed(c, x, ms)
  {
  }

  /** A signal means a message, in every world of a path, if and only if no post of the path fails while the worker
      sleeps on an empty queue; and then the worker is never lost. */
  lemma SignalMeansMessageIff(c: Config, ms: seq<Move>)
    requires IsPath(c, Start(c), ms)
    ensures NeverExposed(c, Start(c), ms) <==> NoPostFailsAsleep(c, Start(c), ms)
    ensures NoPostFailsAsleep(c, Start(c), ms) ==> !PathTo(c, Start(c), ms).lost
  {
    hide CanMove, Do, Init;
    ExposedIff(c, Start(c), ms) by { assert Awake(Start(c)) && !Exposed(Start(c)) by { StartIsAwake(c); } }
  }

  lemma StartIsAwake(c: Config)
    ensures Awake(Start(c)) && !Exposed(Start(c))
  {
  }

  /** After a post has failed on a sleeping worker, the next thing that can happen is that the worker is lost. */
  lemma {:induction false} LostAfterFailure(c: Config, x: World, ms: seq<Move>) returns (k: nat)
    requires Awake(x) && IsPath(c, x, ms) && !Exposed(x) && !x.lost && !NoPostFailsAsleep(c, x, ms)
    ensures k < |ms| && IsPath(c, x, ms[..k]) && FailsAsleep(PathTo(c, x, ms[..k]), ms[k])
    ensures IsPath(c, x, ms[..k + 1])
    ensures CanMove(PathTo(c, x, ms[..k + 1]), WakeOnNothing)
    decreases |ms|
  {
    hide Awake, CanMove, Do, FailsAsleep;
    var x', rest := Do(c, x, ms[0]), ms[1..];
    MoveKeepsAwake(c, x, ms[0]);
    ExposedStep(c, x, ms[0]);
    if FailsAsleep(x, ms[0]) {
      k := 0;
      assert ms[..1] == [ms[0]];
      PathOne(c, x, ms[0]);
    } else {
      var i := LostAfterFailure(c, x', rest);
      k := i + 1;
      assert ms[..k + 1] == [ms[0]] + rest[..i + 1] && ms[..k] == [ms[0]] + rest[..i];
      PathPrefix(c, x', rest[..i + 1], i);
      assert rest[..i + 1][..i] == rest[..i];
      PathOne(c, x, ms[0]);
      PathAppend(c, x, [ms[0]], rest[..i + 1]);
      PathAppend(c, x, [ms[0]], rest[..i]);
      PathPrefix(c, x, ms[..k + 1], k);
      assert ms[..k + 1][..k] == ms[..k];
    }
  }

  lemma {:induction false} PathPrefix(c: Config, x: World, ms: seq<Move>, k: nat)
    requires IsPath(c, x, ms) && k <= |ms|
    ensures IsPath(c, x, ms[..k])
    decreases |ms|
  {
    hide CanMove, Do;
    if k == 0 {
    } else {
      PathPrefix(c, Do(c, x, ms[0]), ms[1..], k - 1);
      assert ms[..k][1..] == ms[1..][..k - 1];
    }
  }

  /** It does happen: the first call of all, posted without memory while the worker sleeps. */
  lemma WorkerCanBeLost(c: Config, call: Call)
    requires c.jobs > 0 && c.threads > 0
    ensures var ms := [Sleep, Take(Begin(0, call)), Take(Ask(0)), Take(Fill(0)), Take(PostFails(0)), WakeOnNothing];
            IsPath(c, Start(c), ms) && PathTo(c, Start(c), ms).lost
  {
    var x0 := Start(c);
    var x1 := x0.(consumer := Q.Blocked(false));
    var s2 := Apply(c, x1.state, Begin(0, call));
    var s3 := DoAsk(s2, 0);
    assert s3.phases[0] == Holding(call, 0);
    var s4 := DoFill(c, s3, 0);
    var x4 := World(s4, Q.Blocked(false), false);
    assert CanMove(x4, Take(PostFails(0)));
    FailedPostLoses(c, x4, 0);
    PathOne(c, x0, Sleep);
    PathOne(c, x1, Take(Begin(0, call)));
    PathOne(c, x1.(state := s2), Take(Ask(0)));
    PathOne(c, x1.(state := s3), Take(Fill(0)));
    PathAppend(c, x1.(state := s3), [Take(Fill(0))], [Take(PostFails(0)), WakeOnNothing]);
    PathAppend(c, x1.(state := s2), [Take(Ask(0))], [Take(Fill(0)), Take(PostFails(0)), WakeOnNothing]);
    PathAppend(c, x1, [Take(Begin(0, call))], [Take(Ask(0)), Take(Fill(0)), Take(PostFails(0)), WakeOnNothing]);
    PathAppend(c, x0, [Sleep], [Take(Begin(0, call)), Take(Ask(0)), Take(Fill(0)), Take(PostFails(0)), WakeOnNothing]);
  }

  lemma FailedPostLoses(c: Config, x: World, t: nat)
    requires CanMove(x, Take(PostFails(t))) && x.state.queue == [] && x.consumer.Blocked?
    ensures IsPath(c, x, [Take(PostFails(t)), WakeOnNothing]) && PathTo(c, x, [Take(PostFails(t)), WakeOnNothing]).lost
  {
    hide Apply, Enabled;
    QueueStep(c, x.state, PostFails(t));
    PathOne(c, x, Take(PostFails(t)));
    PathOne(c, Do(c, x, Take(PostFails(t))), WakeOnNothing);
    PathAppend(c, x, [Take(PostFails(t))], [WakeOnNothing]);
  }

  // ---- Draining with the wait ----------------------------------------------------------------

  /** How many moves besides events may come before the next fetch. */
  function Slack(x: World): nat { (if x.consumer.Outside? then 1 else 0) + if x.lost then 0 else 2 }

  lemma {:induction false} WaitsBounded(c: Config, x: World, ms: seq<Move>)
    requires IsPath(c, x, ms)
    ensures |ms| + Slack(PathTo(c, x, ms)) <= 2 * |Events(ms)| + Slack(x)
    decreases |ms|
  {
    hide Apply, Enabled;
    if ms == [] {
    } else {
      WaitsBounded(c, Do(c, x, ms[0]), ms[1..]);
    }
  }

  /** The wait does not keep runs from ending: a path has at most 24 moves a call, and three. */
  lemma PathsEnd(c: Config, ms: seq<Move>)
    requires IsPath(c, Start(c), ms)
    ensures |ms| <= 24 * D.Begins(Events(ms)) + 3
  {
    hide Init, CanMove, Do, IsRun, RunTo;
    WaitsBounded(c, Start(c), ms);
    PathIsRun(c, Start(c), ms);
    D.TwelveEventsPerCall(c, Events(ms));
  }

  /** Where a path stops whose posts never fail on a sleeping worker, every call has returned or failed, every job is
      free, and the file system is the sequential execution of all posts. */
  lemma StoppedMeansSettled(c: Config, ms: seq<Move>)
    requires IsPath(c, Start(c), ms) && NoPostFailsAsleep(c, Start(c), ms) && c.jobs > 0
    requires forall e :: CanMove(PathTo(c, Start(c), ms), Take(e)) ==> e.Begin?
    ensures var s := PathTo(c, Start(c), ms).state;
            && (forall t :: 0 <= t < |s.phases| ==> s.phases[t].Idle?)
            && multiset(s.pool.free) == Below(c.jobs) && s.pool.waiting == [] && s.queue == []
            && s.calls == |s.answers| + s.failures
            && s.fs == Sequential(c, s.posts).0
  {
    hide Init, CanMove, Do, IsRun, RunTo, Enabled, Below;
    var s := PathTo(c, Start(c), ms).state;
    SignalMeansMessageIff(c, ms);
    forall e | Enabled(s, e) ensures e.Begin? { WaitBlocksNothing(c, ms, e); }
    PathIsReachable(c, ms);
    D.StuckMeansSettled(c, s);
  }
}
