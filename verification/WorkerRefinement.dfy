/** The worker object takes the protocol's steps: whatever the protocol does to free jobs, waiting threads,
    records and queue, the linked jobs, the ring with its 16-bit offsets and the malloc'ed queue do too. */
module WorkerRefinement {
  import opened WorkerSpec
  import opened Protocol
  import I = ProtocolInvariants
  import T = ProtocolTheorems
  import PP = ProtocolPool
  import R = WaitingRing
  import S = ProtocolSteps
  import Q = OsalQueueSpec
  import O = OsalQueue
  import V = WorkerRuns
  import W = AsyncWorker

  /** Free jobs, waiting threads, records and queue are those of the protocol state s; the consumer is in the wait
      only while the worker task fetches, and a message that arrives there comes with a signal. */
  ghost predicate Shows(pool: Pool, records: seq<Record>, q: Q.Queue, s: State) {
    && pool == s.pool && records == s.records && q.pending == s.queue
    && Q.Safe(q) && (q.consumer.Outside? || s.task.Fetching?)
  }

  /** The object w stores what the protocol state s says. */
  ghost predicate Represents(w: W.Worker, s: State)
    reads w, w.jobs, w.slots, w.waitingThreads, w.jobsQueue,
          if w.jobsQueue == null then {} else {w.jobsQueue.waitingMsg},
          if w.jobsQueue == null then {} else w.jobsQueue.waitingMsg.repr
  {
    && w.Valid() && w.jobsQueue != null && w.jobsQueue.Valid()
    && Shows(w.Abs(), w.Records(), w.jobsQueue.Abs(), s)
  }

  /** No lost wake-up between the transport and the worker task: with a job pending, the worker is awake or its
      signal is on the way. */
  lemma PendingJobWakes(w: W.Worker, s: State)
    requires Represents(w, s) && s.queue != []
    ensures w.jobsQueue.consumer.Outside? || w.jobsQueue.consumer == Q.Blocked(true)
  {
  }

  /** A freshly initialized worker represents the initial state. */
  method InitializeRefines(w: W.Worker, c: Config) returns (result: W.Status)
    requires w.Declared() && w.jobs.Length == w.slots.Length && w.Records() == Init(c).records
    requires w.jobCount == c.jobs > 0 && w.waitingThreadsLength == c.capacity + 1 <= R.OFFSETS
    modifies w, w.jobs
    ensures result.OK? && Represents(w, Init(c)) && Follows(w, V.Start(c))
    ensures fresh(w.jobsQueue) && fresh(w.jobsQueue.waitingMsg) && w.jobsQueue.waitingMsg.repr == {}
  {
    result := w.Initialize(true, true);
  }

  method AskRefines(w: W.Worker, c: Config, ghost s: State, t: nat) returns (effect: W.Effect, ghost s': State)
    requires Represents(w, s) && Enabled(s, Ask(t))
    modifies w`freeJobs, w`freeWaitingThreadOffset, w`chain, w.jobs, w.waitingThreads
    ensures s' == Apply(c, s, Ask(t)) && Represents(w, s')
    ensures effect.Continues? <==> s'.phases[t].Holding?
    ensures effect.Suspends? <==> s'.phases[t].Waiting?
    ensures effect.Throws? <==> s'.phases[t].Idle?
  {
    s' := DoAsk(s, t);
    var job;
    job, effect := w.AllocateJob(t);
  }

  /** What the invariant says about the job of a thread, as the worker object needs it. */
  lemma OwnedJob(w: W.Worker, c: Config, s: State, t: nat)
    requires I.Inv(c, s) && Represents(w, s) && t < |s.phases| && Owns(s.phases[t])
    ensures 0 <= s.phases[t].job < w.jobCount && s.phases[t].job !in w.chain
  {
    PP.Owner(c.jobs, s.pool.free, s.phases, t);
    PP.OwnerJob(c, s, t);
  }

  /** A native writes the parameters of its job. */
  method FillRefines(w: W.Worker, c: Config, ghost s: State, t: nat, job: int, call: Call) returns (ghost s': State)
    requires I.Inv(c, s) && Represents(w, s) && Enabled(s, Fill(t)) && s.phases[t] == Holding(call, job)
    modifies w.slots
    ensures s' == Apply(c, s, Fill(t)) && Represents(w, s')
  {
    hide I.PoolInv, I.FlowInv, I.DataInv, I.CountInv;
    OwnedJob(w, c, s, t);
    s' := DoFill(c, s, t);
    w.WriteParams(job, c.fill(call, w.slots[job]));
  }

  /** free_job, as a refused native and an on-done callback call it. */
  method FreeRefines(w: W.Worker, c: Config, ghost s: State, t: nat, job: int)
    returns (resumed: Option<int>, ghost s': State)
    requires I.Inv(c, s) && Represents(w, s) && t < |s.phases| && Owns(s.phases[t]) && job == s.phases[t].job
    modifies w`freeJobs, w`waitingThreadOffset, w`chain, w.jobs
    ensures s' == FreeAndReturn(s, t) && Represents(w, s')
    ensures s'.phases == ResumeWaiter(s.phases[t := Idle], resumed)
  {
    hide I.PoolInv, I.FlowInv, I.DataInv, I.CountInv;
    OwnedJob(w, c, s, t);
    s' := FreeAndReturn(s, t);
    resumed := w.FreeJob(job);
  }

  method PostRefines(w: W.Worker, c: Config, ghost s: State, t: nat, job: int, action: int, malloc: Q.Malloc)
    returns (result: W.Status, ghost s': State)
    requires I.Inv(c, s) && Represents(w, s) && Enabled(s, PostOk(t))
    requires job == s.phases[t].job && action == s.phases[t].call.action
    modifies w.jobs, w.jobsQueue, w.jobsQueue.waitingMsg, w.jobsQueue.waitingMsg.repr
    ensures s' == (if malloc.Allocated? then Apply(c, s, PostOk(t)) else Stamp(s, t)) && Represents(w, s')
    ensures result.OK? <==> malloc.Allocated?
    ensures w.jobsQueue.consumer == Q.Signalled(old(w.jobsQueue.consumer))
    ensures fresh(w.jobsQueue.waitingMsg.repr - old(w.jobsQueue.waitingMsg.repr))
  {
    hide I.PoolInv, I.FlowInv, I.DataInv, I.CountInv;
    OwnedJob(w, c, s, t);
    Q.EntryIsSafe(w.jobsQueue.Abs(), Q.Post(job, malloc));
    s' := if malloc.Allocated? then DoPostOk(s, t) else Stamp(s, t);
    var effect;
    result, effect := w.AsyncExec(job, t, action, malloc);
  }

  /** The jobs in the queue exist. */
  lemma QueuedJob(w: W.Worker, c: Config, s: State)
    requires I.Inv(c, s) && Represents(w, s) && s.queue != []
    ensures 0 <= s.queue[0] < w.jobCount
  {
    T.QueueIsDistinct(c, s);
  }

  lemma FetchShows(pool: Pool, records: seq<Record>, q: Q.Queue, s: State)
    requires Shows(pool, records, q, s) && s.task.Fetching?
    ensures Shows(pool, records, Q.Apply(q, Q.FetchEntry(q)), if s.queue == [] then s else DoFetch(s))
    ensures Q.Apply(q, Q.FetchEntry(q)).consumer ==
            if s.queue == [] && q.consumer.Outside? then Q.Blocked(false) else Q.Outside
  {
    Q.EntryIsSafe(q, Q.FetchEntry(q));
  }

  /** A fetch, an execution and a wake: one job leaves the queue, its record is as its action leaves it, and the
      thread of the record is answered. */
  lemma RoundShows(pool: Pool, records: seq<Record>, q: Q.Queue, c: Config, s: State)
    requires Shows(pool, records, q, s) && Enabled(s, Fetch) && 0 <= s.queue[0] < |s.records|
    ensures Enabled(DoFetch(s), Execute) && Enabled(DoExecute(c, DoFetch(s)), Wake)
    ensures var r := records[s.queue[0]];
            var out := c.run(r.action, s.fs, r.params);
            var s' := DoWake(DoExecute(c, DoFetch(s)));
            && Shows(pool, records[s.queue[0] := r.(params := out.1)], Q.Apply(q, Q.FetchEntry(q)), s')
            && s'.fs == out.0 && s'.phases == ResumeOwner(s.phases, r.thread)
  {
    FetchShows(pool, records, q, s);
  }

  /** The fetch takes the protocol's step when a job is pending, whether the worker comes to the queue or is woken
      in the wait; without one it puts the worker to sleep, or lets it go on without a job, and changes nothing else. */
  method FetchRefines(w: W.Worker, c: Config, ghost s: State) returns (fetched: O.Fetched, ghost s': State)
    requires Represents(w, s) && s.task.Fetching?
    modifies w.jobsQueue, w.jobsQueue.waitingMsg
    ensures w.jobsQueue.waitingMsg.repr == old(w.jobsQueue.waitingMsg.repr)
    ensures s' == (if s.queue == [] then s else Apply(c, s, Fetch)) && Represents(w, s')
    ensures s.queue != [] ==> fetched.Message? && s'.task == Fetched(fetched.data) && w.jobsQueue.consumer.Outside?
    ensures s.queue == [] && old(w.jobsQueue.consumer.Outside?) ==>
              fetched.Asleep? && w.jobsQueue.consumer == Q.Blocked(false)
    ensures s.queue == [] && old(w.jobsQueue.consumer.Blocked?) ==>
              fetched.NoMessage? && w.jobsQueue.consumer.Outside?
  {
    hide Q.Apply, Q.Safe;
    FetchShows(w.Abs(), w.Records(), w.jobsQueue.Abs(), s);
    fetched := w.FetchJob();
    s' := if s.queue == [] then s else DoFetch(s);
  }

  method ExecuteRefines(w: W.Worker, c: Config, ghost s: State, job: int, fs: FileSystem)
    returns (fs': FileSystem, ghost s': State)
    requires Represents(w, s) && Enabled(s, Execute) && job == s.task.job && fs == s.fs
    modifies w.slots
    ensures s' == Apply(c, s, Execute) && Represents(w, s') && fs' == s'.fs
  {
    s' := DoExecute(c, s);
    fs' := w.ExecuteJob(job, fs, c.run);
  }

  /** The thread the worker resumes is the one the protocol answers. */
  method WakeRefines(w: W.Worker, c: Config, ghost s: State, job: int) returns (resumed: int, ghost s': State)
    requires Represents(w, s) && Enabled(s, Wake) && job == s.task.job
    ensures s' == Apply(c, s, Wake) && Represents(w, s')
    ensures DoWake(s).phases == ResumeOwner(s.phases, resumed) && resumed == s.records[job].thread
  {
    s' := DoWake(s);
    resumed := w.jobs[job].threadId;
  }

  /** One round of the worker loop is a fetch, an execution and a wake; on an empty queue it is falling asleep, or
      waking up without a job. */
  method LoopRefines(w: W.Worker, c: Config, ghost s: State, fs: FileSystem)
    returns (fs': FileSystem, round: W.Round, ghost s': State)
    requires I.Inv(c, s) && Represents(w, s) && s.task.Fetching? && fs == s.fs
    modifies w.slots, w.jobsQueue, w.jobsQueue.waitingMsg
    ensures Represents(w, s') && fs' == s'.fs
    ensures s.queue == [] ==> s' == s && round == if old(w.jobsQueue.consumer.Outside?) then W.FellAsleep else W.NoJob
    ensures s.queue != [] ==>
              && Enabled(s, Fetch) && Enabled(DoFetch(s), Execute) && Enabled(DoExecute(c, DoFetch(s)), Wake)
              && s' == DoWake(DoExecute(c, DoFetch(s)))
              && round.Resumed? && s'.phases == ResumeOwner(s.phases, round.thread)
  {
    hide I.Inv, Q.Apply, Q.Safe;
    FetchShows(w.Abs(), w.Records(), w.jobsQueue.Abs(), s);
    if s.queue != [] {
      QueuedJob(w, c, s);
      RoundShows(w.Abs(), w.Records(), w.jobsQueue.Abs(), c, s);
    }
    fs', round := w.LoopRound(fs, c.run);
    s' := if s.queue == [] then s else DoWake(DoExecute(c, DoFetch(s)));
  }

  // ---- Whole runs ----------------------------------------------------------------------------

  /** Phases, history and file system are not the worker object's business. */
  lemma SameToWorker(w: W.Worker, s: State, s': State)
    requires Represents(w, s)
    requires s'.pool == s.pool && s'.records == s.records && s'.queue == s.queue && s'.task == s.task
    ensures Represents(w, s')
  {
  }

  /** A post that fails: stamped, thrown, and freed by the native. */
  method PostFailsRefines(w: W.Worker, c: Config, ghost s: State, t: nat, job: int, action: int, malloc: Q.Malloc)
    returns (ghost s': State)
    requires I.Inv(c, s) && Represents(w, s) && Enabled(s, PostFails(t)) && !malloc.Allocated?
    requires job == s.phases[t].job && action == s.phases[t].call.action
    modifies w`freeJobs, w`waitingThreadOffset, w`chain, w.jobs
    modifies w.jobsQueue, w.jobsQueue.waitingMsg, w.jobsQueue.waitingMsg.repr
    ensures s' == Apply(c, s, PostFails(t)) && Represents(w, s')
    ensures w.jobsQueue.consumer == Q.Signalled(old(w.jobsQueue.consumer))
    ensures fresh(w.jobsQueue.waitingMsg.repr - old(w.jobsQueue.waitingMsg.repr))
  {
    hide I.Inv, Represents, FreeAndReturn;
    ghost var s1, s2;
    var result, resumed;
    result, s1 := PostRefines(w, c, s, t, job, action, malloc);
    S.StampKeepsInv(c, s, t);
    resumed, s2 := FreeRefines(w, c, s1, t, job);
    s' := DoPostFails(s, t);
    SameToWorker(w, s2, s');
  }

  lemma HasQueue(w: W.Worker, s: State)
    requires Represents(w, s)
    ensures w.jobsQueue != null
  {
  }

  /** A refused native frees the job it holds. */
  method RejectRefines(w: W.Worker, c: Config, ghost s: State, t: nat, job: int)
    returns (resumed: Option<int>, ghost s': State)
    requires I.Inv(c, s) && Represents(w, s) && Enabled(s, Reject(t)) && job == s.phases[t].job
    modifies w`freeJobs, w`waitingThreadOffset, w`chain, w.jobs
    ensures s' == Apply(c, s, Reject(t)) && Represents(w, s')
    ensures s'.phases == ResumeWaiter(s.phases[t := Idle], resumed)
  {
    hide I.Inv, Represents, FreeAndReturn;
    ghost var s1;
    resumed, s1 := FreeRefines(w, c, s, t, job);
    s' := DoReject(s, t);
    SameToWorker(w, s1, s');
  }

  /** An on-done callback frees the job it was called with. */
  method OnDoneRefines(w: W.Worker, c: Config, ghost s: State, t: nat, job: int)
    returns (resumed: Option<int>, ghost s': State)
    requires I.Inv(c, s) && Represents(w, s) && Enabled(s, OnDone(t)) && job == s.phases[t].job
    modifies w`freeJobs, w`waitingThreadOffset, w`chain, w.jobs
    ensures s' == Apply(c, s, OnDone(t)) && Represents(w, s')
    ensures s'.phases == ResumeWaiter(s.phases[t := Idle], resumed)
  {
    hide I.Inv, Represents, FreeAndReturn;
    ghost var s1;
    resumed, s1 := FreeRefines(w, c, s, t, job);
    s' := DoOnDone(s, t);
    SameToWorker(w, s1, s');
  }

  /** Beginning a call and returning from a native leave the worker object alone. */
  lemma ReturnRefines(w: W.Worker, c: Config, s: State, e: Event)
    requires Represents(w, s) && Enabled(s, e) && (e.Begin? || e.Suspend?)
    ensures Represents(w, Apply(c, s, e))
  {
    hide Represents;
    SameToWorker(w, s, Apply(c, s, e));
  }

  /** Every event of the protocol is a call that takes the worker object along. */
  method StepRefines(w: W.Worker, c: Config, s: State, e: Event)
    requires I.Inv(c, s) && Represents(w, s) && Enabled(s, e)
    modifies w`freeJobs, w`freeWaitingThreadOffset, w`waitingThreadOffset, w`chain, w.jobs, w.slots, w.waitingThreads
    modifies w.jobsQueue, w.jobsQueue.waitingMsg, w.jobsQueue.waitingMsg.repr
    ensures Represents(w, Apply(c, s, e))
    ensures w.jobsQueue != null && w.jobsQueue.consumer == V.ConsumerAfter(old(w.jobsQueue.consumer), e)
    ensures fresh(w.jobsQueue.waitingMsg.repr - old(w.jobsQueue.waitingMsg.repr))
  {
    hide I.Inv, Represents, Apply;
    HasQueue(w, s);
    ghost var g;
    match e
    case Begin(_, _) => ReturnRefines(w, c, s, e);
    case Ask(t) =>
      var effect;
      effect, g := AskRefines(w, c, s, t);
    case Fill(t) => g := FillRefines(w, c, s, t, s.phases[t].job, s.phases[t].call);
    case Reject(t) =>
      var resumed;
      resumed, g := RejectRefines(w, c, s, t, s.phases[t].job);
    case PostOk(t) =>
      var result;
      result, g := PostRefines(w, c, s, t, s.phases[t].job, s.phases[t].call.action, Q.Allocated);
    case PostFails(t) => g := PostFailsRefines(w, c, s, t, s.phases[t].job, s.phases[t].call.action, Q.OutOfMemory);
    case Suspend(_) => ReturnRefines(w, c, s, e);
    case OnDone(t) =>
      var resumed;
      resumed, g := OnDoneRefines(w, c, s, t, s.phases[t].job);
    case Fetch =>
      var fetched;
      fetched, g := FetchRefines(w, c, s);
    case Execute =>
      var fs;
      fs, g := ExecuteRefines(w, c, s, s.task.job, s.fs);
    case Wake =>
      var resumed;
      resumed, g := WakeRefines(w, c, s, s.task.job);
  }

  /** The object w stores what the world x says. */
  ghost predicate Follows(w: W.Worker, x: V.World)
    reads w, w.jobs, w.slots, w.waitingThreads, w.jobsQueue,
          if w.jobsQueue == null then {} else {w.jobsQueue.waitingMsg},
          if w.jobsQueue == null then {} else w.jobsQueue.waitingMsg.repr
  {
    Represents(w, x.state) && w.jobsQueue != null && w.jobsQueue.consumer == x.consumer
  }

  /** Every move, of the protocol or of the worker in the wait, takes the worker object along. */
  method MoveRefines(w: W.Worker, c: Config, x: V.World, m: V.Move)
    requires I.Inv(c, x.state) && Follows(w, x) && V.CanMove(x, m)
    modifies w`freeJobs, w`freeWaitingThreadOffset, w`waitingThreadOffset, w`chain, w.jobs, w.slots, w.waitingThreads
    modifies w.jobsQueue, w.jobsQueue.waitingMsg, w.jobsQueue.waitingMsg.repr
    ensures Follows(w, V.Do(c, x, m))
    ensures w.jobsQueue != null
    ensures fresh(w.jobsQueue.waitingMsg.repr - old(w.jobsQueue.waitingMsg.repr))
  {
    hide I.Inv, Represents, Apply, Enabled;
    match m
    case Take(e) => StepRefines(w, c, x.state, e);
    case Sleep => var fetched := WaitRefines(w, c, x.state);
    case WakeOnNothing =>
      WaiterFetches(w, x);
      var fetched := WaitRefines(w, c, x.state);
      assert fetched.NoMessage?;
  }

  /** A worker in the wait is one that fetches. */
  lemma WaiterFetches(w: W.Worker, x: V.World)
    requires Follows(w, x) && x.consumer.Blocked?
    ensures x.state.task.Fetching?
  {
  }

  /** The fetch on an empty queue: falling asleep, or OSAL_OK without a job. */
  method WaitRefines(w: W.Worker, c: Config, s: State) returns (fetched: O.Fetched)
    requires Represents(w, s) && s.task.Fetching? && s.queue == [] && w.jobsQueue != null
    modifies w.jobsQueue, w.jobsQueue.waitingMsg
    ensures Represents(w, s)
    ensures w.jobsQueue.waitingMsg.repr == old(w.jobsQueue.waitingMsg.repr)
    ensures if old(w.jobsQueue.consumer.Outside?) then fetched.Asleep? && w.jobsQueue.consumer == Q.Blocked(false)
            else fetched.NoMessage? && w.jobsQueue.consumer.Outside?
  {
    hide Represents;
    ghost var g;
    fetched, g := FetchRefines(w, c, s);
  }

  /** Over whole runs: whatever path the calls, the worker task and its waits take, the worker object ends up with what
      the protocol says, so every theorem about reachable states is one about its links, offsets, slots and queue
      nodes.  As long as no post fails while the worker sleeps on an empty queue, its fetches never return OSAL_OK
      without a job. */
  method RunRefines(w: W.Worker, c: Config, ms: seq<V.Move>) returns (x: V.World)
    requires Follows(w, V.Start(c)) && V.IsPath(c, V.Start(c), ms)
    modifies w`freeJobs, w`freeWaitingThreadOffset, w`waitingThreadOffset, w`chain, w.jobs, w.slots, w.waitingThreads
    modifies w.jobsQueue, w.jobsQueue.waitingMsg, w.jobsQueue.waitingMsg.repr
    ensures x == V.PathTo(c, V.Start(c), ms) && Reachable(c, x.state) && Follows(w, x)
    ensures V.NoPostFailsAsleep(c, V.Start(c), ms) ==> !x.lost
  {
    hide I.Inv, Follows, Represents, Reachable, Init, V.CanMove, V.Do;
    x := V.Start(c);
    FollowerHasQueue(w, x);
    T.InitHasInv(c);
    var k := 0;
    assert ms[0..] == ms;
    while k < |ms|
      invariant 0 <= k <= |ms| && I.Inv(c, x.state) && Follows(w, x)
      invariant V.IsPath(c, x, ms[k..]) && V.PathTo(c, x, ms[k..]) == V.PathTo(c, V.Start(c), ms)
      invariant fresh(w.jobsQueue.waitingMsg.repr - old(w.jobsQueue.waitingMsg.repr))
    {
      assert ms[k..][1..] == ms[k + 1..];
      V.MoveKeepsInv(c, x, ms[k]);
      MoveRefines(w, c, x, ms[k]);
      x := V.Do(c, x, ms[k]);
      k := k + 1;
    }
    V.PathIsReachable(c, ms);
    V.SignalMeansMessageIff(c, ms);
  }

  lemma FollowerHasQueue(w: W.Worker, x: V.World)
    requires Follows(w, x)
    ensures w.jobsQueue != null
  {
  }
}
