/** The asynchronous worker as a step system: Java threads that call a native, the virtual machine
    task that allocates, posts and frees jobs on their behalf, and the worker task that executes
    them.  Every interleaving of the two tasks is a sequence of events. */
module Protocol {
  import opened Bags
  import opened WorkerSpec

  /** The words of a job's parameter union. */
  type Params = seq<int>
  type ActionId = int
  type FileSystem = map<int, seq<int>>

  /** What a Java thread asks for: the action to execute and the native's own arguments. */
  datatype Call = Call(action: ActionId, args: Params)

  /** A worker and its clients.  `run` is what an action does to the file system and to the parameters
      of its job; `fill` is what a native writes over the old content of the parameter slot. */
  datatype Config = Config(
    jobs: nat,
    capacity: nat,
    threads: nat,
    fs: FileSystem,
    run: (ActionId, FileSystem, Params) -> (FileSystem, Params),
    fill: (Call, Params) -> Params)

  /** Where a Java thread stands.
      - Fresh, Retry: its native is about to ask for a job, for the first time or after a resume
      - Waiting: suspended, its id is in the waiting list
      - Holding, Filled: the native holds a job, before and after it wrote the parameters
      - Posted: the job is posted, the suspend has not taken effect yet; a resume is remembered
      - Suspended: waits for the worker
      - Done: resumed, its on-done callback is about to run
      `ticket` numbers the posts. */
  datatype Phase =
    | Idle
    | Fresh(call: Call)
    | Waiting(call: Call)
    | Retry(call: Call)
    | Holding(call: Call, job: int)
    | Filled(call: Call, job: int)
    | Posted(call: Call, job: int, ticket: int, woken: bool)
    | Suspended(call: Call, job: int, ticket: int)
    | Done(call: Call, job: int, ticket: int)

  /** The worker task: blocked in the fetch, holding a fetched job, or about to resume its owner. */
  datatype Task = Fetching | Fetched(job: int) | Ran(job: int)

  datatype Record = Record(params: Params, action: ActionId, thread: int)

  /** One successful post, with the parameters the job carried at that moment. */
  datatype Post = Post(call: Call, job: int, thread: int, action: ActionId, params: Params)

  /** One on-done callback, with the parameters it read. */
  datatype Return = Return(call: Call, thread: int, ticket: int, params: Params)

  /** `posts`, `answers`, `calls` and `failures` record the history of the run; no step looks at them. */
  datatype State = State(
    pool: Pool,
    records: seq<Record>,
    queue: seq<int>,
    task: Task,
    phases: seq<Phase>,
    fs: FileSystem,
    posts: seq<Post>,
    answers: seq<Return>,
    calls: nat,
    failures: nat)

  datatype Event =
    | Begin(thread: nat, call: Call)   // a Java thread calls a native
    | Ask(thread: nat)                 // allocate_job
    | Fill(thread: nat)                // the native writes the parameters
    | Reject(thread: nat)              // path too long, array check failed: free_job
    | PostOk(thread: nat)              // async_exec, the post succeeds
    | PostFails(thread: nat)           // async_exec, the post fails: exception, then free_job
    | Suspend(thread: nat)             // the native returns
    | OnDone(thread: nat)              // on-done callback: read the result, free_job
    | Fetch                            // worker: the queue delivers a job
    | Execute                          // worker: job->_intern.action(job)
    | Wake                             // worker: resume job->_intern.thread_id

  predicate Owns(p: Phase) {
    p.Holding? || p.Filled? || p.Posted? || p.Suspended? || p.Done?
  }

  predicate HasTicket(p: Phase) {
    p.Posted? || p.Suspended? || p.Done?
  }

  /** Posted and not yet resumed by the worker. */
  predicate Unanswered(p: Phase) {
    (p.Posted? && !p.woken) || p.Suspended?
  }

  function JobOf(t: int, p: Phase): multiset<int> { if Owns(p) then multiset{p.job} else multiset{} }

  function WaiterOf(t: int, p: Phase): multiset<int> { if p.Waiting? then multiset{t} else multiset{} }

  function TicketOf(t: int, p: Phase): multiset<int> { if HasTicket(p) then multiset{p.ticket} else multiset{} }

  function IsRetry(p: Phase): nat { if p.Retry? then 1 else 0 }

  function IsOutstanding(p: Phase): nat { if p.Idle? then 0 else 1 }

  function Init(c: Config): State {
    State(Pool(InOrder(c.jobs), [], c.capacity), seq(c.jobs, i => Record([], 0, 0)), [], Fetching,
          seq(c.threads, i => Idle), c.fs, [], [], 0, 0)
  }

  predicate Enabled(s: State, e: Event) {
    match e
    case Begin(t, _) => t < |s.phases| && s.phases[t].Idle?
    case Ask(t) => t < |s.phases| && (s.phases[t].Fresh? || s.phases[t].Retry?)
    case Fill(t) => t < |s.phases| && s.phases[t].Holding?
    case Reject(t) => t < |s.phases| && (s.phases[t].Holding? || s.phases[t].Filled?)
    case PostOk(t) => t < |s.phases| && s.phases[t].Filled?
    case PostFails(t) => t < |s.phases| && s.phases[t].Filled?
    case Suspend(t) => t < |s.phases| && s.phases[t].Posted?
    case OnDone(t) => t < |s.phases| && s.phases[t].Done?
    case Fetch => s.task.Fetching? && s.queue != []
    case Execute => s.task.Fetched? && 0 <= s.task.job < |s.records|
    case Wake => s.task.Ran? && 0 <= s.task.job < |s.records|
  }

  /** SNI_resumeJavaThread by free_job: only a thread suspended in the waiting list reacts. */
  function ResumeWaiter(phases: seq<Phase>, who: Option<int>): seq<Phase> {
    match who
    case None => phases
    case Some(u) =>
      if 0 <= u < |phases| && phases[u].Waiting? then phases[u := Retry(phases[u].call)] else phases
  }

  /** SNI_resumeJavaThread by the worker: a resume before the suspend is remembered. */
  function ResumeOwner(phases: seq<Phase>, u: int): seq<Phase> {
    if !(0 <= u < |phases|) then phases
    else match phases[u]
      case Posted(call, job, ticket, _) => phases[u := Posted(call, job, ticket, true)]
      case Suspended(call, job, ticket) => phases[u := Done(call, job, ticket)]
      case _ => phases
  }

  /** free_job on behalf of thread t, whose native or callback then returns to Java. */
  function FreeAndReturn(s: State, t: nat): State
    requires t < |s.phases| && Owns(s.phases[t])
  {
    var (pool, who) := Release(s.pool, s.phases[t].job);
    s.(pool := pool, phases := ResumeWaiter(s.phases[t := Idle], who))
  }

  function WithRecord(s: State, j: int, r: Record): State {
    if 0 <= j < |s.records| then s.(records := s.records[j := r]) else s
  }

  function RecordOf(s: State, j: int): Record {
    if 0 <= j < |s.records| then s.records[j] else Record([], 0, 0)
  }

  function DoAsk(s: State, t: nat): State
    requires Enabled(s, Ask(t))
  {
    var call := s.phases[t].call;
    var (pool, grant) := Allocate(s.pool, t);
    match grant
    case Granted(j) => s.(pool := pool, phases := s.phases[t := Holding(call, j)])
    case MustWait => s.(pool := pool, phases := s.phases[t := Waiting(call)])
    case ListFull => s.(pool := pool, phases := s.phases[t := Idle], failures := s.failures + 1)
  }

  function DoFill(c: Config, s: State, t: nat): State
    requires Enabled(s, Fill(t))
  {
    var Holding(call, j) := s.phases[t];
    var r := RecordOf(s, j);
    WithRecord(s, j, r.(params := c.fill(call, r.params))).(phases := s.phases[t := Filled(call, j)])
  }

  function DoReject(s: State, t: nat): State
    requires Enabled(s, Reject(t))
  {
    FreeAndReturn(s, t).(failures := s.failures + 1)
  }

  /** The two fields async_exec writes before it posts. */
  function Stamp(s: State, t: nat): State
    requires Enabled(s, PostOk(t))
  {
    var j := s.phases[t].job;
    WithRecord(s, j, RecordOf(s, j).(action := s.phases[t].call.action, thread := t))
  }

  function DoPostOk(s: State, t: nat): State
    requires Enabled(s, PostOk(t))
  {
    var Filled(call, j) := s.phases[t];
    Stamp(s, t).(
      queue := s.queue + [j],
      posts := s.posts + [Post(call, j, t, call.action, RecordOf(s, j).params)],
      phases := s.phases[t := Posted(call, j, |s.posts|, false)])
  }

  function DoPostFails(s: State, t: nat): State
    requires Enabled(s, PostFails(t))
  {
    FreeAndReturn(Stamp(s, t), t).(failures := s.failures + 1)
  }

  function DoSuspend(s: State, t: nat): State
    requires Enabled(s, Suspend(t))
  {
    var Posted(call, j, ticket, woken) := s.phases[t];
    s.(phases := s.phases[t := if woken then Done(call, j, ticket) else Suspended(call, j, ticket)])
  }

  function DoOnDone(s: State, t: nat): State
    requires Enabled(s, OnDone(t))
  {
    var Done(call, j, ticket) := s.phases[t];
    FreeAndReturn(s, t).(answers := s.answers + [Return(call, t, ticket, RecordOf(s, j).params)])
  }

  function DoFetch(s: State): State
    requires Enabled(s, Fetch)
  {
    s.(queue := s.queue[1..], task := Fetched(s.queue[0]))
  }

  function DoExecute(c: Config, s: State): State
    requires Enabled(s, Execute)
  {
    var j := s.task.job;
    var r := s.records[j];
    var (fs, params) := c.run(r.action, s.fs, r.params);
    s.(fs := fs, records := s.records[j := r.(params := params)], task := Ran(j))
  }

  function DoWake(s: State): State
    requires Enabled(s, Wake)
  {
    s.(phases := ResumeOwner(s.phases, s.records[s.task.job].thread), task := Fetching)
  }

  function Apply(c: Config, s: State, e: Event): State
    requires Enabled(s, e)
  {
    match e
    case Begin(t, call) => s.(phases := s.phases[t := Fresh(call)], calls := s.calls + 1)
    case Ask(t) => DoAsk(s, t)
    case Fill(t) => DoFill(c, s, t)
    case Reject(t) => DoReject(s, t)
    case PostOk(t) => DoPostOk(s, t)
    case PostFails(t) => DoPostFails(s, t)
    case Suspend(t) => DoSuspend(s, t)
    case OnDone(t) => DoOnDone(s, t)
    case Fetch => DoFetch(s)
    case Execute => DoExecute(c, s)
    case Wake => DoWake(s)
  }

  /** Every event of the run is enabled when its turn comes. */
  predicate IsRun(c: Config, s: State, es: seq<Event>)
    decreases |es|
  {
    es == [] || (Enabled(s, es[0]) && IsRun(c, Apply(c, s, es[0]), es[1..]))
  }

  function RunTo(c: Config, s: State, es: seq<Event>): State
    requires IsRun(c, s, es)
    decreases |es|
  {
    if es == [] then s else RunTo(c, Apply(c, s, es[0]), es[1..])
  }

  ghost predicate Reachable(c: Config, s: State) {
    exists es :: IsRun(c, Init(c), es) && RunTo(c, Init(c), es) == s
  }

  /** The reference the protocol is measured against: the posted actions executed one after the other,
      each on its own parameters, giving the final file system and the parameters each one left. */
  function Sequential(c: Config, posts: seq<Post>): (FileSystem, seq<Params>) {
    if posts == [] then (c.fs, [])
    else
      var (fs, outs) := Sequential(c, posts[..|posts| - 1]);
      var last := posts[|posts| - 1];
      var (fs', out) := c.run(last.action, fs, last.params);
      (fs', outs + [out])
  }

  /** How many of the posted actions have been executed. */
  function Executed(s: State): int {
    |s.posts| - |s.queue| - (if s.task.Fetched? then 1 else 0)
  }
}
