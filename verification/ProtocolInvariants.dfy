/** The inductive invariant of the step system, in six parts. */
module ProtocolInvariants {
  import opened Bags
  import opened Protocol

  ghost predicate Shape(c: Config, s: State) {
    && |s.phases| == c.threads
    && |s.records| == c.jobs
    && s.pool.capacity == c.capacity
    && |s.pool.waiting| <= c.capacity
  }

  /** Every job is on the free list once, or is owned by one thread; nothing is lost or doubled. */
  ghost predicate Ownership(jobs: nat, free: seq<int>, phases: seq<Phase>) {
    multiset(free) + Bag(JobOf, phases) == Below(jobs)
  }

  /** The waiting list holds exactly the waiting threads, and each free job beside a non-empty waiting
      list is matched by a thread that was resumed and has not retried yet. */
  ghost predicate Wakeups(free: seq<int>, waiting: seq<int>, phases: seq<Phase>) {
    && multiset(waiting) == Bag(WaiterOf, phases)
    && (waiting != [] ==> |free| <= Sum(IsRetry, phases))
  }

  /** The thread of phase p is the thread of post p.ticket, which posted p.job for p.call. */
  ghost predicate PostMatches(posts: seq<Post>, t: int, p: Phase)
    requires HasTicket(p)
  {
    && 0 <= p.ticket < |posts|
    && posts[p.ticket].thread == t
    && posts[p.ticket].call == p.call
    && posts[p.ticket].job == p.job
  }

  /** The thread behind post number i is still unanswered. */
  ghost predicate Pending(posts: seq<Post>, phases: seq<Phase>, i: int)
    requires 0 <= i < |posts|
  {
    var t := posts[i].thread;
    && 0 <= t < |phases|
    && Unanswered(phases[t])
    && phases[t].ticket == i
  }

  /** How many posts have been answered: all but those queued and the one with the worker. */
  function Answered(posts: seq<Post>, queue: seq<int>, task: Task): int {
    |posts| - |queue| - (if task.Fetching? then 0 else 1)
  }

  /** Each ticket belongs to its thread, and the unanswered threads are those of the posts from `answered` on. */
  ghost predicate Tickets(answered: int, posts: seq<Post>, phases: seq<Phase>) {
    && 0 <= answered <= |posts|
    && (forall t :: 0 <= t < |phases| && HasTicket(phases[t]) ==>
          PostMatches(posts, t, phases[t]) && (Unanswered(phases[t]) <==> answered <= phases[t].ticket))
    && (forall i :: answered <= i < |posts| ==> Pending(posts, phases, i))
  }

  /** The queue is the tail of the posts, and the worker holds the post just before it. */
  ghost predicate QueueIsTail(posts: seq<Post>, queue: seq<int>, task: Task) {
    && 0 <= Answered(posts, queue, task)
    && (forall k :: 0 <= k < |queue| ==> queue[k] == posts[|posts| - |queue| + k].job)
    && (!task.Fetching? ==> task.job == posts[|posts| - |queue| - 1].job)
  }

  ghost predicate Written(c: Config, call: Call, params: Params) {
    exists stale :: params == c.fill(call, stale)
  }

  ghost predicate PostWritten(c: Config, e: Post) {
    e.action == e.call.action && Written(c, e.call, e.params)
  }

  /** What the sequential execution leaves in the parameters of post number i. */
  function OutputOf(c: Config, posts: seq<Post>, i: int): Params {
    var outs := Sequential(c, posts).1;
    if 0 <= i < |outs| then outs[i] else []
  }

  /** The record of a posted job: as posted until it is executed, as the sequential execution leaves it
      afterwards.  Owner, action and parameters do not change hands. */
  ghost predicate RecordMatches(c: Config, r: Record, posts: seq<Post>, executed: int, i: int)
    requires 0 <= i < |posts|
  {
    && r.thread == posts[i].thread
    && r.action == posts[i].action
    && r.params == if i < executed then OutputOf(c, posts, i) else posts[i].params
  }

  ghost predicate PhaseMemory(c: Config, records: seq<Record>, posts: seq<Post>, executed: int, p: Phase) {
    && (Owns(p) ==> 0 <= p.job < |records|)
    && (HasTicket(p) ==> 0 <= p.ticket < |posts| && RecordMatches(c, records[p.job], posts, executed, p.ticket))
    && (p.Filled? ==> Written(c, p.call, records[p.job].params))
  }

  ghost predicate Memory(c: Config, records: seq<Record>, posts: seq<Post>, executed: int, phases: seq<Phase>) {
    forall t :: 0 <= t < |phases| ==> PhaseMemory(c, records, posts, executed, phases[t])
  }

  ghost predicate AllWritten(c: Config, posts: seq<Post>) {
    forall i :: 0 <= i < |posts| ==> PostWritten(c, posts[i])
  }

  ghost predicate ReturnMatches(c: Config, posts: seq<Post>, executed: int, r: Return) {
    && 0 <= r.ticket < executed
    && r.ticket < |posts|
    && posts[r.ticket].thread == r.thread
    && posts[r.ticket].call == r.call
    && r.params == OutputOf(c, posts, r.ticket)
  }

  /** The file system is the sequential execution of the executed posts, and so is what was returned. */
  ghost predicate Results(c: Config, fs: FileSystem, posts: seq<Post>, executed: int, answers: seq<Return>) {
    && 0 <= executed <= |posts|
    && fs == Sequential(c, posts[..executed]).0
    && (forall k :: 0 <= k < |answers| ==> ReturnMatches(c, posts, executed, answers[k]))
  }

  function ReturnTicket(k: int, r: Return): multiset<int> { multiset{r.ticket} }

  /** Every post has been returned once or is still held by the thread that will return it. */
  ghost predicate TicketsKept(n: nat, answers: seq<Return>, phases: seq<Phase>) {
    Bag(ReturnTicket, answers) + Bag(TicketOf, phases) == Below(n)
  }

  /** Every call has returned, failed or is outstanding. */
  ghost predicate CallsKept(s: State) {
    s.calls == |s.answers| + s.failures + Sum(IsOutstanding, s.phases)
  }

  ghost predicate PoolInv(c: Config, s: State) {
    && Shape(c, s)
    && Ownership(c.jobs, s.pool.free, s.phases)
    && Wakeups(s.pool.free, s.pool.waiting, s.phases)
  }

  ghost predicate FlowInv(c: Config, s: State) {
    && Tickets(Answered(s.posts, s.queue, s.task), s.posts, s.phases)
    && QueueIsTail(s.posts, s.queue, s.task)
  }

  ghost predicate DataInv(c: Config, s: State) {
    && Memory(c, s.records, s.posts, Executed(s), s.phases)
    && AllWritten(c, s.posts)
    && Results(c, s.fs, s.posts, Executed(s), s.answers)
  }

  ghost predicate CountInv(c: Config, s: State) {
    && TicketsKept(|s.posts|, s.answers, s.phases)
    && CallsKept(s)
  }

  ghost predicate Inv(c: Config, s: State) {
    PoolInv(c, s) && FlowInv(c, s) && DataInv(c, s) && CountInv(c, s)
  }
}
