/** The file system natives as clients of the worker: from the allocation of a job, over the parameters and
    the post, to the on-done callback that frees it. */
module LlfsClient {
  import opened WorkerSpec
  import opened Chains
  import opened JobChain
  import R = WaitingRing
  import W = AsyncWorker
  import Q = OsalQueueSpec
  import P = Protocol

  const FS_PATH_LENGTH := 64
  const NEW_PATH_OFFSET := 68
  const LLFS_NOK := -1

  /** How a native leaves: suspended until a job is free, with the exception "waiting list is full", returned with
      its job freed again (with or without an exception pending), or suspended with its job posted. */
  datatype Entry = AwaitsJob | ListFullThrown | Refused(thrown: bool) | Submitted(job: int)

  /** How an on-done callback leaves: what it returns, whether it threw, and whom the freed job woke. */
  datatype Exit = Exit(result: int, thrown: bool, resumed: Option<int>)

  /** What a native leaves in the parameters of its job, and whether it posts the job or refuses its arguments. */
  datatype Filled = Filled(params: P.Params, accepted: bool)

  /** A store of bytes into the parameters, which are zero as far as nothing was written. */
  function WriteAt(slot: P.Params, offset: nat, bytes: seq<int>): (r: P.Params)
    ensures |r| >= offset + |bytes| && r[offset..offset + |bytes|] == bytes
    ensures forall i :: 0 <= i < |slot| && !(offset <= i < offset + |bytes|) ==> i < |r| && r[i] == slot[i]
  {
    var end := offset + |bytes|;
    var padded := if |slot| < end then slot + seq(end - |slot|, _ => 0) else slot;
    padded[..offset] + bytes + padded[end..]
  }

  /** LLFS_set_path_param: a path that is too long for the parameter leaves it alone. */
  function SetPathParam(slot: P.Params, offset: nat, path: seq<int>): (r: Filled)
    ensures r.accepted <==> |path| <= 64
    ensures !r.accepted ==> r.params == slot
    ensures r.accepted ==> HasPath(r.params, offset, path)
    ensures r.accepted ==>
              forall i :: 0 <= i < |slot| && !(offset <= i < offset + |path|) ==>
                            i < |r.params| && r.params[i] == slot[i]
  {
    if |path| > FS_PATH_LENGTH then Filled(slot, false) else Filled(WriteAt(slot, offset, path), true)
  }

  predicate HasPath(params: P.Params, offset: nat, path: seq<int>) {
    |params| >= offset + |path| && params[offset..offset + |path|] == path
  }

  /** The parameters of rename: both paths, or the first one only when the second is too long. */
  function SetRenameParams(slot: P.Params, path: seq<int>, newPath: seq<int>): (r: Filled)
    ensures r.accepted <==> |path| <= 64 && |newPath| <= 64
    ensures |path| > 64 ==> r.params == slot
    ensures |path| <= 64 ==> HasPath(r.params, 0, path)
    ensures r.accepted ==> HasPath(r.params, 68, newPath)
  {
    var first := SetPathParam(slot, 0, path);
    if !first.accepted then first
    else
      var second := SetPathParam(first.params, NEW_PATH_OFFSET, newPath);
      assert second.accepted ==> second.params[0..|path|] == first.params[0..|path|];
      second
  }

  /** A worker that serves file system natives. */
  ghost predicate Ready(w: W.Worker)
    reads w, w.jobs, w.jobsQueue, if w.jobsQueue == null then {} else {w.jobsQueue.waitingMsg},
          if w.jobsQueue == null then {} else w.jobsQueue.waitingMsg.repr
  {
    w.Valid() && w.jobsQueue != null && w.jobsQueue.Valid()
  }

  /** The pool after a native left: nothing changes, or the thread waits, or exactly one job is gone, or the job
      came and went and the first waiting thread was woken. */
  ghost predicate PoolAfter(before: Pool, after: Pool, thread: int, e: Entry) {
    match e
    case AwaitsJob => before.free == [] && after == before.(waiting := before.waiting + [thread])
    case ListFullThrown => before.free == [] && after == before
    case Refused(_) =>
      before.free != [] && after == before.(waiting := if before.waiting == [] then [] else before.waiting[1..])
    case Submitted(j) => before.free != [] && j == before.free[0] && after == before.(free := before.free[1..])
  }

  /** Allocating and freeing again gives the pool back, but for the thread that is woken. */
  lemma AllocateThenRelease(before: Pool, thread: int)
    requires before.free != []
    ensures PoolAfter(before, Release(Allocate(before, thread).0, before.free[0]).0, thread, Refused(true))
    ensures PoolAfter(before, Release(Allocate(before, thread).0, before.free[0]).0, thread, Refused(false))
  {
    assert [before.free[0]] + before.free[1..] == before.free;
  }

  /** The tail every native has: async_exec, and free_job when the post failed. */
  method ExecOrFree(w: W.Worker, job: int, thread: int, action: int, malloc: Q.Malloc) returns (posted: bool)
    requires Ready(w) && 0 <= job < w.jobCount && job !in w.chain
    modifies w`freeJobs, w`waitingThreadOffset, w`chain, w.jobs
    modifies w.jobsQueue, w.jobsQueue.waitingMsg, w.jobsQueue.waitingMsg.repr
    ensures Ready(w) && (posted <==> malloc.Allocated?)
    ensures fresh(w.jobsQueue.waitingMsg.repr - old(w.jobsQueue.waitingMsg.repr))
    ensures w.Abs() == if posted then old(w.Abs()) else Release(old(w.Abs()), job).0
    ensures w.jobsQueue.Abs() == Q.Apply(old(w.jobsQueue.Abs()), Q.Post(job, malloc))
    ensures w.Records() == old(w.Records())[job := P.Record(old(w.slots[job]), action, thread)]
  {
    hide Chained, Addressed, Release, Q.Apply, R.Contents;
    var status, _ := w.AsyncExec(job, thread, action, malloc);
    posted := status == W.OK;
    if !posted {
      var _ := w.FreeJob(job);
    }
  }

  /** The records after a native left: job j, the first free one, got what the native wrote, and with it action and
      thread unless the arguments were refused.  Nothing else changes. */
  ghost predicate RecordsAfter(before: seq<P.Record>, after: seq<P.Record>, j: int, filled: Filled, thread: int,
                               action: int)
    requires 0 <= j < |before|
  {
    after == before[j := if filled.accepted then P.Record(filled.params, action, thread)
                         else before[j].(params := filled.params)]
  }

  /** How a native that got job j leaves: refused if it did not accept its arguments, otherwise posted if the message
      finds memory. */
  ghost predicate Served(j: int, filled: Filled, throws: bool, thread: int, action: int, malloc: Q.Malloc, e: Entry,
                         before: seq<P.Record>, after: seq<P.Record>, queue: Q.Queue, queue': Q.Queue)
    requires 0 <= j < |before|
  {
    && e == (if !filled.accepted then Refused(throws) else if malloc.Allocated? then Submitted(j) else Refused(true))
    && RecordsAfter(before, after, j, filled, thread, action)
    && queue' == (if filled.accepted then Q.Apply(queue, Q.Post(j, malloc)) else queue)
  }

  /** What a native does with the job it got: check the arguments and fill the parameters, post, and free the
      job again if either went wrong. */
  method FillAndPost(w: W.Worker, job: int, thread: int, fill: P.Params -> Filled, throws: bool,
                     action: int, malloc: Q.Malloc)
    returns (e: Entry)
    requires Ready(w) && 0 <= job < w.jobCount && job !in w.chain
    modifies w`freeJobs, w`waitingThreadOffset, w`chain, w.jobs, w.slots
    modifies w.jobsQueue, w.jobsQueue.waitingMsg, w.jobsQueue.waitingMsg.repr
    ensures Ready(w)
    ensures Served(job, fill(old(w.Records())[job].params), throws, thread, action, malloc, e,
                   old(w.Records()), w.Records(), old(w.jobsQueue.Abs()), w.jobsQueue.Abs())
    ensures e == Submitted(job) || e.Refused?
    ensures w.Abs() == if e.Submitted? then old(w.Abs()) else Release(old(w.Abs()), job).0
    ensures fresh(w.jobsQueue.waitingMsg.repr - old(w.jobsQueue.waitingMsg.repr))
  {
    hide Chained, Addressed, Release, Q.Apply, R.Contents;
    var filled := fill(w.slots[job]);
    w.WriteParams(job, filled.params);
    if !filled.accepted {
      var _ := w.FreeJob(job);
      return Refused(throws);
    }
    var posted := ExecOrFree(w, job, thread, action, malloc);
    return if posted then Submitted(job) else Refused(true);
  }

  lemma FirstJob(w: W.Worker)
    requires w.Valid()
    ensures w.chain != [] ==> 0 <= w.chain[0] < w.jobCount
  {
  }

  /** The shape of every native: allocate a job, then fill and post it.  `fill` says what it writes and whether it
      accepts its arguments, `throws` whether it throws an exception of its own when it does not. */
  method ExecJob(w: W.Worker, thread: int, fill: P.Params -> Filled, throws: bool, action: int, malloc: Q.Malloc)
    returns (e: Entry)
    requires Ready(w)
    modifies w`freeJobs, w`waitingThreadOffset, w`freeWaitingThreadOffset, w`chain, w.jobs, w.waitingThreads, w.slots
    modifies w.jobsQueue, w.jobsQueue.waitingMsg, w.jobsQueue.waitingMsg.repr
    ensures Ready(w) && PoolAfter(old(w.Abs()), w.Abs(), thread, e)
    ensures old(w.chain) == [] ==>
              && e == (if |old(w.Waiting())| >= w.waitingThreadsLength - 1 then ListFullThrown else AwaitsJob)
              && w.Records() == old(w.Records()) && w.jobsQueue.Abs() == old(w.jobsQueue.Abs())
    ensures old(w.chain) != [] ==>
              var j := old(w.chain)[0];
              && 0 <= j < w.jobCount
              && Served(j, fill(old(w.Records())[j].params), throws, thread, action, malloc, e,
                        old(w.Records()), w.Records(), old(w.jobsQueue.Abs()), w.jobsQueue.Abs())
    ensures fresh(w.jobsQueue.waitingMsg.repr - old(w.jobsQueue.waitingMsg.repr))
  {
    hide Chained, Addressed, Served, R.Contents;
    FirstJob(w);
    var job, effect := w.AllocateJob(thread);
    if job == NULL {
      return if effect.Suspends? then AwaitsJob else ListFullThrown;
    }
    AllocateThenRelease(old(w.Abs()), thread);
    e := FillAndPost(w, job, thread, fill, throws, action, malloc);
  }

  /** A posted job carries the native's own action and thread. */
  ghost predicate PostedAs(w: W.Worker, e: Entry, action: int, thread: int)
    reads w, w.jobs
  {
    e.Submitted? ==>
      && 0 <= e.job < w.jobs.Length
      && w.jobs[e.job].action == action && w.jobs[e.job].threadId == thread
  }

  /** The natives with a path whose refusal is silent: LLFS_async_exec_path_job and LLFS_allocate_path_job. */
  method PathJob(w: W.Worker, thread: int, path: seq<int>, action: int, malloc: Q.Malloc) returns (e: Entry)
    requires Ready(w)
    modifies w`freeJobs, w`waitingThreadOffset, w`freeWaitingThreadOffset, w`chain, w.jobs, w.waitingThreads, w.slots
    modifies w.jobsQueue, w.jobsQueue.waitingMsg, w.jobsQueue.waitingMsg.repr
    ensures Ready(w) && PoolAfter(old(w.Abs()), w.Abs(), thread, e)
    ensures PostedAs(w, e, action, thread)
    ensures w.jobsQueue.waitingMsg.contents ==
            old(w.jobsQueue.waitingMsg.contents) + if e.Submitted? then [e.job] else []
    ensures e.Submitted? <==> old(w.chain) != [] && |path| <= FS_PATH_LENGTH && malloc.Allocated?
    ensures e == Refused(false) <==> old(w.chain) != [] && |path| > FS_PATH_LENGTH
    ensures e == Refused(false) ==> w.Records() == old(w.Records())
    ensures e.Submitted? ==> 0 <= e.job < w.jobCount && HasPath(w.slots[e.job], 0, path)
  {
    e := ExecJob(w, thread, slot => SetPathParam(slot, 0, path), false, action, malloc);
    if e.Submitted? { RecordAt(w, e.job); }
  }

  /** LLFS_IMPL_create and LLFS_File_IMPL_open: a path that is too long throws. */
  method CreateOrOpen(w: W.Worker, thread: int, path: seq<int>, action: int, malloc: Q.Malloc) returns (e: Entry)
    requires Ready(w)
    modifies w`freeJobs, w`waitingThreadOffset, w`freeWaitingThreadOffset, w`chain, w.jobs, w.waitingThreads, w.slots
    modifies w.jobsQueue, w.jobsQueue.waitingMsg, w.jobsQueue.waitingMsg.repr
    ensures Ready(w) && PoolAfter(old(w.Abs()), w.Abs(), thread, e)
    ensures PostedAs(w, e, action, thread)
    ensures w.jobsQueue.waitingMsg.contents ==
            old(w.jobsQueue.waitingMsg.contents) + if e.Submitted? then [e.job] else []
    ensures e.Submitted? <==> old(w.chain) != [] && |path| <= FS_PATH_LENGTH && malloc.Allocated?
    ensures e.Refused? ==> e.thrown
    ensures e.Submitted? ==> 0 <= e.job < w.jobCount && HasPath(w.slots[e.job], 0, path)
  {
    e := ExecJob(w, thread, slot => SetPathParam(slot, 0, path), true, action, malloc);
    if e.Submitted? { RecordAt(w, e.job); }
  }

  /** LLFS_IMPL_rename_to: either path too long is refused silently. */
  method RenameTo(w: W.Worker, thread: int, path: seq<int>, newPath: seq<int>, action: int, malloc: Q.Malloc)
    returns (e: Entry)
    requires Ready(w)
    modifies w`freeJobs, w`waitingThreadOffset, w`freeWaitingThreadOffset, w`chain, w.jobs, w.waitingThreads, w.slots
    modifies w.jobsQueue, w.jobsQueue.waitingMsg, w.jobsQueue.waitingMsg.repr
    ensures Ready(w) && PoolAfter(old(w.Abs()), w.Abs(), thread, e)
    ensures PostedAs(w, e, action, thread)
    ensures w.jobsQueue.waitingMsg.contents ==
            old(w.jobsQueue.waitingMsg.contents) + if e.Submitted? then [e.job] else []
    ensures e.Submitted? <==>
              old(w.chain) != [] && |path| <= FS_PATH_LENGTH && |newPath| <= FS_PATH_LENGTH && malloc.Allocated?
    ensures e == Refused(false) <==> old(w.chain) != [] && (|path| > FS_PATH_LENGTH || |newPath| > FS_PATH_LENGTH)
    ensures e.Submitted? ==>
              && 0 <= e.job < w.jobCount
              && HasPath(w.slots[e.job], 0, path) && HasPath(w.slots[e.job], NEW_PATH_OFFSET, newPath)
  {
    e := ExecJob(w, thread, slot => SetRenameParams(slot, path, newPath), false, action, malloc);
    if e.Submitted? { RecordAt(w, e.job); }
  }

  lemma RecordAt(w: W.Worker, j: int)
    requires w.jobs.Length == w.slots.Length && 0 <= j < w.jobs.Length
    ensures w.Records()[j] == P.Record(w.slots[j], w.jobs[j].action, w.jobs[j].threadId)
  {
  }

  /** The on-done callback of an owned job: reads the result, throws for LLFS_NOK if `throws`, and frees the job
      on both paths (LLFS_async_exec_path_result, LLFS_IMPL_create_on_done, LLFS_File_IMPL_open_on_done). */
  method OnDone(w: W.Worker, job: int, resultOf: P.Params -> int, throws: bool) returns (x: Exit)
    requires w.Valid() && 0 <= job < w.jobCount && job !in w.chain
    modifies w`freeJobs, w`waitingThreadOffset, w`chain, w.jobs
    ensures w.Valid() && w.Records() == old(w.Records())
    ensures w.Abs() == Release(old(w.Abs()), job).0 && x.resumed == Release(old(w.Abs()), job).1
    ensures x.result == resultOf(old(w.slots[job])) && (x.thrown <==> throws && x.result == -1)
  {
    var result := resultOf(w.slots[job]);
    var thrown := false;
    if throws && result == LLFS_NOK {
      thrown := true;
    }
    var resumed := w.FreeJob(job);
    return Exit(result, thrown, resumed);
  }
}
