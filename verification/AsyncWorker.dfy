/** The worker as the C code keeps it: static arrays of jobs and parameter slots, a free list threaded
    through the jobs, and the circular array of waiting threads.  A job pointer is an index into the array of
    jobs; `slots[j]` is the content of the parameter union that `jobs[j].params` points to. */
module AsyncWorker {
  import opened WorkerSpec
  import opened Bags
  import opened Chains
  import opened JobChain
  import R = WaitingRing
  import Q = OsalQueueSpec
  import O = OsalQueue
  import P = Protocol

  datatype Status = OK | ERROR | INVALID_ARGS

  /** What a native does to its Java thread besides returning. */
  datatype Effect = Continues | Suspends | Throws

  /** How a round of the worker loop ends: with a thread resumed, asleep in the fetch, or with OSAL_OK and no job, where
      the code runs the action behind an indeterminate pointer. */
  datatype Round = Resumed(thread: int) | FellAsleep | NoJob

  class Worker {
    const jobCount: int
    const params: int
    const paramsSizeof: int
    const waitingThreadsLength: int
    const jobs: array<Job>
    const slots: array<P.Params>
    const waitingThreads: array<int>
    var freeJobs: int
    var waitingThreadOffset: nat
    var freeWaitingThreadOffset: nat
    var jobsQueue: O.OsalQueue?
    ghost var chain: seq<int>

    /** What the declaration macro lays out. */
    ghost predicate Declared()
      reads this
    {
      && jobs.Length == slots.Length && (jobCount > 0 ==> jobs.Length == jobCount)
      && (waitingThreadsLength > 0 ==> waitingThreads.Length == waitingThreadsLength)
      && freeJobs == 0 && waitingThreadOffset == 0 && freeWaitingThreadOffset == 0
    }

    ghost predicate ValidJobs()
      reads this`freeJobs, this`chain, jobs
    {
      && 0 < jobCount == jobs.Length == slots.Length
      && Chained(jobs[..], freeJobs, chain)
      && Addressed(jobs[..], params, paramsSizeof)
    }

    ghost predicate ValidRing()
      reads this`waitingThreadOffset, this`freeWaitingThreadOffset
    {
      && 0 < waitingThreadsLength == waitingThreads.Length <= R.OFFSETS
      && waitingThreadOffset < waitingThreadsLength && freeWaitingThreadOffset < waitingThreadsLength
    }

    ghost predicate Valid()
      reads this, jobs
    {
      ValidJobs() && ValidRing()
    }

    ghost function Ring(): R.Ring
      reads this`waitingThreadOffset, this`freeWaitingThreadOffset, waitingThreads
    {
      R.Ring(waitingThreads[..], waitingThreadOffset, freeWaitingThreadOffset)
    }

    ghost function Waiting(): seq<int>
      requires ValidRing()
      reads this`waitingThreadOffset, this`freeWaitingThreadOffset, waitingThreads
    {
      R.Contents(Ring())
    }

    /** Free jobs and waiting threads, as the protocol sees them. */
    ghost function Abs(): Pool
      requires ValidRing()
      reads this`waitingThreadOffset, this`freeWaitingThreadOffset, this`chain, waitingThreads
    {
      Pool(chain, Waiting(), waitingThreadsLength - 1)
    }

    ghost function Records(): seq<P.Record>
      requires jobs.Length == slots.Length
      reads jobs, slots
    {
      RecordsOf(jobs[..], slots[..])
    }

    /** MICROEJ_ASYNC_WORKER_initialize; the flags say whether queue and task could be created. */
    method Initialize(queueCreated: bool, taskCreated: bool) returns (result: Status)
      requires Declared()
      modifies this, jobs
      ensures result.INVALID_ARGS? <==> jobCount <= 0 || waitingThreadsLength <= 0
      ensures !result.INVALID_ARGS? ==> (result.OK? <==> queueCreated && taskCreated)
      ensures !result.INVALID_ARGS? ==> ValidJobs() && chain == InOrder(jobCount) && Records() == old(Records())
      ensures !result.INVALID_ARGS? ==>
                && jobs[0].params == params
                && forall j :: 0 < j < jobCount ==> jobs[j].params == jobs[j - 1].params + paramsSizeof
      ensures result.OK? ==> jobsQueue != null && jobsQueue.Valid() && jobsQueue.Abs() == Q.CREATED
      ensures result.OK? ==> fresh(jobsQueue) && fresh(jobsQueue.waitingMsg) && jobsQueue.waitingMsg.repr == {}
      ensures result.OK? && waitingThreadsLength <= R.OFFSETS ==>
                Valid() && Abs() == Pool(InOrder(jobCount), [], waitingThreadsLength - 1)
    {
      if jobCount <= 0 || waitingThreadsLength <= 0 {
        return INVALID_ARGS;
      }
      LinkJobs();
      if !queueCreated {
        return ERROR;
      }
      jobsQueue := new O.OsalQueue(jobCount);
      if !taskCreated {
        return ERROR;
      }
      return OK;
    }

    /** The linking loop of initialize. */
    method LinkJobs()
      requires Declared() && jobCount > 0
      modifies this`chain, jobs
      ensures ValidJobs() && chain == InOrder(jobCount) && Records() == old(Records())
      ensures jobs[0].params == params
      ensures forall j :: 0 < j < jobCount ==> jobs[j].params == jobs[j - 1].params + paramsSizeof
    {
      var address := params;
      var i := 0;
      while i < jobCount - 1
        invariant 0 <= i <= jobCount - 1
        invariant address == SlotAddress(params, paramsSizeof, i)
        invariant forall j :: 0 <= j < i ==>
                    jobs[j].nextFreeJob == j + 1 && jobs[j].params == SlotAddress(params, paramsSizeof, j)
        invariant Records() == old(Records())
      {
        StampOnly(jobs[..], slots[..], i, jobs[i].(nextFreeJob := i + 1, params := address));
        jobs[i] := jobs[i].(nextFreeJob := i + 1, params := address);
        address := address + paramsSizeof;
        i := i + 1;
      }
      StampOnly(jobs[..], slots[..], jobCount - 1, jobs[jobCount - 1].(nextFreeJob := NULL, params := address));
      jobs[jobCount - 1] := jobs[jobCount - 1].(nextFreeJob := NULL, params := address);
      ChainAll(jobs[..]);
      SlotsLaidOut(jobs[..], params, paramsSizeof);
      assert forall j :: 0 < j < jobCount ==> jobs[..][j].params == jobs[..][j - 1].params + paramsSizeof;
      chain := InOrder(jobCount);
    }

    /** MICROEJ_ASYNC_WORKER_allocate_job on behalf of `thread`. */
    method AllocateJob(thread: int) returns (job: int, effect: Effect)
      requires Valid()
      modifies this`freeJobs, this`freeWaitingThreadOffset, this`chain, jobs, waitingThreads
      ensures Valid()
      ensures Abs() == Allocate(old(Abs()), thread).0
      ensures match Allocate(old(Abs()), thread).1
              case Granted(j) => job == j && effect.Continues?
              case MustWait => job == NULL && effect.Suspends?
              case ListFull => job == NULL && effect.Throws?
      ensures job != NULL ==> 0 <= job < jobCount && job !in chain
      ensures Records() == old(Records())
    {
      job := freeJobs;
      if job == NULL {
        effect := Enlist(thread);
      } else {
        Unlink(job);
        effect := Continues;
      }
    }

    /** allocate_job without a free job: the thread goes into the waiting list or gets an exception. */
    method Enlist(thread: int) returns (effect: Effect)
      requires ValidRing()
      modifies this`freeWaitingThreadOffset, waitingThreads
      ensures ValidRing()
      ensures effect == if |old(Waiting())| >= waitingThreadsLength - 1 then Throws else Suspends
      ensures Waiting() == if effect.Throws? then old(Waiting()) else old(Waiting()) + [thread]
    {
      ghost var before := Ring();
      R.PutAppends(before, thread);
      var offset := freeWaitingThreadOffset;
      var following := offset + 1;
      if following >= waitingThreadsLength {
        following := 0;
      }
      if following == waitingThreadOffset {
        effect := Throws;
      } else {
        freeWaitingThreadOffset := R.ToU16(following);
        waitingThreads[offset] := thread;
        effect := Suspends;
        assert Ring() == R.Put(before, thread).value;
      }
    }

    /** allocate_job with a free job: takes it off the list. */
    method Unlink(job: int)
      requires ValidJobs() && job == freeJobs != NULL
      modifies this`freeJobs, this`chain, jobs
      ensures ValidJobs() && old(chain) != [] && job == old(chain)[0] && chain == old(chain)[1..]
      ensures 0 <= job < jobCount && job !in chain
      ensures Records() == old(Records())
    {
      ChainPop(jobs[..], freeJobs, chain);
      freeJobs := jobs[job].nextFreeJob;
      jobs[job] := jobs[job].(nextFreeJob := NULL);
      chain := chain[1..];
      assert jobs[..] == old(jobs[..])[job := old(jobs[job]).(nextFreeJob := NULL)];
    }

    /** MICROEJ_ASYNC_WORKER_free_job; `resumed` is the thread handed to SNI_resumeJavaThread. */
    method FreeJob(job: int) returns (resumed: Option<int>)
      requires Valid() && 0 <= job < jobCount && job !in chain
      modifies this`freeJobs, this`waitingThreadOffset, this`chain, jobs
      ensures Valid()
      ensures Abs() == Release(old(Abs()), job).0 && resumed == Release(old(Abs()), job).1
      ensures Records() == old(Records())
    {
      ChainPush(jobs[..], freeJobs, chain, job);
      jobs[job] := jobs[job].(nextFreeJob := freeJobs);
      freeJobs := job;
      chain := [job] + chain;
      assert jobs[..] == old(jobs[..])[job := old(jobs[job]).(nextFreeJob := old(freeJobs))];
      resumed := Delist();
    }

    /** free_job, second half: takes the longest waiting thread off the waiting list. */
    method Delist() returns (resumed: Option<int>)
      requires ValidRing()
      modifies this`waitingThreadOffset
      ensures ValidRing()
      ensures old(Waiting()) == [] ==> resumed == None && Waiting() == []
      ensures old(Waiting()) != [] ==> resumed == Some(old(Waiting())[0]) && Waiting() == old(Waiting())[1..]
    {
      ghost var before := Ring();
      R.TakeRemoves(before);
      resumed := None;
      var offset := waitingThreadOffset;
      if offset != freeWaitingThreadOffset {
        resumed := Some(waitingThreads[offset]);
        var following := offset + 1;
        if following >= waitingThreadsLength {
          following := 0;
        }
        waitingThreadOffset := R.ToU16(following);
        assert Ring() == R.Take(before).value.0;
      }
    }

    /** A native writes the parameters of the job it holds. */
    method WriteParams(job: int, params: P.Params)
      requires jobs.Length == slots.Length && 0 <= job < jobs.Length
      modifies slots
      ensures slots[job] == params
      ensures Records() == old(Records())[job := old(Records())[job].(params := params)]
    {
      slots[job] := params;
      assert slots[..] == old(slots[..])[job := params];
    }

    /** MICROEJ_ASYNC_WORKER_async_exec on behalf of `thread`. */
    method AsyncExec(job: int, thread: int, action: int, malloc: Q.Malloc) returns (result: Status, effect: Effect)
      requires Valid() && 0 <= job < jobCount && jobsQueue != null && jobsQueue.Valid()
      modifies jobs, jobsQueue, jobsQueue.waitingMsg, jobsQueue.waitingMsg.repr
      ensures Valid() && jobsQueue.Valid()
      ensures fresh(jobsQueue.waitingMsg.repr - old(jobsQueue.waitingMsg.repr))
      ensures jobsQueue.Abs() == Q.Apply(old(jobsQueue.Abs()), Q.Post(job, malloc))
      ensures result == (if malloc.Allocated? then OK else ERROR)
      ensures effect == if malloc.Allocated? then Suspends else Throws
      ensures Records() == old(Records())[job := P.Record(old(slots[job]), action, thread)]
    {
      jobs[job] := jobs[job].(action := action, threadId := thread);
      assert jobs[..] == old(jobs[..])[job := old(jobs[job]).(action := action, threadId := thread)];
      var res := jobsQueue.Post(job, malloc);
      if res.OK? {
        return OK, Suspends;
      } else {
        return ERROR, Throws;
      }
    }

    /** The fetch of MICROEJ_ASYNC_WORKER_loop, which starts at the queue or goes on after a wait that did not fail.
        On an empty list it falls asleep in the first case and returns OSAL_OK without a job in the second. */
    method FetchJob() returns (fetched: O.Fetched)
      requires jobsQueue != null && jobsQueue.Valid()
      modifies jobsQueue, jobsQueue.waitingMsg
      ensures jobsQueue.Valid()
      ensures jobsQueue.Abs() == Q.Apply(old(jobsQueue.Abs()), Q.FetchEntry(old(jobsQueue.Abs())))
      ensures jobsQueue.waitingMsg.repr == old(jobsQueue.waitingMsg.repr)
      ensures var pending := old(jobsQueue.waitingMsg.contents);
              if pending != [] then fetched == O.Message(pending[0]) && jobsQueue.waitingMsg.contents == pending[1..]
              else fetched == (if old(jobsQueue.consumer.Outside?) then O.Asleep else O.NoMessage)
                   && jobsQueue.waitingMsg.contents == []
    {
      if jobsQueue.consumer.Outside? {
        fetched := jobsQueue.FetchOrWait(true);
      } else {
        fetched := jobsQueue.FetchAfterWait(false);
      }
    }

    /** The action of a fetched job runs on the file system and on the job's own parameters. */
    method ExecuteJob(job: int, fs: P.FileSystem, run: (P.ActionId, P.FileSystem, P.Params) -> (P.FileSystem, P.Params))
      returns (fs': P.FileSystem)
      requires jobs.Length == slots.Length && 0 <= job < jobs.Length
      modifies slots
      ensures var r := old(Records())[job];
              && fs' == run(r.action, fs, r.params).0
              && Records() == old(Records())[job := r.(params := run(r.action, fs, r.params).1)]
    {
      var (after, out) := run(jobs[job].action, fs, slots[job]);
      fs' := after;
      slots[job] := out;
      assert slots[..] == old(slots[..])[job := out];
    }

    /** One round of MICROEJ_ASYNC_WORKER_loop, from the top or out of the wait: with a message pending, the oldest
        job is taken off the queue, its action runs, and the thread in the job's record is resumed; with none, the
        task falls asleep in the fetch, or goes on without a job. */
    method LoopRound(fs: P.FileSystem, run: (P.ActionId, P.FileSystem, P.Params) -> (P.FileSystem, P.Params))
      returns (fs': P.FileSystem, round: Round)
      requires Valid() && jobsQueue != null && jobsQueue.Valid()
      requires jobsQueue.waitingMsg.contents != [] ==> 0 <= jobsQueue.waitingMsg.contents[0] < jobCount
      modifies slots, jobsQueue, jobsQueue.waitingMsg
      ensures Valid() && Abs() == old(Abs()) && jobsQueue.Valid()
      ensures jobsQueue.Abs() == Q.Apply(old(jobsQueue.Abs()), Q.FetchEntry(old(jobsQueue.Abs())))
      ensures old(jobsQueue.waitingMsg.contents) == [] ==>
                && round == (if old(jobsQueue.consumer.Outside?) then FellAsleep else NoJob)
                && fs' == fs && Records() == old(Records()) && jobsQueue.waitingMsg.contents == []
      ensures old(jobsQueue.waitingMsg.contents) != [] ==>
                var j := old(jobsQueue.waitingMsg.contents)[0];
                var r := old(Records())[j];
                && jobsQueue.waitingMsg.contents == old(jobsQueue.waitingMsg.contents)[1..]
                && fs' == run(r.action, fs, r.params).0
                && Records() == old(Records())[j := r.(params := run(r.action, fs, r.params).1)]
                && round == Resumed(r.thread)
    {
      var fetched := FetchJob();
      match fetched
      case Asleep => return fs, FellAsleep;
      case NoMessage => return fs, NoJob;
      case Message(job) =>
        fs' := ExecuteJob(job, fs, run);
        round := Resumed(jobs[job].threadId);
    }
  }
}
