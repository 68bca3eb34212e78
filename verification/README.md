# Verified model of the asynchronous worker and what rests on it

The native layer of this VEE port runs blocking work in a worker task while Java threads are suspended. This
project models that protocol and the data structures and clients around it in Dafny 4.11, and proves what holds
in every interleaving. `dafny verify dfyconfig.toml` checks everything.

## How the model is built

**The protocol** (`Protocol*.dfy`). A Java thread is idle, about to ask for a job (fresh or retrying), waiting,
holding a job, holding a filled job, posted, suspended, or answered. Eleven events move threads, the pool of jobs,
the queue, the worker task and the file system. Events of the virtual machine task and of the worker task
interleave freely, also between the post and the suspend of one native. An action is any function of the file
system and the job's parameters (`Config.run`), and a native may overwrite any part of the old parameters
(`Config.fill`), so the results hold for every action and every native. Fields named `posts`, `answers`, `calls` and
`failures` are history; no event reads them.

- `ProtocolInvariants` states the inductive invariant, `ProtocolPool`, `ProtocolFlow`, `ProtocolData`, `ProtocolCount`
  and `ProtocolSteps` show that every event keeps it.
- `ProtocolTheorems`, `ProtocolBounds`, `ProtocolJobs`, `ProtocolCalls`, `ProtocolDraining` and `ProtocolRefinement` draw
  the conclusions over all runs.

**The worker object** (`AsyncWorker`, `JobChain`, `WaitingRing`) keeps the arrays, links and offsets of the C code; a
pointer into a static array is an index. Its methods are proved against the two functions of `WorkerSpec`, which the
protocol uses too. `WorkerRuns` joins the protocol with the wait in the queue: the worker task sleeps on an empty queue,
every post signals it, also one that fails, and a worker woken on an empty queue is lost, because it goes on without a
job. `WorkerRefinement` shows that each call takes exactly the protocol's step, and that the object follows every such run.

**The transport** (`OsalQueueSpec`, `OsalQueue`) is the OSAL queue: a chain of allocated nodes and a condition
variable, with failing allocations, spurious wake-ups and timeouts.

**The clients** (`LlfsClient`) are the file system natives and their on-done callbacks; `ClientRuns` says what each
turn of a client does and what becomes of its call, and `LlfsRefinement` shows that any interleaving of them with
the worker task, which may run between any two calls into the worker, is a run of the protocol with the wait.
`ArrayAccess` and `FileSkip` model the byte transfer and the position arithmetic under them, `MicroejList` (with
`ListPool`, `ListSpec`, `Chains`) the list over a static pool of nodes, `AudioStream` and `AudioControl` the audio
player. `Bags` counts over sequences.

## Assumptions

- The virtual machine task runs one native at a time, and the worker task does not touch the free list or the waiting
  list, so each call into the worker by a native is one event.
- A resume that arrives between the post and the suspend of `async_exec` is remembered, and nothing else resumes a
  thread suspended by the worker.
- The wait of the worker task does not time out or end without a signal, and its deadline can be computed.
  `OsalQueueSpec.OkAlwaysDeliversIff` says what these faults do to the transport. The signal of a failed add is not
  assumed away.
- `microej_list_initialize` is called on a freshly declared (zeroed) list; list calls are atomic, items are not NULL,
  predicates are pure.
- `off_t` and `long` have 32 bits and files have at most INT32_MAX bytes.
- The FIFO of the audio subsystem takes an offer completely or not at all, and read() answers 0 only at the end of the
  file, which does not change while it is played. The virtual machine does not stop the player, which closes the file and
  clears the FIFO, in the middle of a refill.
- There is one audio player thread: `Java_audio_player_initialize` is called once, and again only after a close.

## Where the code and its promises differ

- `OSAL_queue_fetch` returns OSAL_OK without a message after a timeout, a spurious wake-up, a signal for a failed add, or
  when the deadline cannot be computed; the worker loop then uses a job pointer it did not get
  (`OsalQueueSpec.OkDeliversIff`, `OsalQueueSpec.OkAlwaysDeliversIff`, `OsalQueueSpec.TimeoutReturnsOkEmpty`).
- In particular a post that fails for want of memory while the worker sleeps on an empty queue wakes it, and it is lost.
  Until then a signal means a message: in every state of a run exactly when no post of the run fails like that
  (`WorkerRuns.SignalMeansMessageIff`, `WorkerRuns.LostAfterFailure`, `WorkerRuns.WorkerCanBeLost`). What is stated of whole
  runs holds up to that point, and of all runs without such a failure.
- The waiting list is a FIFO list of the declared capacity only up to 65536 slots, because the offsets are 16 bits wide
  (`WaitingRing.FifoIffOffsetsFit`).
- Skipping cuts its 64-bit argument to 32 bits and reads them without a sign (`FileSkip.OnlyLowBitsCount`): 2^32 moves
  nowhere, -1 moves to the end of the file, -2^32 nowhere (`FileSkip.SkipSaturatesIff`, `FileSkip.SkipOfFourGigabytes`,
  `FileSkip.SkipsToTheEndIff`).
- `FS_size_of_file` compares instead of assigning when its last seek fails, so it reports success with the position
  moved (`FileSkip.SizeQueryKeepsPosition`), and a skip then moves to the end and reports 0 (`FileSkip.SkipAfterFailedRestore`).
- A path that is too long throws in `create` and `open` only; the other natives return LLFS_NOK without an exception
  (`LlfsClient.PathJob`, `LlfsClient.CreateOrOpen`).
- `audio_player_pause` checks, sets IDLE and stops in three steps, so a pause from the virtual machine and the player's own
  can both stop, a file can be started before the pause of the last one stops it, and a pause can set a closed player IDLE
  (`AudioControl.DoubleStop`, `AudioControl.StartBeforeStop`, `AudioControl.StartWhenClosed`,
  `AudioControl.StartsMatchStopsIff`, `AudioControl.StatusTellsIff`).

## Model

| member | source | states |
|---|---|---|
| ProtocolRefinement.AsyncRefinesSequential | microej/microej_async_worker/src/microej_async_worker.c:130-171 | in every reachable state the file system is the fold of the executed actions in post order; every on-done callback read what its own action leaves in that sequential execution, on parameters its own thread wrote for this call; no post is answered twice |
| ProtocolCalls.AnswersTheCallMade | microej/microej_async_worker/src/microej_async_worker.c:130-171 | over every run, every answer is one to a call its thread made: some event began exactly the call that is answered, a later one posted it with the ticket of the answer, and up to the callback the thread made no other call and ended none |
| ProtocolCalls.PostsTheCallMade | microej/fs/src/LLFS_impl.c:75-98 | over every run, every post is one for the call its thread made last and has not ended |
| ProtocolRefinement.PostOrderRespectsRealTime | microej/microej_async_worker/src/microej_async_worker.c:130-171 | the sequential order respects real time: an answer that was there before a call was posted belongs to an earlier post |
| ProtocolRefinement.RecordsAreIsolated | microej/microej_async_worker/inc/microej_async_worker.h:228-244 | while a thread owns a job, only its own events and the execution of that job write the job's record, and the job is executed only while its thread waits for it |
| ProtocolTheorems.ReachableInv | microej/microej_async_worker/src/microej_async_worker.c:68-171 | the inductive invariant holds in every reachable state |
| ProtocolTheorems.EachJobInOnePlace | microej/microej_async_worker/src/microej_async_worker.c:101-111 | job ownership partition: each job is in exactly one of free list, a native's hands, queue, worker, an answered thread's hands; free list and queue hold no job twice; no job has two owners |
| ProtocolBounds.NoLostWakeup | microej/microej_async_worker/src/microej_async_worker.c:68-128 | with threads waiting, the free jobs are at most the threads resumed and not yet retried; the waiting list names exactly the suspended threads, each once, within its capacity |
| ProtocolBounds.FreeJobHasTaker | microej/microej_async_worker/src/microej_async_worker.c:113-125 | a free job beside a waiting thread means some resumed thread can take it now |
| ProtocolBounds.QueueBound | microej/osal/src/osal_posix.c:261-280 | the pending messages with the one being executed never exceed the job count given at creation, although the post does not compare |
| ProtocolBounds.ListFullIff | microej/microej_async_worker/src/microej_async_worker.c:77-95 | "waiting list is full" can be thrown exactly when there are more Java threads than jobs and waiting slots together |
| ProtocolDraining.RunsEnd | microej/microej_async_worker/src/microej_async_worker.c:68-171 | from any state a run with b new calls has at most potential + 12 b events, so without new calls every run ends, however threads barge in |
| ProtocolDraining.TwelveEventsPerCall | microej/microej_async_worker/src/microej_async_worker.c:68-171 | over any whole run a call costs at most twelve events |
| ProtocolDraining.StuckMeansSettled | microej/microej_async_worker/src/microej_async_worker.c:68-171 | where a run stops every call has returned or failed, every job is free, queue and worker are empty, every post was answered once, and the file system is the sequential execution of all posts |
| ProtocolDraining.CanSettle | microej/microej_async_worker/src/microej_async_worker.c:155-171 | from every reachable state the outstanding calls can be finished without new ones |
| ProtocolDraining.NoCallAllFree | microej/microej_async_worker/src/microej_async_worker.c:101-111 | whenever no call is in progress the free list holds all jobs, and every call has returned or failed |
| ProtocolJobs.FreedExactlyOnce | microej/microej_async_worker/src/microej_async_worker.c:101-111 | over every run each job is handed out once more than freed while it is out and as often as freed when it is back: each allocated job is freed exactly once |
| ProtocolSteps.StepKeepsInv | microej/microej_async_worker/src/microej_async_worker.c:68-171 | every event of either task keeps the invariant |
| ProtocolSteps.OnDoneKeepsResults | microej/fs/src/LLFS_impl.c:129-137 | the parameters an on-done callback reads are the sequential result of its own post |
| ProtocolSteps.WakesOwner | microej/microej_async_worker/src/microej_async_worker.c:166-168 | the thread id the worker finds in the job it executed is the job's owner, still unanswered |
| ProtocolPool.Owner | microej/microej_async_worker/src/microej_async_worker.c:101-111 | an owned job exists, is not free and has one owner |
| ProtocolPool.FreeingKeepsWakeups | microej/microej_async_worker/src/microej_async_worker.c:108-128 | freeing a job resumes the first waiting thread and keeps the balance of free jobs and retrying threads |
| ProtocolPool.TakingKeepsWakeups | microej/microej_async_worker/src/microej_async_worker.c:98-105 | taking a job, by a resumed or a barging thread, keeps that balance |
| ProtocolFlow.OwnerWoken | microej/microej_async_worker/src/microej_async_worker.c:164-169 | the resume answers the oldest unanswered post and no other |
| ProtocolFlow.WorkerOwner | microej/microej_async_worker/src/microej_async_worker.c:161-168 | the job with the worker is the oldest unanswered post's |
| ProtocolData.OutputIs | microej/microej_async_worker/src/microej_async_worker.c:166-167 | the sequential result of a post is its action on what its predecessors left |
| ProtocolData.OutputStable | microej/microej_async_worker/src/microej_async_worker.c:155-171 | later posts do not change what earlier ones left |
| WorkerRefinement.InitializeRefines | microej/microej_async_worker/src/microej_async_worker.c:30-66 | a freshly initialized worker represents the protocol's initial state |
| WorkerRefinement.AskRefines | microej/microej_async_worker/src/microej_async_worker.c:68-106 | allocate_job on links and offsets takes the protocol's step, with the same effect on the thread |
| WorkerRefinement.FreeRefines | microej/microej_async_worker/src/microej_async_worker.c:108-128 | free_job on links and offsets takes the protocol's step and resumes the same thread |
| WorkerRefinement.PostRefines | microej/microej_async_worker/src/microej_async_worker.c:130-146 | async_exec takes the protocol's step, for a post that succeeds and one that fails |
| WorkerRefinement.FillRefines | microej/fs/src/LLFS_impl.c:63-65 | a native that writes the parameters of its job changes the record the protocol changes and no other |
| WorkerRefinement.FetchRefines | microej/osal/src/osal_posix.c:301-337 | the fetch takes the protocol's step with a job pending, at once or out of the wait; without one it falls asleep, or returns OSAL_OK without a job when it was in the wait, and changes nothing else |
| WorkerRefinement.WakeRefines | microej/microej_async_worker/src/microej_async_worker.c:168 | the thread the worker resumes is the one the protocol answers |
| WorkerRefinement.LoopRefines | microej/microej_async_worker/src/microej_async_worker.c:159-170 | one round of the worker loop, from the top or out of the wait, is fetch, execution and wake of the protocol; on an empty queue the task falls asleep, or goes on without a job |
| WorkerRefinement.PendingJobWakes | microej/osal/src/osal_posix.c:272-277 | with a job pending the worker task is awake or its signal is on the way |
| WorkerRefinement.PostFailsRefines | microej/fs/src/LLFS_impl.c:85-92 | a post that fails and the free that follows are the protocol's failed post |
| WorkerRefinement.MoveRefines | microej/microej_async_worker/src/microej_async_worker.c:155-171 | every event, every falling asleep and every wake-up on nothing takes the worker object along |
| WorkerRefinement.RunRefines | microej/microej_async_worker/src/microej_async_worker.c:68-171 | over every run of the protocol with the wait, links, offsets, slots, queue nodes and the waiting consumer end up as the protocol says; without a post that fails on a sleeping worker the worker is never lost |
| WorkerRuns.SignalMeansMessageIff | microej/osal/src/osal_posix.c:272-277 | in every state of a run a signalled worker finds a message, exactly when no post of the run fails while the worker sleeps on an empty queue; and then the worker is never lost |
| WorkerRuns.LostAfterFailure | microej/microej_async_worker/src/microej_async_worker.c:161-168 | right after the first such failure the worker can go on with OSAL_OK and no job |
| WorkerRuns.WorkerCanBeLost | microej/osal/src/osal_posix.c:274-276 | with one job and one thread the very first call can do that |
| WorkerRuns.WaitBlocksNothing | microej/osal/src/osal_posix.c:318-337 | no lost wake-up: until the worker is lost, the wait holds up no event the protocol allows |
| WorkerRuns.PathIsRun | microej/microej_async_worker/src/microej_async_worker.c:155-171 | runs with the wait are runs of the protocol, so all that holds in reachable states holds along them |
| WorkerRuns.PathsEnd | microej/microej_async_worker/src/microej_async_worker.c:68-171 | a run with the wait has at most 24 moves a call, and three |
| WorkerRuns.StoppedMeansSettled | microej/microej_async_worker/src/microej_async_worker.c:68-171 | where a run without such a failure stops, every call has returned or failed, every job is free, and the file system is the sequential execution of all posts |
| WorkerRuns.FreeCommutesAll | microej/fs/src/LLFS_impl.c:85-92 | the free_job after a failed post and any turns of the worker task in between do not depend on each other's order |
| AsyncWorker.Worker.Initialize | microej/microej_async_worker/src/microej_async_worker.c:30-66 | INVALID_ARGS exactly for bad counts, ERROR exactly when queue or task fail; otherwise all jobs are free in order, the first slot starts where the declared array does and each one behind the one before |
| AsyncWorker.Worker.LinkJobs | microej/microej_async_worker/src/microej_async_worker.c:39-50 | the loop links all jobs into one acyclic chain and gives the first job the start of the declared array and each job the slot behind the one before |
| AsyncWorker.Worker.AllocateJob | microej/microej_async_worker/src/microej_async_worker.c:68-106 | a job from the head of the list, or a place in the waiting list, or the exception; records stay |
| AsyncWorker.Worker.Enlist | microej/microej_async_worker/src/microej_async_worker.c:77-95 | appends to the waiting FIFO, refuses exactly at capacity |
| AsyncWorker.Worker.Unlink | microej/microej_async_worker/src/microej_async_worker.c:101-104 | takes the first job off the chain |
| AsyncWorker.Worker.FreeJob | microej/microej_async_worker/src/microej_async_worker.c:108-128 | the job goes in front of the list, the longest waiting thread is resumed |
| AsyncWorker.Worker.Delist | microej/microej_async_worker/src/microej_async_worker.c:113-125 | takes the oldest thread off the waiting FIFO, none when it is empty |
| AsyncWorker.Worker.AsyncExec | microej/microej_async_worker/src/microej_async_worker.c:130-146 | stamps action and thread into the job and appends it to the queue, or throws |
| AsyncWorker.Worker.LoopRound | microej/microej_async_worker/src/microej_async_worker.c:159-170 | the oldest pending job's action runs on its own parameters and its own thread is resumed, also when the fetch came out of the wait; on an empty queue the task falls asleep, or goes on without a job if it was in the wait |
| AsyncWorker.Worker.FetchJob | microej/osal/src/osal_posix.c:301-337 | the fetch at the queue or after the wait delivers the oldest message; with none it sleeps, or returns OSAL_OK without a message when it was in the wait |
| JobChain.ChainPop | microej/microej_async_worker/src/microej_async_worker.c:101-104 | unlinking the first job leaves an acyclic chain of the others |
| JobChain.ChainPush | microej/microej_async_worker/src/microej_async_worker.c:110-111 | linking a job in front keeps the chain acyclic |
| JobChain.SlotsLaidOut | microej/microej_async_worker/src/microej_async_worker.c:39-50 | the first slot starts at the declared array, each other one right behind the one before |
| JobChain.SlotsDisjoint | microej/microej_async_worker/src/microej_async_worker.c:39-50 | different jobs never share a byte of their parameters, and every byte of a slot lies within job count times slot size of the declared array |
| WaitingRing.PutAppends | microej/microej_async_worker/src/microej_async_worker.c:77-95 | up to 65536 slots: appends, refuses exactly with length - 1 threads waiting, wrap-around exact |
| WaitingRing.TakeRemoves | microej/microej_async_worker/src/microej_async_worker.c:113-125 | up to 65536 slots: removes the oldest thread, none exactly when empty |
| WaitingRing.WrapForgets | microej/microej_async_worker/src/microej_async_worker.c:80-91 | beyond 65536 slots: after 65536 accepted threads the ring shows none |
| WaitingRing.FifoIffOffsetsFit | microej/microej_async_worker/inc/microej_async_worker.h:172-173 | over every sequence of operations the ring is a FIFO list of capacity length - 1 exactly when the length fits the 16-bit offsets |
| OsalQueueSpec.PostedIsDeliveredThenPending | microej/osal/src/osal_posix.c:261-351 | over every run with any faults, messages posted are messages delivered followed by the pending list, and a consumer asleep without a signal faces an empty list |
| OsalQueueSpec.OkDeliversIff | microej/osal/src/osal_posix.c:305-347 | a fetch that returns has delivered a message exactly when it did not time out and found the list non-empty |
| OsalQueueSpec.OkAlwaysDeliversIff | microej/osal/src/osal_posix.c:291-351 | over a whole run every OSAL_OK delivered a message exactly when no fetch timed out, lacked a deadline on an empty list, or was woken with nothing accepted since it began to wait |
| OsalQueueSpec.TimeoutReturnsOkEmpty | microej/osal/src/osal_posix.c:321-341 | a run in which OSAL_OK comes with no message while one is pending |
| OsalQueueSpec.OkDeliversWithoutFaults | microej/osal/src/osal_posix.c:291-351 | with one consumer and no failed allocation, timeout or spurious wake-up every fetch delivers |
| OsalQueue.LinkedList.Add | microej/osal/src/osal_posix.c:730-779 | appends at the tail and counts it, or reports which way malloc failed and changes nothing |
| OsalQueue.LinkedList.Get | microej/osal/src/osal_posix.c:781-803 | unlinks the first node, nothing on an empty list; the size stays the chain length |
| OsalQueue.OsalQueue.Post | microej/osal/src/osal_posix.c:261-280 | the post is the specification's entry: added if malloc succeeds, signalled in any case |
| OsalQueue.OsalQueue.FetchOrWait | microej/osal/src/osal_posix.c:291-321 | the fetch up to the wait: a message exactly when one is pending |
| OsalQueue.OsalQueue.FetchAfterWait | microej/osal/src/osal_posix.c:321-350 | the fetch after the wait: a message exactly when it did not time out and one is pending |
| MicroejList.List.Initialize | microej/microej_list/src/microej_list.c:46-58 | an empty list over one chain of all declared nodes |
| MicroejList.List.NodeAlloc | microej/microej_list/src/microej_list.c:22-34 | takes the head of the free chain, NULL exactly when it is empty |
| MicroejList.List.Add | microej/microej_list/src/microej_list.c:60-92 | appends at the tail, NOMEM exactly when all nodes are in use |
| MicroejList.List.FindLast | microej/microej_list/src/microej_list.c:80-88 | the walk ends at the last node |
| MicroejList.List.Delete | microej/microej_list/src/microej_list.c:94-122 | removes the first occurrence, whose node goes in front of the free chain; an unknown item changes nothing |
| MicroejList.List.FindBefore | microej/microej_list/src/microej_list.c:105-117 | stops in front of the first node with the item |
| MicroejList.List.Get | microej/microej_list/src/microej_list.c:124-150 | the first item the comparison accepts, NULL exactly when it accepts none |
| MicroejList.List.Visit | microej/microej_list/src/microej_list.c:152-165 | visits the items in order |
| MicroejList.List.Cleanup | microej/microej_list/src/microej_list.c:167-191 | keeps an order-preserving filter and frees exactly the deleted items in order, duplicates included, although it deletes by value |
| MicroejList.List.CleanupRound | microej/microej_list/src/microej_list.c:173-188 | each round deletes or keeps the current item, and the saved next node is the next of the remaining list |
| MicroejList.CleanupStep | microej/microej_list/src/microej_list.c:174-187 | the first node with the current item is the current node |
| MicroejList.List.Consume | microej/microej_list/src/microej_list.c:194-213 | processes and frees every item once in order, leaves an empty list with all nodes free, and ends although deleted nodes are relinked |
| ListPool.PoolConserved | microej/microej_list/src/microej_list.c:22-43 | list and free chain are disjoint, acyclic and together exactly the declared nodes |
| ListPool.DropInside | microej/microej_list/src/microej_list.c:106-112 | relinking the predecessor and the freed node keeps both chains |
| ListPool.DropFirst | microej/microej_list/src/microej_list.c:99-104 | deleting the first node keeps both chains |
| ListPool.LinkNode | microej/microej_list/src/microej_list.c:75-89 | linking an allocated node at the tail keeps both chains |
| ListSpec.FilterSplits | microej/microej_list/src/microej_list.c:167-191 | kept and freed items together are the items that were there |
| LlfsClient.ExecJob | microej/fs/src/LLFS_File_impl.c:92-128 | every native ends waiting, with the list-full exception, refused with its job free again, or with exactly one job posted; pool, records and queue are given on every path |
| LlfsClient.FillAndPost | microej/fs/src/LLFS_impl.c:213-231 | a job whose arguments are refused or whose post fails is freed once, a posted one is not; only its own record changes, as far as the native wrote |
| LlfsClient.PathJob | microej/fs/src/LLFS_impl.c:52-98 | posts exactly when a job is free, the path fits 64 bytes and the post succeeds; a long path is refused silently; what is posted carries the path, the action and the thread of the native, and goes to the end of the queue once |
| LlfsClient.CreateOrOpen | microej/fs/src/LLFS_impl.c:202-231 | the same, and every refusal throws |
| LlfsClient.RenameTo | microej/fs/src/LLFS_impl.c:307-334 | posts exactly when a job is free, both paths fit and the post succeeds, and then both are in the parameters; a long path is refused silently; what is posted carries action and thread of the native |
| LlfsClient.SetRenameParams | microej/fs/src/LLFS_impl.c:318-320 | accepts exactly two paths that fit; the first one is written even when the second is refused |
| LlfsClient.SetPathParam | microej/fs/src/LLFS_impl.c:37-50 | refuses exactly paths over 64 bytes, otherwise writes the path and leaves the rest of the parameters |
| LlfsClient.OnDone | microej/fs/src/LLFS_impl.c:233-247 | reads the result before the job is freed, frees it once with and without an exception |
| LlfsRefinement.NativeRefines | microej/fs/src/LLFS_impl.c:202-231 | every LLFS native leaves worker and thread as Ask, Ask-Fill-Reject, Ask-Fill-PostFails or Ask-Fill-PostOk of the protocol does |
| LlfsRefinement.CallbackRefines | microej/fs/src/LLFS_impl.c:233-247 | an on-done callback returns the result of its own action in the sequential execution, frees its job with and without an exception, and resumes the thread the protocol resumes |
| LlfsRefinement.FailedPost | microej/fs/src/LLFS_impl.c:85-92 | a failed post, any turns of the worker task, and the free_job that follows leave the worker as a failed post and the same turns after it do |
| LlfsRefinement.AskingNative | microej/fs/src/LLFS_impl.c:202-231 | a native with any number of worker turns after allocate_job, after its parameters are written and after a failed post takes exactly the moves `ClientRuns.AskMoves` gives |
| LlfsRefinement.Serve | microej/fs/src/LLFS_impl.c:52-137 | any interleaving of natives, retries and callbacks with the worker task, which may run between any two calls into the worker, is a run of the protocol with the wait that the worker object follows; every turn has its outcome for calls, posts, answers and failures, and the callbacks return what the sequential execution left; each job it handed out was freed exactly once or is out; with no call in progress its free list holds all jobs and nobody waits; the worker is not lost unless a post failed while it slept |
| LlfsRefinement.InitializeAndServe | microej/microej_async_worker/src/microej_async_worker.c:30-66 | the same from the declared worker on |
| ClientRuns.AskOutcome | microej/fs/src/LLFS_impl.c:202-231 | a native waits without a free job, fails if the waiting list is full too, and with a job posts its call with its action exactly when it accepts its arguments and the message finds memory, and fails otherwise; a lost worker leaves it with its job |
| ClientRuns.EndOutcome | microej/fs/src/LLFS_impl.c:213-231 | the last event is the successful post when accepted with memory, the failed post when accepted without, and the free when refused |
| ClientRuns.PlanIsKept | microej/fs/src/LLFS_impl.c:202-231 | between the calls of a native the worker task takes the turns it is given, fewer only if it has nothing more to do |
| ClientRuns.TurnOutcome | microej/fs/src/LLFS_impl.c:52-137 | in one turn: a call by an idle thread is counted and leaves as AskOutcome says, a return suspends its thread or finds it answered, a callback answers its call with what the sequential execution left, and the worker task changes neither calls, posts, answers nor failures and moves unless it cannot |
| ClientRuns.ServeOutcomes | microej/fs/src/LLFS_impl.c:52-137 | any sequence of turns is a run, each turn with its outcome |
| ClientRuns.WorkerMoveIs | microej/microej_async_worker/src/microej_async_worker.c:155-171 | the worker task moves whenever it can, and never has a choice |
| ArrayAccess.GetArrayElements | microej/fs/src/SNI_Array_helper.c:11-39 | fails exactly out of bounds; otherwise hands out the whole requested slice directly, or as much of it as the buffer holds through the buffer |
| ArrayAccess.ReleaseArrayElements | microej/fs/src/SNI_Array_helper.c:44-62 | a buffered release changes exactly the released cells, a direct or failed one changes nothing |
| ArrayAccess.WriteCall | microej/fs/src/LLFS_File_impl.c:92-149 | for all offsets and lengths the file receives the prefix of the requested slice that write() accepted: of the array at the call when buffered, at the execution when direct, whatever Java stores in between |
| ArrayAccess.ReadCall | microej/fs/src/LLFS_File_impl.c:151-178 | for all offsets and lengths a read of k bytes writes exactly the k cells from the offset on: over what Java stored meanwhile when buffered, and where Java did not store after the action when direct; end of file and errors write none |
| ArrayAccess.AfterReadAt | microej/fs/src/LLFS_File_impl.c:167-174 | cell by cell, what survives of the bytes read and of what Java stored meanwhile, buffered and direct |
| ArrayAccess.ReadTwice | microej/fs/src/LLFS_File_impl.c:151-178 | two reads one behind the other leave the array as one read of both lengths would |
| FileSkip.OpenFile.SizeOfFile | microej/fs/src/fs_helper_posix.c:42-61 | which seeks decide the result, and where the position ends |
| FileSkip.OpenFile.Skip | microej/fs/src/fs_helper_posix.c:599-666 | for every argument, position and combination of failing seeks: when it succeeds, how far it moves from where the size query left the position, and that it reports this count; a failed skip reports 0 |
| FileSkip.OpenFile.Available | microej/fs/src/fs_helper_posix.c:668-703 | size minus position, or LLFS_NOK exactly when the end or the position cannot be found; the position stays where the size query leaves it |
| FileSkip.OffsetIs | microej/fs/src/fs_helper_posix.c:624-640 | at every position the mixed-width comparison and conversions compute the saturated offset |
| FileSkip.OnlyLowBitsCount | microej/fs/src/fs_helper_posix.c:624-640 | inside the file a skip moves by the smaller of the bytes left and the low 32 bits of its argument |
| FileSkip.SkipSaturatesIff | microej/fs/src/LLFS_File_impl.c:304-328 | for 0 <= n the move is min(n, bytes left) exactly when n is below 2^32 or its low 32 bits still reach the end |
| FileSkip.SkipOfFourGigabytes | microej/fs/src/LLFS_File_impl.c:315-317 | skipping 2^32 bytes moves nowhere |
| FileSkip.SkipsToTheEndIff | microej/fs/src/fs_helper_posix.c:626-630 | any argument, negative ones too, moves to the end of the file exactly when its low 32 bits, read without a sign, reach it |
| FileSkip.SkipsAddIff | microej/fs/src/fs_helper_posix.c:599-666 | skipping any a and then any b is skipping a + b exactly when their low 32 bits add up without a carry or those of the sum reach the end |
| FileSkip.SkipThenAvailable | microej/fs/src/fs_helper_posix.c:599-703 | available drops by exactly the count skip reports, for any argument and from any position |
| FileSkip.SkipAfterFailedRestore | microej/fs/src/fs_helper_posix.c:56-60 | with only the restoring seek failing, skip reports 0 and LLFS_OK and has moved to the end of the file |
| FileSkip.SizeQueryKeepsPosition | microej/fs/src/fs_helper_posix.c:42-61 | the size query keeps the position exactly when its outer seeks succeed, or the middle one fails, or the position was the end; it reports failure only for the middle one |
| AudioStream.Player.Push | microej/audio/src/audio_player_functions.cxx:472-493 | with room for one element no byte read is dropped; each result code means what the callers take it for |
| AudioStream.Player.PushUpTo | microej/audio/src/audio_player_functions.cxx:500-506 | pushes that many elements up to the first that fails or ends the file; with room for all of them at the start there is room for each, whatever the decoder takes |
| AudioStream.Player.FirstPush | microej/audio/src/audio_player_functions.cxx:495-509 | filling an empty FIFO of at least nine elements conserves the stream and leaves the file where nine reads, up to the first that fails, leave it |
| AudioStream.Player.Refill | microej/audio/src/audio_player_functions.cxx:511-534 | the count computed from the vacancy leaves room for every push, whatever the decoder takes, and leaves the file where that many reads, up to the first that fails, leave it |
| AudioStream.PushesFor | microej/audio/src/audio_player_functions.cxx:516-522 | the largest number of elements that fits the vacancy, at most five, none unless more than one element fits |
| AudioStream.Player.Stop | microej/audio/src/audio_player_functions.cxx:1061-1071 | ESEND exactly when the whole file was offered |
| AudioStream.Player.Play | microej/audio/src/audio_player_functions.cxx:966-1111 | whatever the decoder takes between and within the refills, consumed then buffered bytes are the part of the file that was read, and the stop is ESEND exactly when that is all of it; a decoder that empties the FIFO between refills gets the whole file |
| AudioControl.StopsCounted | microej/audio/src/audio_player_functions.cxx:1034-1111 | over every run, stops done and owed are the starts and the pauses that marked a player no longer PLAYING |
| AudioControl.StartsMatchStopsIff | microej/audio/src/audio_player_functions.cxx:1424-1502 | starts and stops match in every state of a run, one open at most, exactly when every pause still finds PLAYING as it marks IDLE and no start comes between the mark and the stop of a pause |
| AudioControl.DoubleStop | microej/audio/src/audio_player_functions.cxx:1479-1491 | a run in which one start is stopped twice |
| AudioControl.StartBeforeStop | microej/audio/src/audio_player_functions.cxx:1479-1491 | a run in which a second start is open before the first is stopped |
| AudioControl.AtomicRunMatched | microej/audio/src/audio_player_functions.cxx:1034-1111 | when nothing comes between the check and the stop of a pause, a start is open exactly from app_start to its single stop |
| AudioControl.PlayerAloneMatched | microej/audio/src/audio_player_functions.cxx:1424-1502 | without a pause from the virtual machine the same holds |
| AudioControl.StatusTellsIff | microej/audio/src/audio_player_functions.cxx:1181-1249 | the status tells in every state of a run whether the player is initialized, exactly when no pause marks a player closed since its check; then the player is started only while initialized |
| AudioControl.StartWhenClosed | microej/audio/src/audio_player_functions.cxx:1479-1491 | a run in which a late mark lets a closed player start |

## Left out

- The SNI library, the Java scheduler, the NuttX primitives and the audio subsystem are not part of this model; only the
  assumptions above stand for them.
- AsyncWorker.Worker.LoopRound: what the code does after OSAL_OK without a job, an action behind an indeterminate
  pointer, has no meaning; a run ends there.
- LlfsClient.ExecJob: one shape stands for the natives that differ only in the parameters they fill; the byte layout of the
  parameter union beyond the paths is not modelled.
- OsalQueue.OsalQueue.Post: NULL handles, mutex errors and `OSAL_queue_delete` are left out.
- AudioStream.Player.Play: a close that fails leaves the FIFO filled for the next file; each stream starts from an empty FIFO here.
- Freed list nodes and queue nodes are not reclaimed in the model; that they are out of the chain is what is stated.
- POSIX wrappers with one call and one branch (exists, delete, rename, directories), error texts and errno values.
- Semaphore and mutex timeouts of the OSAL, which do not build a normalised absolute time.
- Audio error unwinding, clock mode, volume, playlist and the command mailbox; GNSS, UART, LEDs, display and clocks.
