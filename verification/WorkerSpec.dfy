/** What the worker's shared bookkeeping means, free of pointers, offsets and machine widths:
    a stack of free jobs and a bounded first-in first-out list of suspended threads. */
module WorkerSpec {

  datatype Option<+T> = None | Some(value: T)

  /** `capacity` is the `_waiting_list_size` of the worker declaration. */
  datatype Pool = Pool(free: seq<int>, waiting: seq<int>, capacity: nat)

  /** How an allocation request ends: with a job, with the thread suspended, or with an exception. */
  datatype Grant = Granted(job: int) | MustWait | ListFull

  function Allocate(p: Pool, thread: int): (Pool, Grant) {
    if p.free != [] then (p.(free := p.free[1..]), Granted(p.free[0]))
    else if |p.waiting| >= p.capacity then (p, ListFull)
    else (p.(waiting := p.waiting + [thread]), MustWait)
  }

  /** Frees a job and names the thread to resume, if one was waiting. */
  function Release(p: Pool, job: int): (Pool, Option<int>) {
    var q := p.(free := [job] + p.free);
    if p.waiting == [] then (q, None)
    else (q.(waiting := p.waiting[1..]), Some(p.waiting[0]))
  }
}
