/** The free list threaded through the array of jobs. */
module JobChain {
  import opened Bags
  import opened Chains
  import P = Protocol

  datatype Job = Job(params: int, action: int, threadId: int, nextFreeJob: int)

  function Links(jobs: seq<Job>): seq<int> {
    seq(|jobs|, j requires 0 <= j < |jobs| => jobs[j].nextFreeJob)
  }

  ghost predicate Chained(jobs: seq<Job>, head: int, chain: seq<int>) {
    Linked(Links(jobs), head, chain)
  }

  lemma Relink(jobs: seq<Job>, j: int, link: int)
    requires 0 <= j < |jobs|
    ensures Links(jobs[j := jobs[j].(nextFreeJob := link)]) == Links(jobs)[j := link]
  {
  }

  /** Unlinking the first job. */
  lemma ChainPop(jobs: seq<Job>, head: int, chain: seq<int>)
    requires Chained(jobs, head, chain) && head != NULL
    ensures 0 <= head < |jobs| && head == chain[0] && head !in chain[1..]
    ensures Chained(jobs[head := jobs[head].(nextFreeJob := NULL)], jobs[head].nextFreeJob, chain[1..])
  {
    PopFirst(Links(jobs), head, chain, NULL);
    Relink(jobs, head, NULL);
  }

  /** Linking a job in front. */
  lemma ChainPush(jobs: seq<Job>, head: int, chain: seq<int>, j: int)
    requires Chained(jobs, head, chain) && 0 <= j < |jobs| && j !in chain
    ensures Chained(jobs[j := jobs[j].(nextFreeJob := head)], j, [j] + chain)
  {
    PushFirst(Links(jobs), head, chain, j);
    Relink(jobs, j, head);
  }

  /** The links initialize writes: each job to the next, the last one to nothing. */
  lemma ChainAll(jobs: seq<Job>)
    requires |jobs| > 0
    requires forall j :: 0 <= j < |jobs| - 1 ==> jobs[j].nextFreeJob == j + 1
    requires jobs[|jobs| - 1].nextFreeJob == NULL
    ensures Chained(jobs, 0, InOrder(|jobs|))
  {
    LinkedInOrder(Links(jobs));
  }

  /** What a job is to the protocol: the content of its slot and the two fields async_exec writes. */
  function RecordsOf(jobs: seq<Job>, slots: seq<P.Params>): seq<P.Record>
    requires |jobs| == |slots|
  {
    seq(|jobs|, j requires 0 <= j < |jobs| => P.Record(slots[j], jobs[j].action, jobs[j].threadId))
  }

  /** Links and slot addresses are no part of a record. */
  lemma StampOnly(jobs: seq<Job>, slots: seq<P.Params>, j: int, job: Job)
    requires |jobs| == |slots| && 0 <= j < |jobs|
    requires job.action == jobs[j].action && job.threadId == jobs[j].threadId
    ensures RecordsOf(jobs[j := job], slots) == RecordsOf(jobs, slots)
  {
  }

  /** Where the slot of job j starts. */
  function SlotAddress(base: int, size: int, j: int): int { base + j * size }

  ghost predicate Addressed(jobs: seq<Job>, base: int, size: int) {
    forall j :: 0 <= j < |jobs| ==> jobs[j].params == SlotAddress(base, size, j)
  }

  /** The first slot starts where the declared array does, and each slot right behind the one before. */
  lemma SlotsLaidOut(jobs: seq<Job>, base: int, size: int)
    requires Addressed(jobs, base, size) && |jobs| > 0
    ensures jobs[0].params == base
    ensures forall j :: 0 < j < |jobs| ==> jobs[j].params == jobs[j - 1].params + size
  {
    forall j | 0 < j < |jobs| ensures jobs[j].params == jobs[j - 1].params + size {
      assert SlotAddress(base, size, j) == SlotAddress(base, size, j - 1) + size;
    }
  }

  /** Different jobs never share a byte of their parameters, and every byte of a slot lies in the declared array of
      one slot for each job. */
  lemma SlotsDisjoint(jobs: seq<Job>, base: int, size: int, j: int, b: int)
    requires Addressed(jobs, base, size) && 0 < size && 0 <= j < |jobs|
    requires jobs[j].params <= b < jobs[j].params + size
    ensures base <= b < base + |jobs| * size
    ensures forall k :: 0 <= k < |jobs| && jobs[k].params <= b < jobs[k].params + size ==> k == j
  {
    SlotsInOrder(base, size, 0, j);
    SlotsInOrder(base, size, j + 1, |jobs|);
    SlotsInOrder(base, size, j, j + 1);
    forall k | 0 <= k < |jobs| && jobs[k].params <= b < jobs[k].params + size ensures k == j {
      SlotsInOrder(base, size, k, k + 1);
      if j < k { SlotsInOrder(base, size, j + 1, k); }
      if k < j { SlotsInOrder(base, size, k + 1, j); }
    }
  }

  lemma {:induction false} SlotsInOrder(base: int, size: int, j: int, k: int)
    requires 0 < size && j <= k
    ensures SlotAddress(base, size, j) <= SlotAddress(base, size, k)
    ensures SlotAddress(base, size, j + 1) == SlotAddress(base, size, j) + size
    decreases k - j
  {
    if j == k {
    } else {
      SlotsInOrder(base, size, j + 1, k);
    }
  }
}
