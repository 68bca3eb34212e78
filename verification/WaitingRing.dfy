/** The circular array of suspended threads, with the 16-bit offsets the worker keeps. */
module WaitingRing {
  import opened WorkerSpec

  const OFFSETS := 0x1_0000

  /** `first` is `waiting_thread_offset`, `next` is `free_waiting_thread_offset`. */
  datatype Ring = Ring(slots: seq<int>, first: nat, next: nat)

  /** What a store to a uint16_t field keeps. */
  function ToU16(n: nat): (r: nat)
    ensures r < OFFSETS && (r == n <==> n < OFFSETS)
  {
    n % OFFSETS
  }

  /** The offset after `n`, before it is stored. */
  function Following(length: nat, n: nat): nat {
    if n + 1 >= length then 0 else n + 1
  }

  /** The waiting-list part of allocate_job: None when the list is full. */
  function Put(r: Ring, thread: int): Option<Ring>
    requires r.next < |r.slots|
  {
    var following := Following(|r.slots|, r.next);
    if following == r.first then None
    else Some(Ring(r.slots[r.next := thread], r.first, ToU16(following)))
  }

  /** The waiting-list part of free_job: None when no thread waits. */
  function Take(r: Ring): Option<(Ring, int)>
    requires r.first < |r.slots|
  {
    if r.first == r.next then None
    else Some((r.(first := ToU16(Following(|r.slots|, r.first))), r.slots[r.first]))
  }

  /** The waiting threads, first to be resumed first. */
  function Contents(r: Ring): (s: seq<int>)
    requires r.first < |r.slots| && r.next < |r.slots|
    ensures |s| < |r.slots|
  {
    if r.first <= r.next then r.slots[r.first..r.next] else r.slots[r.first..] + r.slots[..r.next]
  }

  ghost predicate Valid(r: Ring) {
    r.first < |r.slots| && r.next < |r.slots|
  }

  /** With at most 65536 slots, Put appends to a FIFO list of capacity length - 1. */
  lemma PutAppends(r: Ring, thread: int)
    requires Valid(r) && |r.slots| <= OFFSETS
    ensures Put(r, thread).None? <==> |Contents(r)| == |r.slots| - 1
    ensures Put(r, thread).Some? ==>
              var r' := Put(r, thread).value;
              Valid(r') && |r'.slots| == |r.slots| && Contents(r') == Contents(r) + [thread]
  {
  }

  /** With at most 65536 slots, Take removes the oldest thread. */
  lemma TakeRemoves(r: Ring)
    requires Valid(r) && |r.slots| <= OFFSETS
    ensures Take(r).None? <==> Contents(r) == []
    ensures Take(r).Some? ==>
              var (r', thread) := Take(r).value;
              Valid(r') && |r'.slots| == |r.slots| && Contents(r) == [thread] + Contents(r')
  {
  }

  // ---- Exactly when the offsets are wide enough ----------------------------------------------

  datatype Op = Enqueue(thread: int) | Dequeue

  /** What a caller sees: whether the thread was accepted, or which thread is resumed. */
  datatype Seen = Accepted | Refused | Resumed(thread: int) | Nobody

  /** What the operations on the ring show, one after the other. */
  function RingShows(r: Ring, ops: seq<Op>): seq<Seen>
    requires r.slots != []
    decreases |ops|
  {
    if ops == [] || !(r.first < |r.slots| && r.next < |r.slots|) then []
    else match ops[0]
      case Enqueue(thread) =>
        (match Put(r, thread)
         case None => [Refused] + RingShows(r, ops[1..])
         case Some(r') => [Accepted] + RingShows(r', ops[1..]))
      case Dequeue =>
        (match Take(r)
         case None => [Nobody] + RingShows(r, ops[1..])
         case Some((r', thread)) => [Resumed(thread)] + RingShows(r', ops[1..]))
  }

  /** What a first-in first-out list of that capacity shows. */
  function ListShows(waiting: seq<int>, capacity: nat, ops: seq<Op>): seq<Seen>
    decreases |ops|
  {
    if ops == [] then []
    else match ops[0]
      case Enqueue(thread) =>
        if |waiting| >= capacity then [Refused] + ListShows(waiting, capacity, ops[1..])
        else [Accepted] + ListShows(waiting + [thread], capacity, ops[1..])
      case Dequeue =>
        if waiting == [] then [Nobody] + ListShows(waiting, capacity, ops[1..])
        else [Resumed(waiting[0])] + ListShows(waiting[1..], capacity, ops[1..])
  }

  /** The ring as declared and initialized. */
  function Empty(length: nat): Ring {
    Ring(seq(length, i => 0), 0, 0)
  }

  ghost predicate IsFifo(length: nat)
    requires length > 0
  {
    forall ops :: RingShows(Empty(length), ops) == ListShows([], length - 1, ops)
  }

  lemma {:induction false} ShowsTheSame(r: Ring, ops: seq<Op>)
    requires Valid(r) && |r.slots| <= OFFSETS
    ensures RingShows(r, ops) == ListShows(Contents(r), |r.slots| - 1, ops)
    decreases |ops|
  {
    hide Put, Take, Contents;
    if ops == [] {
    } else {
      match ops[0]
      case Enqueue(thread) =>
        PutAppends(r, thread);
        ShowsTheSame(if Put(r, thread).None? then r else Put(r, thread).value, ops[1..]);
      case Dequeue =>
        TakeRemoves(r);
        ShowsTheSame(if Take(r).None? then r else Take(r).value.0, ops[1..]);
    }
  }

  function Enqueues(n: nat): seq<Op> {
    if n == 0 then [] else [Enqueue(7)] + Enqueues(n - 1)
  }

  /** On a ring of more than 65536 slots, filling up to the last 16-bit offset and once more brings `next`
      back onto `first`: the ring looks empty although every thread was accepted. */
  lemma {:induction false} WrapForgets(r: Ring, n: nat)
    requires Valid(r) && |r.slots| > OFFSETS && r.first == 0
    requires n > 0 && r.next + n == OFFSETS
    ensures RingShows(r, Enqueues(n) + [Dequeue]) == seq(n, i => Accepted) + [Nobody]
    decreases n
  {
    var ops := Enqueues(n) + [Dequeue];
    assert ops[0] == Enqueue(7) && ops[1..] == Enqueues(n - 1) + [Dequeue];
    var r' := Put(r, 7).value;
    if n == 1 {
      assert r'.next == 0;
      assert ops[1..] == [Dequeue];
      assert RingShows(r', ops[1..]) == [Nobody] + RingShows(r', []);
    } else {
      WrapForgets(r', n - 1);
    }
    assert seq(n, i => Accepted) == [Accepted] + seq(n - 1, i => Accepted);
  }

  lemma {:induction false} ListRemembers(waiting: seq<int>, capacity: nat, n: nat)
    requires |waiting| + n <= capacity && |waiting| + n > 0
    ensures var seen := ListShows(waiting, capacity, Enqueues(n) + [Dequeue]);
            |seen| == n + 1 && seen[n].Resumed?
    decreases n
  {
    var ops := Enqueues(n) + [Dequeue];
    if n == 0 {
      assert ops == [Dequeue];
    } else {
      assert ops[0] == Enqueue(7) && ops[1..] == Enqueues(n - 1) + [Dequeue];
      ListRemembers(waiting + [7], capacity, n - 1);
    }
  }

  /** The waiting ring is a first-in first-out list of capacity length - 1 over every sequence of operations
      exactly when its length fits the 16-bit offsets. */
  lemma FifoIffOffsetsFit(length: nat)
    requires length > 0
    ensures IsFifo(length) <==> length <= OFFSETS
  {
    if length <= OFFSETS {
      forall ops ensures RingShows(Empty(length), ops) == ListShows([], length - 1, ops) {
        ShowsTheSame(Empty(length), ops);
      }
    } else {
      var ops := Enqueues(OFFSETS) + [Dequeue];
      WrapForgets(Empty(length), OFFSETS);
      ListRemembers([], length - 1, OFFSETS);
      assert RingShows(Empty(length), ops)[OFFSETS] == Nobody;
    }
  }
}
