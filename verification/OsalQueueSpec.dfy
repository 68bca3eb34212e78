/** The OSAL message queue as producers and its one consumer see it: every entry below is one section of
    code under the queue's mutex, so a run is a sequence of entries. */
module OsalQueueSpec {

  datatype Status = OK | ERROR | NOMEM

  /** How malloc ends, with errno telling the two failures apart. */
  datatype Malloc = Allocated | OutOfMemory | OtherError

  /** The consumer is outside the wait, or in it, with or without a wake-up on its way. */
  datatype Consumer = Outside | Blocked(signalled: bool)

  /** `posted`, `delivered` and `empty` record the history: accepted messages, messages handed to the
      consumer, and fetches that returned OSAL_OK with no message. */
  datatype Queue = Queue(pending: seq<int>, consumer: Consumer, posted: seq<int>, delivered: seq<int>, empty: nat)

  datatype Entry =
    | Post(msg: int, malloc: Malloc)   // OSAL_queue_post
    | Enter(clock: bool)               // OSAL_queue_fetch up to the wait; clock: the deadline could be computed
    | Woken                            // the wait returns 0: after a signal, or spuriously
    | TimedOut                         // the wait returns an error

  predicate Enabled(q: Queue, e: Entry) {
    match e
    case Post(_, _) => true
    case Enter(_) => q.consumer.Outside?
    case Woken => q.consumer.Blocked?
    case TimedOut => q.consumer.Blocked?
  }

  /** The fetch leaves the mutex with the oldest message, if there is one, and with OSAL_OK either way. */
  function Leave(q: Queue): Queue {
    if q.pending == [] then q.(consumer := Outside, empty := q.empty + 1)
    else q.(consumer := Outside, pending := q.pending[1..], delivered := q.delivered + [q.pending[0]])
  }

  /** A signal reaches a consumer in the wait, and is lost otherwise. */
  function Signalled(consumer: Consumer): Consumer {
    if consumer.Blocked? then Blocked(true) else consumer
  }

  function Signal(q: Queue): Queue { q.(consumer := Signalled(q.consumer)) }

  function Apply(q: Queue, e: Entry): Queue {
    match e
    case Post(msg, malloc) =>
      Signal(if malloc.Allocated? then q.(pending := q.pending + [msg], posted := q.posted + [msg]) else q)
    case Enter(clock) =>
      if q.pending != [] then Leave(q)
      else if clock then q.(consumer := Blocked(false))
      else q.(empty := q.empty + 1)
    case Woken => Leave(q)
    case TimedOut => q.(consumer := Outside, empty := q.empty + 1)
  }

  /** The entry by which a fetch begins, or goes on after a wait that did not fail. */
  function FetchEntry(q: Queue): Entry { if q.consumer.Outside? then Enter(true) else Woken }

  const CREATED := Queue([], Outside, [], [], 0)

  predicate IsRun(q: Queue, es: seq<Entry>)
    decreases |es|
  {
    es == [] || (Enabled(q, es[0]) && IsRun(Apply(q, es[0]), es[1..]))
  }

  function RunTo(q: Queue, es: seq<Entry>): Queue
    requires IsRun(q, es)
    decreases |es|
  {
    if es == [] then q else RunTo(Apply(q, es[0]), es[1..])
  }

  // ---- Producer/consumer safety ---------------------------------------------------------------

  /** Nothing is lost, doubled or reordered, and a consumer that sleeps without a wake-up on its way has
      nothing to fetch. */
  ghost predicate Safe(q: Queue) {
    && q.posted == q.delivered + q.pending
    && (q.consumer == Blocked(false) ==> q.pending == [])
  }

  lemma {:induction false} RunIsSafe(q: Queue, es: seq<Entry>)
    requires Safe(q) && IsRun(q, es)
    ensures Safe(RunTo(q, es))
    decreases |es|
  {
    if es == [] {
    } else {
      EntryIsSafe(q, es[0]);
      RunIsSafe(Apply(q, es[0]), es[1..]);
    }
  }

  lemma EntryIsSafe(q: Queue, e: Entry)
    requires Safe(q) && Enabled(q, e)
    ensures Safe(Apply(q, e))
  {
    match e
    case Post(msg, malloc) =>
      if malloc.Allocated? { assert q.delivered + (q.pending + [msg]) == q.posted + [msg]; }
    case Enter(_) => LeaveIsSafe(q);
    case Woken => LeaveIsSafe(q);
    case TimedOut =>
  }

  lemma LeaveIsSafe(q: Queue)
    requires Safe(q)
    ensures Safe(Leave(q))
  {
    if q.pending != [] {
      assert q.delivered + q.pending == (q.delivered + [q.pending[0]]) + q.pending[1..];
    }
  }

  /** Messages posted are the messages delivered followed by the pending list, over every run with any mix of
      failing posts, spurious wake-ups and timeouts; a consumer asleep without a signal faces an empty list. */
  lemma PostedIsDeliveredThenPending(es: seq<Entry>)
    requires IsRun(CREATED, es)
    ensures RunTo(CREATED, es).posted == RunTo(CREATED, es).delivered + RunTo(CREATED, es).pending
    ensures RunTo(CREATED, es).consumer == Blocked(false) ==> RunTo(CREATED, es).pending == []
  {
    RunIsSafe(CREATED, es);
  }

  // ---- When OSAL_OK means that a message was delivered ----------------------------------------

  /** The fetch returns at this entry. */
  predicate Returns(q: Queue, e: Entry) {
    (e.Enter? && Apply(q, e).consumer.Outside?) || e.Woken? || e.TimedOut?
  }

  predicate Delivers(q: Queue, e: Entry) {
    |Apply(q, e).delivered| == |q.delivered| + 1
  }

  /** A fetch that returns, always with OSAL_OK, delivers a message exactly when it did not time out and found
      the list non-empty.  The worker loop executes `job` on OSAL_OK alone. */
  lemma OkDeliversIff(q: Queue, e: Entry)
    requires Enabled(q, e) && Returns(q, e)
    ensures Delivers(q, e) <==> !e.TimedOut? && q.pending != []
    ensures !Delivers(q, e) <==> Apply(q, e).empty == q.empty + 1
  {
  }

  /** A fetch that waits out its deadline returns OSAL_OK and delivers nothing, even if a message has arrived. */
  lemma TimeoutReturnsOkEmpty()
    ensures var es := [Enter(true), Post(5, Allocated), TimedOut];
            IsRun(CREATED, es) && RunTo(CREATED, es).empty == 1 && RunTo(CREATED, es).pending == [5]
  {
    var q1 := Apply(CREATED, Enter(true));
    var q2 := Apply(q1, Post(5, Allocated));
    var es2, es1 := [TimedOut], [Post(5, Allocated), TimedOut];
    var es := [Enter(true), Post(5, Allocated), TimedOut];
    assert es2[1..] == [] && es1[1..] == es2 && es[1..] == es1;
    assert IsRun(q2, es2) && IsRun(q1, es1);
  }

  /** The entries that make a fetch return empty-handed: a timeout, an empty list without a deadline, a wake-up
      although nothing was accepted since the fetch began to wait.  `accepted` says whether something was. */
  predicate Misses(q: Queue, e: Entry, accepted: bool) {
    match e
    case Post(_, _) => false
    case Enter(clock) => q.pending == [] && !clock
    case Woken => !accepted
    case TimedOut => true
  }

  /** Whether a message has been accepted since the consumer last entered the fetch. */
  function AcceptedSince(e: Entry, accepted: bool): bool {
    match e
    case Post(_, malloc) => accepted || malloc.Allocated?
    case Enter(_) => false
    case _ => accepted
  }

  predicate NoMisses(q: Queue, es: seq<Entry>, accepted: bool)
    requires IsRun(q, es)
    decreases |es|
  {
    es == [] || (!Misses(q, es[0], accepted) && NoMisses(Apply(q, es[0]), es[1..], AcceptedSince(es[0], accepted)))
  }

  lemma {:induction false} EmptyGrows(q: Queue, es: seq<Entry>)
    requires IsRun(q, es)
    ensures RunTo(q, es).empty >= q.empty
    decreases |es|
  {
    if es == [] {
    } else {
      EmptyGrows(Apply(q, es[0]), es[1..]);
    }
  }

  lemma {:induction false} EmptyIff(q: Queue, es: seq<Entry>, accepted: bool)
    requires IsRun(q, es) && (q.consumer.Blocked? ==> (accepted <==> q.pending != []))
    ensures RunTo(q, es).empty == q.empty <==> NoMisses(q, es, accepted)
    decreases |es|
  {
    if es == [] {
    } else {
      var q', rest := Apply(q, es[0]), es[1..];
      EmptyGrows(q', rest);
      EmptyIff(q', rest, AcceptedSince(es[0], accepted));
    }
  }

  /** Over a whole run every OSAL_OK has delivered a message if and only if no fetch timed out, failed to compute its
      deadline on an empty list, or was woken with nothing accepted since it began to wait. */
  lemma OkAlwaysDeliversIff(es: seq<Entry>)
    requires IsRun(CREATED, es)
    ensures RunTo(CREATED, es).empty == 0 <==> NoMisses(CREATED, es, false)
  {
    EmptyIff(CREATED, es, false);
  }

  /** No failing allocation, no elapsed deadline, and every wake-up follows a signal. */
  predicate FaultFree(q: Queue, e: Entry) {
    match e
    case Post(_, malloc) => malloc.Allocated?
    case Enter(clock) => clock
    case Woken => q.consumer == Blocked(true)
    case TimedOut => false
  }

  predicate RunsFaultFree(q: Queue, es: seq<Entry>)
    requires IsRun(q, es)
    decreases |es|
  {
    es == [] || (FaultFree(q, es[0]) && RunsFaultFree(Apply(q, es[0]), es[1..]))
  }

  lemma {:induction false} NoEmptyFetch(q: Queue, es: seq<Entry>)
    requires IsRun(q, es) && RunsFaultFree(q, es)
    requires q.consumer == Blocked(true) ==> q.pending != []
    ensures RunTo(q, es).empty == q.empty
    decreases |es|
  {
    if es == [] {
    } else {
      NoEmptyFetch(Apply(q, es[0]), es[1..]);
    }
  }

  /** With a single consumer and without these faults every fetch that returns has delivered a message. */
  lemma OkDeliversWithoutFaults(es: seq<Entry>)
    requires IsRun(CREATED, es) && RunsFaultFree(CREATED, es)
    ensures RunTo(CREATED, es).empty == 0
  {
    NoEmptyFetch(CREATED, es);
  }
}
