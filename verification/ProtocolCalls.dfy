/** From the calls the Java threads make to what is posted and answered, event by event. */
module ProtocolCalls {
  import opened WorkerSpec
  import opened Protocol

  /** The event ends a call of thread t. */
  predicate Ends(e: Event, t: int) {
    (e.OnDone? || e.Reject? || e.PostFails?) && e.thread == t
  }

  /** Event number i of the run begins the call, and up to event n thread t neither ends it nor begins another. */
  ghost predicate BegunAt(es: seq<Event>, i: int, n: int, t: int, call: Call) {
    && 0 <= i < n <= |es| && es[i].Begin? && es[i].thread == t && es[i].call == call
    && forall m :: i < m < n ==> !Ends(es[m], t) && !(es[m].Begin? && es[m].thread == t)
  }

  /** A thread that is busy after an event is busy with the call it was busy with before, or the event began it. */
  lemma CallStep(c: Config, s: State, e: Event, t: nat)
    requires Enabled(s, e) && t < |s.phases|
    ensures |Apply(c, s, e).phases| == |s.phases|
    ensures var p, p' := s.phases[t], Apply(c, s, e).phases[t];
            !p'.Idle? ==>
              if e.Begin? && e.thread == t then p'.call == e.call
              else !p.Idle? && p'.call == p.call && !Ends(e, t)
  {
    hide Release, Allocate;
  }

  lemma {:induction false} RunSplits(c: Config, s: State, es: seq<Event>, n: nat)
    requires IsRun(c, s, es) && n <= |es|
    ensures IsRun(c, s, es[..n]) && IsRun(c, RunTo(c, s, es[..n]), es[n..])
    ensures RunTo(c, RunTo(c, s, es[..n]), es[n..]) == RunTo(c, s, es)
    decreases n
  {
    hide Apply, Enabled;
    if n == 0 {
      assert es[..n] == [] && es[n..] == es;
    } else {
      var first, rest := es[..n], es[1..];
      RunSplits(c, Apply(c, s, es[0]), rest, n - 1);
      assert first[0] == es[0] && first[1..] == rest[..n - 1] && rest[n - 1..] == es[n..];
    }
  }

  /** The last event of a run. */
  lemma LastEvent(c: Config, s: State, es: seq<Event>)
    requires IsRun(c, s, es) && es != []
    ensures var n := |es| - 1;
            && IsRun(c, s, es[..n]) && Enabled(RunTo(c, s, es[..n]), es[n])
            && RunTo(c, s, es) == Apply(c, RunTo(c, s, es[..n]), es[n])
  {
    hide Apply, Enabled;
    var n := |es| - 1;
    RunSplits(c, s, es, n);
    assert es[n..] == [es[n]] && [es[n]][1..] == [];
  }

  lemma StaysBegun(es: seq<Event>, i: int, t: int, call: Call)
    requires es != [] && BegunAt(es[..|es| - 1], i, |es| - 1, t, call)
    requires !Ends(es[|es| - 1], t) && !(es[|es| - 1].Begin? && es[|es| - 1].thread == t)
    ensures BegunAt(es, i, |es|, t, call)
  {
  }

  /** Whatever a thread is about, it made this call, and is still about it since then. */
  lemma {:induction false} BusyWithItsCall(c: Config, es: seq<Event>, t: nat) returns (i: nat)
    requires IsRun(c, Init(c), es)
    requires t < |RunTo(c, Init(c), es).phases| && !RunTo(c, Init(c), es).phases[t].Idle?
    ensures BegunAt(es, i, |es|, t, RunTo(c, Init(c), es).phases[t].call)
    decreases |es|
  {
    hide Apply, Enabled;
    if es == [] {
      assert false;
    } else {
      var n := |es| - 1;
      LastEvent(c, Init(c), es);
      var s := RunTo(c, Init(c), es[..n]);
      PhasesKept(c, s, es[n]);
      CallStep(c, s, es[n], t);
      if es[n].Begin? && es[n].thread == t {
        i := n;
      } else {
        i := BusyWithItsCall(c, es[..n], t);
        StaysBegun(es, i, t, s.phases[t].call);
      }
    }
  }

  /** A ticket is drawn by the thread's own post. */
  lemma TicketStep(c: Config, s: State, e: Event, t: nat)
    requires Enabled(s, e) && t < |s.phases| && t < |Apply(c, s, e).phases| && HasTicket(Apply(c, s, e).phases[t])
    ensures var p, p' := s.phases[t], Apply(c, s, e).phases[t];
            if e.PostOk? && e.thread == t then p'.ticket == |s.posts|
            else HasTicket(p) && p'.ticket == p.ticket && !(e.Begin? && e.thread == t)
  {
    hide Release, Allocate;
  }

  /** The ticket a thread holds was drawn after it began its call. */
  lemma {:induction false} TicketOfItsCall(c: Config, es: seq<Event>, t: nat, i: nat, call: Call) returns (q: nat)
    requires IsRun(c, Init(c), es) && BegunAt(es, i, |es|, t, call)
    requires t < |RunTo(c, Init(c), es).phases| && HasTicket(RunTo(c, Init(c), es).phases[t])
    ensures i < q < |es| && es[q].PostOk? && es[q].thread == t
    ensures IsRun(c, Init(c), es[..q]) && |RunTo(c, Init(c), es[..q]).posts| == RunTo(c, Init(c), es).phases[t].ticket
    decreases |es|
  {
    hide Apply, Enabled;
    var n := |es| - 1;
    LastEvent(c, Init(c), es);
    var s := RunTo(c, Init(c), es[..n]);
    PhasesKept(c, s, es[n]);
    TicketStep(c, s, es[n], t);
    if es[n].PostOk? && es[n].thread == t {
      q := n;
    } else {
      q := TicketOfItsCall(c, es[..n], t, i, call);
      assert es[..n][..q] == es[..q];
    }
  }

  lemma PhasesKept(c: Config, s: State, e: Event)
    requires Enabled(s, e)
    ensures |Apply(c, s, e).phases| == |s.phases|
  {
  }

  /** What one event adds to posts and answers. */
  lemma HistoryStep(c: Config, s: State, e: Event)
    requires Enabled(s, e)
    ensures var s' := Apply(c, s, e);
            && (if e.OnDone? then
                  && |s'.answers| == |s.answers| + 1 && s'.answers[..|s.answers|] == s.answers
                  && s'.answers[|s.answers|].thread == e.thread
                  && HasTicket(s.phases[e.thread]) && s'.answers[|s.answers|].ticket == s.phases[e.thread].ticket
                  && s'.answers[|s.answers|].call == s.phases[e.thread].call
                else s'.answers == s.answers)
            && (if e.PostOk? then
                  && |s'.posts| == |s.posts| + 1 && s'.posts[..|s.posts|] == s.posts
                  && s'.posts[|s.posts|].thread == e.thread
                  && s'.posts[|s.posts|].call == s.phases[e.thread].call
                else s'.posts == s.posts)
  {
    hide Release, Allocate, ResumeWaiter, ResumeOwner;
  }

  /** Every answer is one to a call that its thread made: event i began exactly the call that is answered, event q
      posted it with the ticket of the answer, and event m is the on-done callback that gave the answer; and from i to m
      the thread made no other call and ended none.  So no two answers are to the same call. */
  lemma {:induction false} AnswersTheCallMade(c: Config, es: seq<Event>, k: nat) returns (i: nat, q: nat, m: nat)
    requires IsRun(c, Init(c), es) && k < |RunTo(c, Init(c), es).answers|
    ensures var r := RunTo(c, Init(c), es).answers[k];
            && BegunAt(es, i, m, r.thread, r.call) && i < q < m < |es|
            && es[q].PostOk? && es[q].thread == r.thread
            && IsRun(c, Init(c), es[..q]) && |RunTo(c, Init(c), es[..q]).posts| == r.ticket
            && es[m].OnDone? && es[m].thread == r.thread
            && IsRun(c, Init(c), es[..m]) && |RunTo(c, Init(c), es[..m]).answers| == k
    decreases |es|
  {
    hide Apply, Enabled;
    if es == [] {
      assert false;
    } else {
      var n := |es| - 1;
      LastEvent(c, Init(c), es);
      var s := RunTo(c, Init(c), es[..n]);
      HistoryStep(c, s, es[n]);
      if k < |s.answers| {
        i, q, m := AnswersTheCallMade(c, es[..n], k);
        assert es[..n][..m] == es[..m] && es[..n][..q] == es[..q];
      } else {
        DoneIsBusy(s, es[n]);
        m := n;
        i := BusyWithItsCall(c, es[..n], es[n].thread);
        q := TicketOfItsCall(c, es[..n], es[n].thread, i, s.phases[es[n].thread].call);
        assert es[..n][..q] == es[..q];
      }
    }
  }

  lemma DoneIsBusy(s: State, e: Event)
    requires Enabled(s, e) && (e.OnDone? || e.PostOk?)
    ensures e.thread < |s.phases| && !s.phases[e.thread].Idle?
  {
  }

  /** Every post is one for a call that its thread made and was then about. */
  lemma {:induction false} PostsTheCallMade(c: Config, es: seq<Event>, k: nat) returns (i: nat, m: nat)
    requires IsRun(c, Init(c), es) && k < |RunTo(c, Init(c), es).posts|
    ensures var p := RunTo(c, Init(c), es).posts[k];
            && BegunAt(es, i, m, p.thread, p.call)
            && m < |es| && es[m].PostOk? && es[m].thread == p.thread
            && IsRun(c, Init(c), es[..m]) && |RunTo(c, Init(c), es[..m]).posts| == k
    decreases |es|
  {
    hide Apply, Enabled;
    if es == [] {
      assert false;
    } else {
      var n := |es| - 1;
      LastEvent(c, Init(c), es);
      var s := RunTo(c, Init(c), es[..n]);
      HistoryStep(c, s, es[n]);
      if k < |s.posts| {
        i, m := PostsTheCallMade(c, es[..n], k);
        assert es[..n][..m] == es[..m];
      } else {
        DoneIsBusy(s, es[n]);
        i := BusyWithItsCall(c, es[..n], es[n].thread);
        m := n;
      }
    }
  }
}
