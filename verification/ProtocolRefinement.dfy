/** The asynchronous worker behaves like one caller at a time. */
module ProtocolRefinement {
  import opened Bags
  import opened Protocol
  import opened ProtocolInvariants
  import opened ProtocolPool
  import opened ProtocolData
  import opened ProtocolTheorems

  /** Asynchronous refines sequential.  In every reachable state the file system is the fold of the executed
      actions in post order; each on-done callback read the parameters that its own post leaves behind in the
      sequential execution; that post was made by the same thread for the same call, with the action of the
      call and parameters this thread wrote; and no post is answered twice. */
  lemma AsyncRefinesSequential(c: Config, s: State)
    requires Reachable(c, s)
    ensures 0 <= Executed(s) <= |s.posts| && s.fs == Sequential(c, s.posts[..Executed(s)]).0
    ensures forall k :: 0 <= k < |s.answers| ==>
              var r := s.answers[k];
              && 0 <= r.ticket < Executed(s)
              && r.thread == s.posts[r.ticket].thread && r.call == s.posts[r.ticket].call
              && s.posts[r.ticket].action == r.call.action && Written(c, r.call, s.posts[r.ticket].params)
              && r.params == c.run(r.call.action, Sequential(c, s.posts[..r.ticket]).0, s.posts[r.ticket].params).1
    ensures forall k, l :: 0 <= k < l < |s.answers| ==> s.answers[k].ticket != s.answers[l].ticket
  {
    ReachableInv(c, s);
    forall k | 0 <= k < |s.answers|
      ensures var r := s.answers[k];
              && 0 <= r.ticket < Executed(s)
              && r.thread == s.posts[r.ticket].thread && r.call == s.posts[r.ticket].call
              && s.posts[r.ticket].action == r.call.action && Written(c, r.call, s.posts[r.ticket].params)
              && r.params == c.run(r.call.action, Sequential(c, s.posts[..r.ticket]).0, s.posts[r.ticket].params).1
    {
      AnswerIsSequential(c, s, k);
    }
    forall k, l | 0 <= k < l < |s.answers| ensures s.answers[k].ticket != s.answers[l].ticket {
      AnsweredOnce(|s.posts|, s.answers, s.phases, k, l);
    }
  }

  lemma AnswerIsSequential(c: Config, s: State, k: nat)
    requires DataInv(c, s) && k < |s.answers|
    ensures var r := s.answers[k];
            && 0 <= r.ticket < Executed(s) <= |s.posts|
            && r.thread == s.posts[r.ticket].thread && r.call == s.posts[r.ticket].call
            && s.posts[r.ticket].action == r.call.action && Written(c, r.call, s.posts[r.ticket].params)
            && r.params == c.run(r.call.action, Sequential(c, s.posts[..r.ticket]).0, s.posts[r.ticket].params).1
  {
    var r := s.answers[k];
    assert ReturnMatches(c, s.posts, Executed(s), r);
    assert PostWritten(c, s.posts[r.ticket]);
    OutputIs(c, s.posts, r.ticket);
  }

  lemma AnsweredOnce(n: nat, answers: seq<Return>, ps: seq<Phase>, k: nat, l: nat)
    requires TicketsKept(n, answers, ps) && k < l < |answers|
    ensures answers[k].ticket != answers[l].ticket
  {
    BelowCounts(n);
    var x := answers[k].ticket;
    BagContainsBoth(ReturnTicket, answers, k, l, x);
    assert (Bag(ReturnTicket, answers) + Bag(TicketOf, ps))[x] <= 1;
  }

  /** The events a thread causes. */
  predicate CausedBy(e: Event, t: nat) {
    !e.Fetch? && !e.Execute? && !e.Wake? && e.thread == t
  }

  /** From the moment a thread holds a job until it frees it, only that thread's own events and the execution
      of that very job write the job's record; and the worker executes it only while the thread waits for it. */
  lemma RecordsAreIsolated(c: Config, s: State, e: Event, t: nat)
    requires Reachable(c, s) && Enabled(s, e)
    requires t < |s.phases| && Owns(s.phases[t]) && !CausedBy(e, t)
    ensures 0 <= s.phases[t].job < |s.records| && |Apply(c, s, e).records| == |s.records|
    ensures e.Execute? && s.task.job == s.phases[t].job ==> Unanswered(s.phases[t])
    ensures !(e.Execute? && s.task.job == s.phases[t].job) ==>
              Apply(c, s, e).records[s.phases[t].job] == s.records[s.phases[t].job]
  {
    hide FlowInv, DataInv, CountInv, Ownership, Wakeups;
    ReachableInv(c, s);
    OwnerJob(c, s, t);
    if e.Execute? {
      if s.task.job == s.phases[t].job { ExecutesForWaiter(c, s, t); }
    } else if e.Fill? || e.PostOk? || e.PostFails? {
      OwnerJob(c, s, e.thread);
    }
  }

  lemma ExecutesForWaiter(c: Config, s: State, t: nat)
    requires Inv(c, s) && !s.task.Fetching?
    requires t < |s.phases| && Owns(s.phases[t]) && s.task.job == s.phases[t].job
    ensures Unanswered(s.phases[t])
  {
    var u := BusyOwner(c, s, s.task.job);
    OwnerJob(c, s, t);
  }

  // ---- Post order respects real time ---------------------------------------------------------

  /** The ticket was drawn after state s0, or thread t already held it there. */
  ghost predicate DrawnSince(s0: State, t: int, ticket: int) {
    ticket >= |s0.posts|
    || (0 <= t < |s0.phases| && HasTicket(s0.phases[t]) && s0.phases[t].ticket == ticket)
  }

  ghost predicate PhasesSince(s0: State, phases: seq<Phase>) {
    forall t :: 0 <= t < |phases| && HasTicket(phases[t]) ==> DrawnSince(s0, t, phases[t].ticket)
  }

  ghost predicate Since(s0: State, s: State) {
    && |s0.posts| <= |s.posts| && |s0.answers| <= |s.answers|
    && s.answers[..|s0.answers|] == s0.answers
    && PhasesSince(s0, s.phases)
    && (forall k :: |s0.answers| <= k < |s.answers| ==> DrawnSince(s0, s.answers[k].thread, s.answers[k].ticket))
  }

  lemma FreeKeepsSince(s0: State, s: State, t: nat)
    requires PhasesSince(s0, s.phases) && t < |s.phases| && Owns(s.phases[t])
    ensures PhasesSince(s0, FreeAndReturn(s, t).phases)
    ensures FreeAndReturn(s, t).answers == s.answers && FreeAndReturn(s, t).posts == s.posts
  {
  }

  lemma EventKeepsSince(c: Config, s0: State, s: State, e: Event)
    requires Since(s0, s) && Enabled(s, e)
    ensures Since(s0, Apply(c, s, e))
  {
    hide FreeAndReturn, ResumeOwner;
    match e
    case Reject(t) => FreeKeepsSince(s0, s, t);
    case PostFails(t) => FreeKeepsSince(s0, Stamp(s, t), t);
    case OnDone(t) => FreeKeepsSince(s0, s, t);
    case Wake => WakeKeepsSince(s0, s.phases, s.records[s.task.job].thread);
    case _ =>
  }

  lemma WakeKeepsSince(s0: State, ps: seq<Phase>, u: int)
    requires PhasesSince(s0, ps)
    ensures PhasesSince(s0, ResumeOwner(ps, u))
  {
  }

  lemma {:induction false} RunKeepsSince(c: Config, s0: State, s: State, es: seq<Event>)
    requires Since(s0, s) && IsRun(c, s, es)
    ensures Since(s0, RunTo(c, s, es))
    decreases |es|
  {
    hide Apply, Enabled, Since;
    if es == [] {
    } else {
      EventKeepsSince(c, s0, s, es[0]);
      RunKeepsSince(c, s0, Apply(c, s, es[0]), es[1..]);
    }
  }

  /** The sequential order respects real time: if the answer k was already there in state s, and the answer l of
      a later state belongs to a call that was not yet posted in s, then k's post comes before l's. */
  lemma PostOrderRespectsRealTime(c: Config, s: State, es: seq<Event>, k: nat, l: nat)
    requires Reachable(c, s) && IsRun(c, s, es)
    requires k < |s.answers| <= l < |RunTo(c, s, es).answers|
    requires var r := RunTo(c, s, es).answers[l];
             0 <= r.thread < |s.phases| && !(HasTicket(s.phases[r.thread]) && s.phases[r.thread].ticket == r.ticket)
    ensures RunTo(c, s, es).answers[k] == s.answers[k]
    ensures RunTo(c, s, es).answers[k].ticket < RunTo(c, s, es).answers[l].ticket
  {
    ReachableInv(c, s);
    RunKeepsSince(c, s, s, es);
    assert ReturnMatches(c, s.posts, Executed(s), s.answers[k]);
    assert RunTo(c, s, es).answers[..|s.answers|][k] == s.answers[k];
  }
}
