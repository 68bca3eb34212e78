/** Every event keeps the invariant. */
module ProtocolSteps {
  import opened Bags
  import opened Protocol
  import opened ProtocolInvariants
  import opened ProtocolPool
  import opened ProtocolFlow
  import opened ProtocolData
  import opened ProtocolCount

  /** Neither posts, queue, worker, file system nor results change. */
  ghost predicate Quiet(s: State, s': State) {
    && s'.queue == s.queue && s'.task == s.task && s'.fs == s.fs
    && s'.posts == s.posts && s'.answers == s.answers
  }

  /** A thread without a ticket moves to another phase without one; records stay. */
  lemma NeutralStep(c: Config, s: State, s': State, t: nat, p: Phase)
    requires FlowInv(c, s) && DataInv(c, s) && Quiet(s, s') && s'.records == s.records
    requires t < |s.phases| && !HasTicket(s.phases[t]) && !HasTicket(p) && !p.Filled?
    requires Owns(p) ==> 0 <= p.job < |s.records|
    requires s'.phases == s.phases[t := p]
    ensures FlowInv(c, s') && DataInv(c, s')
  {
    NeutralMove(Answered(s.posts, s.queue, s.task), s.posts, s.phases, t, p);
    MemoryMove(c, s.records, s.posts, Executed(s), s.phases, t, p);
  }

  lemma NeutralCount(c: Config, s: State, s': State, t: nat, p: Phase)
    requires CountInv(c, s) && s'.posts == s.posts && s'.answers == s.answers
    requires t < |s.phases| && !HasTicket(s.phases[t]) && !HasTicket(p)
    requires s'.phases == s.phases[t := p]
    requires s'.calls - s'.failures - IsOutstanding(p) == s.calls - s.failures - IsOutstanding(s.phases[t])
    ensures CountInv(c, s')
  {
    SameTicketKept(|s.posts|, s.answers, s.phases, t, p);
    Outstanding(s.phases, t, p);
  }

  lemma BeginKeepsInv(c: Config, s: State, t: nat, call: Call)
    requires Inv(c, s) && Enabled(s, Begin(t, call))
    ensures Inv(c, Apply(c, s, Begin(t, call)))
  {
    hide PoolInv, FlowInv, DataInv, CountInv;
    var p := Fresh(call);
    var s' := s.(phases := s.phases[t := p], calls := s.calls + 1);
    MoveKeepsPool(c, s, s', t, p);
    NeutralStep(c, s, s', t, p);
    NeutralCount(c, s, s', t, p);
  }

  lemma AskKeepsInv(c: Config, s: State, t: nat)
    requires Inv(c, s) && Enabled(s, Ask(t))
    ensures Inv(c, DoAsk(s, t))
  {
    if s.pool.free != [] {
      GrantKeepsInv(c, s, t);
    } else if |s.pool.waiting| < s.pool.capacity {
      WaitKeepsInv(c, s, t);
    } else {
      RefusalKeepsInv(c, s, t);
    }
  }

  lemma GrantKeepsInv(c: Config, s: State, t: nat)
    requires Inv(c, s) && Enabled(s, Ask(t)) && s.pool.free != []
    ensures Inv(c, DoAsk(s, t))
  {
    hide PoolInv, FlowInv, DataInv, CountInv;
    var p := Holding(s.phases[t].call, s.pool.free[0]);
    var s' := s.(pool := s.pool.(free := s.pool.free[1..]), phases := s.phases[t := p]);
    assert DoAsk(s, t) == s';
    FreeJob(c, s);
    GrantKeepsPool(c, s, t, s');
    NeutralStep(c, s, s', t, p);
    NeutralCount(c, s, s', t, p);
  }

  lemma WaitKeepsInv(c: Config, s: State, t: nat)
    requires Inv(c, s) && Enabled(s, Ask(t)) && s.pool.free == [] && |s.pool.waiting| < s.pool.capacity
    ensures Inv(c, DoAsk(s, t))
  {
    hide PoolInv, FlowInv, DataInv, CountInv;
    var p := Waiting(s.phases[t].call);
    var s' := s.(pool := s.pool.(waiting := s.pool.waiting + [t]), phases := s.phases[t := p]);
    assert DoAsk(s, t) == s';
    WaitKeepsPool(c, s, t, s');
    NeutralStep(c, s, s', t, p);
    NeutralCount(c, s, s', t, p);
  }

  lemma RefusalKeepsInv(c: Config, s: State, t: nat)
    requires Inv(c, s) && Enabled(s, Ask(t)) && s.pool.free == [] && |s.pool.waiting| >= s.pool.capacity
    ensures Inv(c, DoAsk(s, t))
  {
    hide PoolInv, FlowInv, DataInv, CountInv;
    var s' := s.(phases := s.phases[t := Idle], failures := s.failures + 1);
    assert DoAsk(s, t) == s';
    RefusalKeepsPool(c, s, t, s');
    NeutralStep(c, s, s', t, Idle);
    NeutralCount(c, s, s', t, Idle);
  }

  lemma FillKeepsInv(c: Config, s: State, t: nat)
    requires Inv(c, s) && Enabled(s, Fill(t))
    ensures Inv(c, DoFill(c, s, t))
  {
    hide PoolInv, FlowInv, DataInv, CountInv;
    var Holding(call, j) := s.phases[t];
    OwnerJob(c, s, t);
    var r, p := s.records[j], Filled(call, j);
    var s' := s.(records := s.records[j := r.(params := c.fill(call, r.params))], phases := s.phases[t := p]);
    assert DoFill(c, s, t) == s';
    MoveKeepsPool(c, s, s', t, p);
    NeutralCount(c, s, s', t, p);
    FillKeepsData(c, s, t, s');
  }

  lemma FillKeepsData(c: Config, s: State, t: nat, s': State)
    requires PoolInv(c, s) && FlowInv(c, s) && DataInv(c, s) && Quiet(s, s')
    requires t < |s.phases| && s.phases[t].Holding? && 0 <= s.phases[t].job < |s.records|
    requires var j, call := s.phases[t].job, s.phases[t].call;
             && s'.records == s.records[j := s.records[j].(params := c.fill(call, s.records[j].params))]
             && s'.phases == s.phases[t := Filled(call, j)]
    ensures FlowInv(c, s') && DataInv(c, s')
  {
    var j := s.phases[t].job;
    var p := Filled(s.phases[t].call, j);
    OwnerJob(c, s, t);
    NeutralMove(Answered(s.posts, s.queue, s.task), s.posts, s.phases, t, p);
    MemoryWrite(c, s.records, s.posts, Executed(s), s.phases, t, j, s'.records[j], p);
  }

  // ---- Events that free a job ----------------------------------------------------------------

  lemma FreeKeepsFlow(c: Config, s: State, t: nat, s': State)
    requires PoolInv(c, s) && FlowInv(c, s) && s'.posts == s.posts && s'.queue == s.queue && s'.task == s.task
    requires t < |s.phases| && Owns(s.phases[t]) && !Unanswered(s.phases[t]) && Freed(s, t, s')
    ensures FlowInv(c, s')
  {
    var a := Answered(s.posts, s.queue, s.task);
    AnsweredLeaves(a, s.posts, s.phases, t, Idle);
    if s.pool.waiting != [] {
      FirstWaiter(c, s);
      var u, qs := s.pool.waiting[0], s.phases[t := Idle];
      NeutralMove(a, s.posts, qs, u, Retry(qs[u].call));
    }
  }

  lemma FreeKeepsMemory(c: Config, s: State, t: nat, s': State)
    requires PoolInv(c, s) && DataInv(c, s) && s'.posts == s.posts && Executed(s') == Executed(s)
    requires t < |s.phases| && Owns(s.phases[t]) && Freed(s, t, s')
    requires s'.records == s.records
    ensures Memory(c, s'.records, s'.posts, Executed(s'), s'.phases)
  {
    MemoryMove(c, s.records, s.posts, Executed(s), s.phases, t, Idle);
    if s.pool.waiting != [] {
      FirstWaiter(c, s);
      var u, qs := s.pool.waiting[0], s.phases[t := Idle];
      MemoryMove(c, s.records, s.posts, Executed(s), qs, u, Retry(qs[u].call));
    }
  }

  /** Waking a waiter changes neither tickets nor the number of outstanding calls. */
  lemma WaiterCount(n: nat, answers: seq<Return>, qs: seq<Phase>, u: nat)
    requires TicketsKept(n, answers, qs) && u < |qs| && qs[u].Waiting?
    ensures TicketsKept(n, answers, qs[u := Retry(qs[u].call)])
    ensures Sum(IsOutstanding, qs[u := Retry(qs[u].call)]) == Sum(IsOutstanding, qs)
  {
    SameTicketKept(n, answers, qs, u, Retry(qs[u].call));
    Outstanding(qs, u, Retry(qs[u].call));
  }

  lemma FailureCount(c: Config, s: State, t: nat, s': State)
    requires PoolInv(c, s) && CountInv(c, s) && s'.posts == s.posts && s'.answers == s.answers
    requires t < |s.phases| && Owns(s.phases[t]) && !HasTicket(s.phases[t]) && Freed(s, t, s')
    requires s'.calls == s.calls && s'.failures == s.failures + 1
    ensures CountInv(c, s')
  {
    var qs := s.phases[t := Idle];
    SameTicketKept(|s.posts|, s.answers, s.phases, t, Idle);
    Outstanding(s.phases, t, Idle);
    if s.pool.waiting != [] {
      FirstWaiter(c, s);
      WaiterCount(|s.posts|, s.answers, qs, s.pool.waiting[0]);
    }
  }

  lemma AnswerCount(c: Config, s: State, t: nat, s': State, r: Return)
    requires PoolInv(c, s) && CountInv(c, s) && s'.posts == s.posts && s'.answers == s.answers + [r]
    requires t < |s.phases| && HasTicket(s.phases[t]) && r.ticket == s.phases[t].ticket && Freed(s, t, s')
    requires s'.calls == s.calls && s'.failures == s.failures
    ensures CountInv(c, s')
  {
    var qs := s.phases[t := Idle];
    TicketReturned(|s.posts|, s.answers, s.phases, t, r);
    Outstanding(s.phases, t, Idle);
    if s.pool.waiting != [] {
      FirstWaiter(c, s);
      WaiterCount(|s.posts|, s'.answers, qs, s.pool.waiting[0]);
    }
  }

  /** free_job has the effect the relation Freed describes. */
  lemma FreeAndReturnFrees(s: State, t: nat)
    requires t < |s.phases| && Owns(s.phases[t])
    ensures Freed(s, t, FreeAndReturn(s, t))
    ensures var s' := FreeAndReturn(s, t);
            Quiet(s, s') && s'.records == s.records && s'.calls == s.calls && s'.failures == s.failures
  {
  }

  lemma RejectKeepsInv(c: Config, s: State, t: nat)
    requires Inv(c, s) && Enabled(s, Reject(t))
    ensures Inv(c, DoReject(s, t))
  {
    hide PoolInv, FlowInv, CountInv, Freed, Memory, AllWritten, Results, FreeAndReturn;
    FreeAndReturnFrees(s, t);
    var s' := FreeAndReturn(s, t).(failures := s.failures + 1);
    FreedSame(s, t, FreeAndReturn(s, t), s');
    FreeKeepsPool(c, s, t, s');
    FreeKeepsFlow(c, s, t, s');
    FreeKeepsMemory(c, s, t, s');
    FailureCount(c, s, t, s');
  }

  /** Freed looks at pool, phases and the number of records only. */
  lemma FreedSame(s: State, t: nat, s1: State, s2: State)
    requires t < |s.phases| && Owns(s.phases[t]) && Freed(s, t, s1)
    requires s2.pool == s1.pool && s2.phases == s1.phases && |s2.records| == |s1.records|
    ensures Freed(s, t, s2)
  {
  }

  /** An on-done callback reads what the sequential execution left for this very post. */
  lemma OnDoneKeepsResults(c: Config, s: State, t: nat)
    requires PoolInv(c, s) && FlowInv(c, s) && DataInv(c, s) && Enabled(s, OnDone(t))
    ensures 0 <= s.phases[t].job < |s.records|
    ensures var p := s.phases[t];
            Results(c, s.fs, s.posts, Executed(s),
                    s.answers + [Return(p.call, t, p.ticket, s.records[p.job].params)])
  {
    var p := s.phases[t];
    OwnerJob(c, s, t);
    assert PhaseMemory(c, s.records, s.posts, Executed(s), p);
    assert PostMatches(s.posts, t, p);
    assert Answered(s.posts, s.queue, s.task) <= Executed(s);
  }

  lemma OnDoneKeepsInv(c: Config, s: State, t: nat)
    requires Inv(c, s) && Enabled(s, OnDone(t))
    ensures Inv(c, DoOnDone(s, t))
  {
    hide PoolInv, FlowInv, CountInv, Freed, Memory, AllWritten, Results, FreeAndReturn;
    OnDoneKeepsResults(c, s, t);
    FreeAndReturnFrees(s, t);
    var p := s.phases[t];
    var r := Return(p.call, t, p.ticket, s.records[p.job].params);
    var s' := FreeAndReturn(s, t).(answers := s.answers + [r]);
    assert DoOnDone(s, t) == s';
    FreedSame(s, t, FreeAndReturn(s, t), s');
    AnswerKeepsInv(c, s, t, r, s');
  }

  lemma AnswerKeepsInv(c: Config, s: State, t: nat, r: Return, s': State)
    requires Inv(c, s) && t < |s.phases| && s.phases[t].Done? && Freed(s, t, s')
    requires s'.queue == s.queue && s'.task == s.task && s'.fs == s.fs && s'.posts == s.posts
    requires s'.records == s.records && s'.answers == s.answers + [r] && r.ticket == s.phases[t].ticket
    requires s'.calls == s.calls && s'.failures == s.failures
    requires Results(c, s.fs, s.posts, Executed(s), s'.answers)
    ensures Inv(c, s')
  {
    hide PoolInv, FlowInv, CountInv, Freed, Memory, AllWritten, Results;
    FreeKeepsPool(c, s, t, s');
    FreeKeepsFlow(c, s, t, s');
    FreeKeepsMemory(c, s, t, s');
    AnswerCount(c, s, t, s', r);
  }

  // ---- Posting -------------------------------------------------------------------------------

  /** Stamping a job that is not posted disturbs nobody. */
  lemma StampKeepsMemory(c: Config, s: State, t: nat)
    requires PoolInv(c, s) && DataInv(c, s) && Enabled(s, PostOk(t))
    ensures 0 <= s.phases[t].job < |s.records|
    ensures Memory(c, Stamp(s, t).records, s.posts, Executed(s), s.phases)
  {
    var p, j := s.phases[t], s.phases[t].job;
    OwnerJob(c, s, t);
    var r := s.records[j].(action := p.call.action, thread := t);
    MemoryWrite(c, s.records, s.posts, Executed(s), s.phases, t, j, r, p);
    assert s.phases[t := p] == s.phases;
  }

  lemma StampKeepsInv(c: Config, s: State, t: nat)
    requires Inv(c, s) && Enabled(s, PostOk(t))
    ensures Inv(c, Stamp(s, t)) && Stamp(s, t).phases == s.phases
  {
    hide Ownership, Wakeups, Tickets, QueueIsTail, CountInv, Memory, AllWritten, Results;
    StampKeepsMemory(c, s, t);
    assert CountInv(c, Stamp(s, t)) by { SameCounts(c, s, Stamp(s, t)); }
  }

  lemma SameCounts(c: Config, s: State, s': State)
    requires CountInv(c, s) && s'.posts == s.posts && s'.answers == s.answers && s'.phases == s.phases
    requires s'.calls == s.calls && s'.failures == s.failures
    ensures CountInv(c, s')
  {
  }

  lemma PostFailsKeepsInv(c: Config, s: State, t: nat)
    requires Inv(c, s) && Enabled(s, PostFails(t))
    ensures Inv(c, DoPostFails(s, t))
  {
    hide Inv, FreeAndReturn;
    StampKeepsInv(c, s, t);
    RejectKeepsInv(c, Stamp(s, t), t);
  }

  /** The state after a successful post. */
  ghost predicate PostedAs(s: State, t: nat, e: Post, s': State)
    requires t < |s.phases|
  {
    && s'.posts == s.posts + [e] && s'.queue == s.queue + [e.job] && s'.task == s.task
    && s'.fs == s.fs && s'.answers == s.answers
    && s'.phases == s.phases[t := Posted(e.call, e.job, |s.posts|, false)]
    && e.thread == t
  }

  lemma PostKeepsFlow(c: Config, s: State, t: nat, e: Post, s': State)
    requires FlowInv(c, s) && t < |s.phases| && !HasTicket(s.phases[t]) && PostedAs(s, t, e, s')
    ensures FlowInv(c, s')
  {
    PostAdded(Answered(s.posts, s.queue, s.task), s.posts, s.phases, t, e, s'.phases[t]);
    PostQueued(s.posts, s.queue, s.task, e);
  }

  lemma PostKeepsData(c: Config, s: State, t: nat, e: Post, s': State)
    requires DataInv(c, s) && t < |s.phases| && s.phases[t].Filled? && PostedAs(s, t, e, s')
    requires s'.records == s.records && 0 <= e.job < |s.records| && PostWritten(c, e)
    requires s.records[e.job] == Record(e.params, e.action, t)
    ensures DataInv(c, s')
  {
    MemoryPost(c, s.records, s.posts, Executed(s), s.phases, e);
    ResultsPost(c, s.fs, s.posts, Executed(s), s.answers, e);
    MemoryMove(c, s.records, s'.posts, Executed(s), s.phases, t, s'.phases[t]);
  }

  lemma PostKeepsCount(c: Config, s: State, t: nat, e: Post, s': State)
    requires CountInv(c, s) && t < |s.phases| && s.phases[t].Filled? && PostedAs(s, t, e, s')
    requires s'.calls == s.calls && s'.failures == s.failures
    ensures CountInv(c, s')
  {
    var p := s'.phases[t];
    TicketDrawn(|s.posts|, s.answers, s.phases, t, p);
    Outstanding(s.phases, t, p);
  }

  /** The post carries what its own thread wrote. */
  lemma PostIsWritten(c: Config, s: State, t: nat)
    requires PoolInv(c, s) && DataInv(c, s) && Enabled(s, PostOk(t))
    ensures 0 <= s.phases[t].job < |s.records|
    ensures var p := s.phases[t];
            PostWritten(c, Post(p.call, p.job, t, p.call.action, s.records[p.job].params))
  {
    OwnerJob(c, s, t);
    assert PhaseMemory(c, s.records, s.posts, Executed(s), s.phases[t]);
  }

  lemma PostOkKeepsInv(c: Config, s: State, t: nat)
    requires Inv(c, s) && Enabled(s, PostOk(t))
    ensures Inv(c, DoPostOk(s, t))
  {
    hide PoolInv, FlowInv, DataInv, CountInv, PostWritten;
    PostIsWritten(c, s, t);
    StampKeepsInv(c, s, t);
    var Filled(call, j) := s.phases[t];
    var e := Post(call, j, t, call.action, s.records[j].params);
    var s1, s' := Stamp(s, t), DoPostOk(s, t);
    assert PostedAs(s1, t, e, s');
    MoveKeepsPool(c, s1, s', t, s'.phases[t]);
    PostKeepsFlow(c, s1, t, e, s');
    PostKeepsData(c, s1, t, e, s');
    PostKeepsCount(c, s1, t, e, s');
  }

  // ---- Suspend and the worker ----------------------------------------------------------------

  lemma SuspendKeepsInv(c: Config, s: State, t: nat)
    requires Inv(c, s) && Enabled(s, Suspend(t))
    ensures Inv(c, DoSuspend(s, t))
  {
    hide PoolInv, FlowInv, DataInv, CountInv;
    var s' := DoSuspend(s, t);
    var p := s'.phases[t];
    MoveKeepsPool(c, s, s', t, p);
    TicketStep(c, s, s', t, p);
    SuspendKeepsFlow(c, s, t, s');
  }

  lemma SuspendKeepsFlow(c: Config, s: State, t: nat, s': State)
    requires FlowInv(c, s) && Enabled(s, Suspend(t)) && s' == DoSuspend(s, t)
    ensures FlowInv(c, s')
  {
    SameTicket(Answered(s.posts, s.queue, s.task), s.posts, s.phases, t, s'.phases[t]);
  }

  /** A move that keeps job and ticket keeps data and counts. */
  lemma TicketStep(c: Config, s: State, s': State, t: nat, p: Phase)
    requires DataInv(c, s) && CountInv(c, s) && t < |s.phases| && HasTicket(s.phases[t]) && HasTicket(p)
    requires p.ticket == s.phases[t].ticket && p.job == s.phases[t].job
    requires s'.records == s.records && s'.posts == s.posts && Executed(s') == Executed(s) && s'.fs == s.fs
    requires s'.answers == s.answers && s'.calls == s.calls && s'.failures == s.failures
    requires s'.phases == s.phases[t := p]
    ensures DataInv(c, s') && CountInv(c, s')
  {
    assert PhaseMemory(c, s.records, s.posts, Executed(s), s.phases[t]);
    MemoryMove(c, s.records, s.posts, Executed(s), s.phases, t, p);
    SameTicketKept(|s.posts|, s.answers, s.phases, t, p);
    Outstanding(s.phases, t, p);
  }

  lemma FetchKeepsInv(c: Config, s: State)
    requires Inv(c, s) && Enabled(s, Fetch)
    ensures Inv(c, DoFetch(s))
  {
    hide Ownership, Wakeups, Tickets, QueueIsTail, TicketsKept, Memory, AllWritten, Results;
    PostFetched(s.posts, s.queue);
  }

  lemma ExecuteKeepsInv(c: Config, s: State)
    requires Inv(c, s) && Enabled(s, Execute)
    ensures Inv(c, DoExecute(c, s))
  {
    hide Ownership, Wakeups, Tickets, QueueIsTail, CountInv, DataInv;
    ExecuteKeepsData(c, s);
    ExecuteKeepsQueue(c, s);
    SameCounts(c, s, DoExecute(c, s));
  }

  lemma ExecuteKeepsQueue(c: Config, s: State)
    requires FlowInv(c, s) && Enabled(s, Execute)
    ensures FlowInv(c, DoExecute(c, s))
  {
  }

  /** The thread, the record and the post the worker is about to execute. */
  lemma WorkersPost(c: Config, s: State) returns (u: nat)
    requires PoolInv(c, s) && FlowInv(c, s) && DataInv(c, s) && Enabled(s, Execute)
    ensures u < |s.phases| && HasTicket(s.phases[u]) && s.phases[u].job == s.task.job
    ensures s.phases[u].ticket == Executed(s) && 0 <= Executed(s) < |s.posts|
    ensures RecordMatches(c, s.records[s.task.job], s.posts, Executed(s), Executed(s))
    ensures forall v :: 0 <= v < |s.phases| && v != u && Owns(s.phases[v]) ==> s.phases[v].job != s.task.job
    ensures forall v :: 0 <= v < |s.phases| && v != u && HasTicket(s.phases[v]) ==> s.phases[v].ticket != Executed(s)
  {
    u := WorkerOwner(s.posts, s.queue, s.task, s.phases);
    OwnerJob(c, s, u);
    assert PhaseMemory(c, s.records, s.posts, Executed(s), s.phases[u]);
    forall v | 0 <= v < |s.phases| && v != u && HasTicket(s.phases[v]) ensures s.phases[v].ticket != Executed(s) {
      assert PostMatches(s.posts, v, s.phases[v]) && PostMatches(s.posts, u, s.phases[u]);
    }
  }

  lemma ExecuteKeepsData(c: Config, s: State)
    requires PoolInv(c, s) && FlowInv(c, s) && DataInv(c, s) && Enabled(s, Execute)
    ensures DataInv(c, DoExecute(c, s))
  {
    hide PoolInv, FlowInv, Memory, AllWritten, Results;
    var u := WorkersPost(c, s);
    var i, j := Executed(s), s.task.job;
    var r := s.records[j];
    ResultsExecute(c, s.fs, s.posts, i, s.answers, r);
    MemoryExecute(c, s.records, s.posts, i, s.phases, u, c.run(r.action, s.fs, r.params).1);
  }

  lemma WakeKeepsInv(c: Config, s: State)
    requires Inv(c, s) && Enabled(s, Wake)
    ensures Inv(c, DoWake(s))
  {
    hide PoolInv, FlowInv, DataInv, CountInv;
    var u := WakesOwner(c, s);
    var s' := DoWake(s);
    var p := s'.phases[u];
    MoveKeepsPool(c, s, s', u, p);
    TicketStep(c, s, s', u, p);
    WakeKeepsFlow(c, s, u, s');
  }

  /** The resume after an execution reaches the owner of the job, suspended or about to be. */
  lemma WakesOwner(c: Config, s: State) returns (u: nat)
    requires PoolInv(c, s) && FlowInv(c, s) && DataInv(c, s) && Enabled(s, Wake)
    ensures u == s.records[s.task.job].thread && u < |s.phases|
    ensures Unanswered(s.phases[u]) && s.phases[u].job == s.task.job
    ensures s.phases[u].ticket == Answered(s.posts, s.queue, s.task)
    ensures Answered(s.posts, s.queue, s.task) < |s.posts|
    ensures u == s.posts[Answered(s.posts, s.queue, s.task)].thread
  {
    u := WorkerOwner(s.posts, s.queue, s.task, s.phases);
    assert PhaseMemory(c, s.records, s.posts, Executed(s), s.phases[u]);
  }

  lemma WakeKeepsFlow(c: Config, s: State, u: nat, s': State)
    requires FlowInv(c, s) && Enabled(s, Wake) && s' == DoWake(s)
    requires u == s.records[s.task.job].thread && u < |s.phases| && Unanswered(s.phases[u])
    requires Answered(s.posts, s.queue, s.task) < |s.posts|
    requires u == s.posts[Answered(s.posts, s.queue, s.task)].thread
    requires s.phases[u].ticket == Answered(s.posts, s.queue, s.task)
    ensures FlowInv(c, s')
  {
    OwnerWoken(Answered(s.posts, s.queue, s.task), s.posts, s.phases, u, s'.phases[u]);
  }

  // ---- All events ----------------------------------------------------------------------------

  lemma StepKeepsInv(c: Config, s: State, e: Event)
    requires Inv(c, s) && Enabled(s, e)
    ensures Inv(c, Apply(c, s, e))
  {
    hide Inv;
    match e
    case Begin(t, call) => BeginKeepsInv(c, s, t, call);
    case Ask(t) => AskKeepsInv(c, s, t);
    case Fill(t) => FillKeepsInv(c, s, t);
    case Reject(t) => RejectKeepsInv(c, s, t);
    case PostOk(t) => PostOkKeepsInv(c, s, t);
    case PostFails(t) => PostFailsKeepsInv(c, s, t);
    case Suspend(t) => SuspendKeepsInv(c, s, t);
    case OnDone(t) => OnDoneKeepsInv(c, s, t);
    case Fetch => FetchKeepsInv(c, s);
    case Execute => ExecuteKeepsInv(c, s);
    case Wake => WakeKeepsInv(c, s);
  }
}
