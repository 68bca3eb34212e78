/** Tickets and calls are conserved. */
module ProtocolCount {
  import opened Bags
  import opened Protocol
  import opened ProtocolInvariants

  lemma SameTicketKept(n: nat, answers: seq<Return>, ps: seq<Phase>, t: nat, p: Phase)
    requires TicketsKept(n, answers, ps) && t < |ps| && TicketOf(t, ps[t]) == TicketOf(t, p)
    ensures TicketsKept(n, answers, ps[t := p])
  {
    BagReplace(TicketOf, ps, t, p);
  }

  lemma TicketDrawn(n: nat, answers: seq<Return>, ps: seq<Phase>, t: nat, p: Phase)
    requires TicketsKept(n, answers, ps) && t < |ps| && !HasTicket(ps[t]) && HasTicket(p) && p.ticket == n
    ensures TicketsKept(n + 1, answers, ps[t := p])
  {
    BagReplace(TicketOf, ps, t, p);
  }

  lemma TicketReturned(n: nat, answers: seq<Return>, ps: seq<Phase>, t: nat, r: Return)
    requires TicketsKept(n, answers, ps) && t < |ps| && HasTicket(ps[t]) && r.ticket == ps[t].ticket
    ensures TicketsKept(n, answers + [r], ps[t := Idle])
  {
    hide Bag, Below;
    BagReplace(TicketOf, ps, t, Idle);
    AnswerAdded(answers, r);
  }

  lemma AnswerAdded(answers: seq<Return>, r: Return)
    ensures Bag(ReturnTicket, answers + [r]) == Bag(ReturnTicket, answers) + multiset{r.ticket}
  {
    assert (answers + [r])[..|answers|] == answers;
  }

  /** What moving one thread does to the number of outstanding calls. */
  lemma Outstanding(ps: seq<Phase>, t: nat, p: Phase)
    requires t < |ps|
    ensures Sum(IsOutstanding, ps[t := p]) == Sum(IsOutstanding, ps) - IsOutstanding(ps[t]) + IsOutstanding(p)
  {
    SumUpdate(IsOutstanding, ps, t, p);
  }
}
