/** Posts, the queue and the worker task: who waits for which post. */
module ProtocolFlow {
  import opened Protocol
  import opened ProtocolInvariants

  /** A thread without a ticket may move to any other phase without a ticket. */
  lemma NeutralMove(answered: int, posts: seq<Post>, ps: seq<Phase>, t: nat, p: Phase)
    requires Tickets(answered, posts, ps) && t < |ps| && !HasTicket(ps[t]) && !HasTicket(p)
    ensures Tickets(answered, posts, ps[t := p])
  {
    var qs := ps[t := p];
    forall i | answered <= i < |posts| ensures Pending(posts, qs, i) {
      assert Pending(posts, ps, i);
    }
  }

  /** A thread that was answered gives up its ticket. */
  lemma AnsweredLeaves(answered: int, posts: seq<Post>, ps: seq<Phase>, t: nat, p: Phase)
    requires Tickets(answered, posts, ps) && t < |ps| && !Unanswered(ps[t]) && !HasTicket(p)
    ensures Tickets(answered, posts, ps[t := p])
  {
    var qs := ps[t := p];
    forall i | answered <= i < |posts| ensures Pending(posts, qs, i) {
      assert Pending(posts, ps, i);
    }
  }

  /** A suspend keeps ticket, job and call, and whether the thread is answered. */
  lemma SameTicket(answered: int, posts: seq<Post>, ps: seq<Phase>, t: nat, p: Phase)
    requires Tickets(answered, posts, ps) && t < |ps| && HasTicket(ps[t]) && HasTicket(p)
    requires p.ticket == ps[t].ticket && p.job == ps[t].job && p.call == ps[t].call
    requires Unanswered(p) <==> Unanswered(ps[t])
    ensures Tickets(answered, posts, ps[t := p])
  {
    var qs := ps[t := p];
    forall i | answered <= i < |posts| ensures Pending(posts, qs, i) {
      assert Pending(posts, ps, i);
    }
  }

  lemma PostAdded(answered: int, posts: seq<Post>, ps: seq<Phase>, t: nat, e: Post, p: Phase)
    requires Tickets(answered, posts, ps) && t < |ps| && !HasTicket(ps[t])
    requires p == Posted(e.call, e.job, |posts|, false) && e.thread == t
    ensures Tickets(answered, posts + [e], ps[t := p])
  {
    var posts', qs := posts + [e], ps[t := p];
    forall i | answered <= i < |posts'| ensures Pending(posts', qs, i) {
      if i < |posts| { assert Pending(posts, ps, i); }
    }
    forall u | 0 <= u < |qs| && HasTicket(qs[u])
      ensures PostMatches(posts', u, qs[u])
      ensures Unanswered(qs[u]) <==> answered <= qs[u].ticket
    {
      if u != t { assert PostMatches(posts, u, ps[u]); }
    }
  }

  lemma PostQueued(posts: seq<Post>, queue: seq<int>, task: Task, e: Post)
    requires QueueIsTail(posts, queue, task)
    ensures QueueIsTail(posts + [e], queue + [e.job], task)
    ensures Answered(posts + [e], queue + [e.job], task) == Answered(posts, queue, task)
  {
  }

  lemma PostFetched(posts: seq<Post>, queue: seq<int>)
    requires QueueIsTail(posts, queue, Fetching) && queue != []
    ensures QueueIsTail(posts, queue[1..], Fetched(queue[0]))
    ensures Answered(posts, queue[1..], Fetched(queue[0])) == Answered(posts, queue, Fetching)
  {
    assert queue[0] == posts[|posts| - |queue| + 0].job;
    forall k | 0 <= k < |queue[1..]| ensures queue[1..][k] == posts[|posts| - |queue[1..]| + k].job {
      assert queue[1..][k] == queue[k + 1] == posts[|posts| - |queue| + (k + 1)].job;
    }
  }

  /** The thread of the post the worker holds: unanswered, and owner of the job. */
  lemma WorkerOwner(posts: seq<Post>, queue: seq<int>, task: Task, ps: seq<Phase>) returns (u: nat)
    requires QueueIsTail(posts, queue, task) && Tickets(Answered(posts, queue, task), posts, ps)
    requires !task.Fetching?
    ensures u == posts[Answered(posts, queue, task)].thread && u < |ps|
    ensures Unanswered(ps[u]) && ps[u].ticket == Answered(posts, queue, task) && ps[u].job == task.job
  {
    var a := Answered(posts, queue, task);
    assert Pending(posts, ps, a);
    u := posts[a].thread;
    assert PostMatches(posts, u, ps[u]);
  }

  /** The thread of a queued post. */
  lemma QueuedOwner(posts: seq<Post>, queue: seq<int>, task: Task, ps: seq<Phase>, k: nat) returns (u: nat)
    requires QueueIsTail(posts, queue, task) && Tickets(Answered(posts, queue, task), posts, ps)
    requires k < |queue|
    ensures u < |ps| && Unanswered(ps[u]) && ps[u].ticket == |posts| - |queue| + k && ps[u].job == queue[k]
  {
    var i := |posts| - |queue| + k;
    assert Pending(posts, ps, i);
    u := posts[i].thread;
    assert PostMatches(posts, u, ps[u]);
  }

  /** The worker resumes the owner of the job it executed: the first unanswered post is answered. */
  lemma OwnerWoken(answered: int, posts: seq<Post>, ps: seq<Phase>, u: nat, p: Phase)
    requires Tickets(answered, posts, ps) && answered < |posts| && u == posts[answered].thread
    requires u < |ps| && Unanswered(ps[u]) && ps[u].ticket == answered
    requires HasTicket(p) && !Unanswered(p) && p.ticket == answered && p.job == ps[u].job && p.call == ps[u].call
    ensures Tickets(answered + 1, posts, ps[u := p])
  {
    var qs := ps[u := p];
    forall i | answered + 1 <= i < |posts| ensures Pending(posts, qs, i) {
      assert Pending(posts, ps, i);
    }
    forall t | 0 <= t < |qs| && HasTicket(qs[t])
      ensures PostMatches(posts, t, qs[t])
      ensures Unanswered(qs[t]) <==> answered + 1 <= qs[t].ticket
    {
      assert PostMatches(posts, t, ps[t]);
    }
  }
}
