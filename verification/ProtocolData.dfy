/** Parameters, file system and results: the asynchronous execution against the sequential one. */
module ProtocolData {
  import opened Protocol
  import opened ProtocolInvariants

  // ---- The sequential execution --------------------------------------------------------------

  lemma {:induction false} OneOutputPerPost(c: Config, posts: seq<Post>)
    ensures |Sequential(c, posts).1| == |posts|
  {
    if posts == [] {
    } else {
      OneOutputPerPost(c, posts[..|posts| - 1]);
    }
  }

  /** Executing one more post. */
  lemma SequentialStep(c: Config, posts: seq<Post>, e: Post)
    ensures Sequential(c, posts + [e]).0 == c.run(e.action, Sequential(c, posts).0, e.params).0
    ensures Sequential(c, posts + [e]).1 ==
            Sequential(c, posts).1 + [c.run(e.action, Sequential(c, posts).0, e.params).1]
  {
    assert (posts + [e])[..|posts|] == posts;
  }

  /** Later posts do not change what earlier ones left. */
  lemma {:induction false} OutputStable(c: Config, posts: seq<Post>, k: nat, i: nat)
    requires i < k <= |posts|
    ensures OutputOf(c, posts, i) == OutputOf(c, posts[..k], i)
    decreases |posts|
  {
    OneOutputPerPost(c, posts);
    OneOutputPerPost(c, posts[..k]);
    if k == |posts| {
      assert posts[..k] == posts;
    } else {
      var n := |posts| - 1;
      OneOutputPerPost(c, posts[..n]);
      assert posts == posts[..n] + [posts[n]];
      SequentialStep(c, posts[..n], posts[n]);
      OutputStable(c, posts[..n], k, i);
      assert posts[..n][..k] == posts[..k];
    }
  }

  /** What post number i leaves is its action on the file system its predecessors left. */
  lemma OutputIs(c: Config, posts: seq<Post>, i: nat)
    requires i < |posts|
    ensures OutputOf(c, posts, i) ==
            c.run(posts[i].action, Sequential(c, posts[..i]).0, posts[i].params).1
    ensures Sequential(c, posts[..i + 1]).0 ==
            c.run(posts[i].action, Sequential(c, posts[..i]).0, posts[i].params).0
  {
    OutputStable(c, posts, i + 1, i);
    assert posts[..i + 1] == posts[..i] + [posts[i]];
    SequentialStep(c, posts[..i], posts[i]);
    OneOutputPerPost(c, posts[..i]);
    OneOutputPerPost(c, posts[..i + 1]);
  }

  lemma OutputsKept(c: Config, posts: seq<Post>, e: Post)
    ensures forall i :: 0 <= i < |posts| ==> OutputOf(c, posts + [e], i) == OutputOf(c, posts, i)
  {
    forall i | 0 <= i < |posts| ensures OutputOf(c, posts + [e], i) == OutputOf(c, posts, i) {
      OutputStable(c, posts + [e], |posts|, i);
      assert (posts + [e])[..|posts|] == posts;
    }
  }

  // ---- Memory --------------------------------------------------------------------------------

  lemma MemoryMove(c: Config, records: seq<Record>, posts: seq<Post>, executed: int, ps: seq<Phase>, t: nat, p: Phase)
    requires Memory(c, records, posts, executed, ps) && t < |ps|
    requires PhaseMemory(c, records, posts, executed, p)
    ensures Memory(c, records, posts, executed, ps[t := p])
  {
  }

  /** Writing a record disturbs only the thread that owns the job. */
  lemma MemoryWrite(c: Config, records: seq<Record>, posts: seq<Post>, executed: int, ps: seq<Phase>,
                    t: nat, j: nat, r: Record, p: Phase)
    requires Memory(c, records, posts, executed, ps) && t < |ps| && j < |records|
    requires forall u :: 0 <= u < |ps| && u != t && Owns(ps[u]) ==> ps[u].job != j
    requires PhaseMemory(c, records[j := r], posts, executed, p)
    ensures Memory(c, records[j := r], posts, executed, ps[t := p])
  {
    var records', qs := records[j := r], ps[t := p];
    forall u | 0 <= u < |qs| ensures PhaseMemory(c, records', posts, executed, qs[u]) {
      if u != t { assert PhaseMemory(c, records, posts, executed, ps[u]); }
    }
  }

  lemma MemoryPost(c: Config, records: seq<Record>, posts: seq<Post>, executed: int, ps: seq<Phase>, e: Post)
    requires Memory(c, records, posts, executed, ps) && executed <= |posts|
    ensures Memory(c, records, posts + [e], executed, ps)
  {
    OutputsKept(c, posts, e);
    forall u | 0 <= u < |ps| ensures PhaseMemory(c, records, posts + [e], executed, ps[u]) {
      assert PhaseMemory(c, records, posts, executed, ps[u]);
    }
  }

  /** Executing post number i turns the record of its job from its input into its output. */
  lemma MemoryExecute(c: Config, records: seq<Record>, posts: seq<Post>, i: nat, ps: seq<Phase>, t: nat, out: Params)
    requires Memory(c, records, posts, i, ps) && t < |ps| && i < |posts|
    requires HasTicket(ps[t]) && ps[t].ticket == i && 0 <= ps[t].job < |records|
    requires forall u :: 0 <= u < |ps| && u != t && Owns(ps[u]) ==> ps[u].job != ps[t].job
    requires forall u :: 0 <= u < |ps| && u != t && HasTicket(ps[u]) ==> ps[u].ticket != i
    requires out == OutputOf(c, posts, i)
    ensures Memory(c, records[ps[t].job := records[ps[t].job].(params := out)], posts, i + 1, ps)
  {
    var j := ps[t].job;
    var records' := records[j := records[j].(params := out)];
    forall u | 0 <= u < |ps| ensures PhaseMemory(c, records', posts, i + 1, ps[u]) {
      assert PhaseMemory(c, records, posts, i, ps[u]);
    }
  }

  // ---- Results -------------------------------------------------------------------------------

  lemma ResultsPost(c: Config, fs: FileSystem, posts: seq<Post>, executed: int, answers: seq<Return>, e: Post)
    requires Results(c, fs, posts, executed, answers)
    ensures Results(c, fs, posts + [e], executed, answers)
  {
    OutputsKept(c, posts, e);
    assert (posts + [e])[..executed] == posts[..executed];
    forall k | 0 <= k < |answers| ensures ReturnMatches(c, posts + [e], executed, answers[k]) {
      assert ReturnMatches(c, posts, executed, answers[k]);
    }
  }

  lemma ResultsExecute(c: Config, fs: FileSystem, posts: seq<Post>, i: nat, answers: seq<Return>, r: Record)
    requires Results(c, fs, posts, i, answers) && i < |posts|
    requires r.action == posts[i].action && r.params == posts[i].params
    ensures Results(c, c.run(r.action, fs, r.params).0, posts, i + 1, answers)
    ensures c.run(r.action, fs, r.params).1 == OutputOf(c, posts, i)
  {
    OutputIs(c, posts, i);
    forall k | 0 <= k < |answers| ensures ReturnMatches(c, posts, i + 1, answers[k]) {
      assert ReturnMatches(c, posts, i, answers[k]);
    }
  }
}
