/** The stream from the played file through the FIFO to the decoder. */
module AudioStream {

  const ELEMENT_NUM := 10
  const PUSH_NUM_MAX := 5

  datatype Result = Ok | Err | Eof | Full

  /** What happens around one push: the decoder takes up to `decoded` bytes first, then read() answers:
      an error if `wanted` is negative, otherwise at most `wanted` bytes, and at least one unless at the end. */
  datatype Env = Env(decoded: nat, wanted: int)

  datatype StopMode = Normal | EsEnd

  /** How many elements a refill offers for that much vacancy: as many as fit, at most five, and none unless more
      than one fits. */
  function PushesFor(elementSize: nat, vacant: int): (n: nat)
    requires elementSize > 0
    ensures n <= 5 && (n == 0 <==> vacant <= elementSize)
    ensures n > 0 ==> n * elementSize <= vacant
    ensures 0 < n < 5 ==> vacant < (n + 1) * elementSize
  {
    if vacant <= elementSize then 0
    else
      QuotientFits(vacant, elementSize);
      if vacant / elementSize >= PUSH_NUM_MAX then
        FewerFit(PUSH_NUM_MAX, vacant / elementSize, elementSize);
        PUSH_NUM_MAX
      else vacant / elementSize
  }

  function Bytes(n: int, elementSize: nat): int { n * elementSize }

  /** The count as the refill computes it. */
  lemma RefillCount(elementSize: nat, vacant: int, pushes: nat)
    requires vacant > elementSize > 0
    requires pushes == if vacant / elementSize >= PUSH_NUM_MAX then PUSH_NUM_MAX else vacant / elementSize
    ensures pushes == PushesFor(elementSize, vacant) && Bytes(pushes, elementSize) <= vacant
  {
  }

  /** Room for one element more. */
  lemma Room(i: nat, n: nat, elementSize: nat)
    requires i < n
    ensures Bytes(i, elementSize) + elementSize == Bytes(i + 1, elementSize) <= Bytes(n, elementSize)
    ensures Bytes(i, elementSize) >= 0
  {
    FewerFit(i + 1, n, elementSize);
  }

  /** A FIFO that holds the first nine elements holds more than one. */
  lemma RoomAtFirst(capacity: nat, elementSize: nat)
    requires elementSize > 0 && capacity >= (ELEMENT_NUM - 1) * elementSize
    ensures Bytes(ELEMENT_NUM - 1, elementSize) <= capacity && elementSize < capacity && Bytes(0, elementSize) == 0
  {
  }

  lemma QuotientFits(a: nat, b: nat)
    requires b > 0
    ensures a / b * b <= a < (a / b + 1) * b && (a >= b ==> a / b >= 1)
  {
  }

  lemma FewerFit(m: nat, n: nat, size: nat)
    requires m <= n
    ensures m * size <= n * size
  {
  }

  /** How many bytes read() delivers with so many left: an error as -1, the end of the file as 0, otherwise at least one
      byte and at most what is left, what is wanted and what an element holds. */
  function Delivered(left: nat, elementSize: nat, wanted: int): (n: int)
    requires elementSize > 0
    ensures n == -1 <==> wanted < 0
    ensures n == 0 <==> wanted >= 0 && left == 0
    ensures -1 <= n <= left && n <= elementSize && (wanted > 0 ==> n <= wanted)
    ensures n == left || n == elementSize || n == wanted || wanted <= 0
  {
    if wanted < 0 then -1
    else if wanted > elementSize then (if left < elementSize then left else elementSize)
    else if wanted == 0 then (if left < 1 then left else 1)
    else if left < wanted then left else wanted
  }

  /** No read fails in these pushes. */
  predicate Readable(env: seq<Env>) {
    forall k :: 0 <= k < |env| ==> env[k].wanted >= 0
  }

  /** Where the file is positioned after pushes, of which the first failing read is the last. */
  function ReadTo(size: nat, position: nat, elementSize: nat, env: seq<Env>): (p: nat)
    requires position <= size && elementSize > 0
    ensures position <= p <= size
    decreases |env|
  {
    if env == [] then position
    else
      var p := ReadTo(size, position, elementSize, env[..|env| - 1]);
      if Readable(env) then p + Delivered(size - p, elementSize, env[|env| - 1].wanted) else p
  }

  /** One push more. */
  lemma ReadOn(size: nat, position: nat, elementSize: nat, env: seq<Env>, k: nat)
    requires position <= size && elementSize > 0 && k < |env| && Readable(env[..k])
    ensures var p := ReadTo(size, position, elementSize, env[..k]);
            var n := Delivered(size - p, elementSize, env[k].wanted);
            && ReadTo(size, position, elementSize, env[..k + 1]) == (if n < 0 then p else p + n)
            && (n >= 0 ==> Readable(env[..k + 1]))
  {
    hide Delivered;
    assert env[..k + 1][..k] == env[..k];
    if env[k].wanted < 0 { assert env[..k + 1][k].wanted < 0; }
  }

  /** Once a read has failed or the file is at its end, further pushes read nothing. */
  lemma {:induction false} ReadStops(size: nat, position: nat, elementSize: nat, env: seq<Env>, k: nat)
    requires position <= size && elementSize > 0 && k <= |env|
    requires !Readable(env[..k]) || ReadTo(size, position, elementSize, env[..k]) == size
    ensures ReadTo(size, position, elementSize, env) == ReadTo(size, position, elementSize, env[..k])
    decreases |env|
  {
    var n := |env| - 1;
    if k == |env| {
      assert env[..k] == env;
    } else {
      assert env[..n][..k] == env[..k];
      ReadStops(size, position, elementSize, env[..n], k);
      if Readable(env) { assert Readable(env[..k]); }
    }
  }

  /** Pushes without a failing read get on, unless the file is at its end. */
  lemma {:induction false} ReadGetsOn(size: nat, position: nat, elementSize: nat, env: seq<Env>)
    requires position <= size && elementSize > 0 && Readable(env)
    ensures var p := ReadTo(size, position, elementSize, env); p == size || p >= position + |env|
    decreases |env|
  {
    if env == [] {
    } else {
      ReadGetsOn(size, position, elementSize, env[..|env| - 1]);
    }
  }

  lemma AtFirst(size: nat, position: nat, elementSize: nat, env: seq<Env>)
    requires position <= size && elementSize > 0
    ensures ReadTo(size, position, elementSize, env[..0]) == position && Readable(env[..0])
  {
  }

  /** A push that fails or ends the file is the last one that counts. */
  lemma Stopped(size: nat, position: nat, elementSize: nat, env: seq<Env>, i: nat, n: nat)
    requires position <= size && elementSize > 0 && i < n <= |env|
    requires env[i].wanted < 0 || ReadTo(size, position, elementSize, env[..i + 1]) == size
    ensures ReadTo(size, position, elementSize, env[..n]) == ReadTo(size, position, elementSize, env[..i + 1])
    ensures env[i].wanted < 0 ==> !Readable(env)
  {
    assert env[..n][..i + 1] == env[..i + 1];
    if env[i].wanted < 0 { assert env[..i + 1][i].wanted < 0; }
    ReadStops(size, position, elementSize, env[..n], i + 1);
  }

  /** A refill of an empty FIFO gets on by a byte at least, unless the file is at its end. */
  lemma RoundGetsOn(size: nat, position: nat, elementSize: nat, env: seq<Env>, vacant: nat)
    requires position <= size && 0 < elementSize < vacant && |env| == PUSH_NUM_MAX && Readable(env)
    ensures var p := ReadTo(size, position, elementSize, env[..PushesFor(elementSize, vacant)]);
            p == size || p > position
  {
    ReadGetsOn(size, position, elementSize, env[..PushesFor(elementSize, vacant)]);
  }

  /** The decoder empties the FIFO before each of these pushes. */
  predicate Drains(env: seq<Env>, capacity: nat) {
    forall k :: 0 <= k < |env| ==> env[k].decoded >= capacity
  }

  class Player {
    const file: seq<int>
    const elementSize: nat
    const capacity: nat
    var size: int
    var position: nat
    var fifo: seq<int>
    ghost var consumed: seq<int>

    /** Conservation: what the decoder consumed followed by what the FIFO holds is the part of the file that
        has been read, and the size field counts the rest. */
    ghost predicate Conserved()
      reads this
    {
      && elementSize > 0
      && position <= |file| && size == |file| - position
      && |fifo| <= capacity
      && consumed + fifo == file[..position]
    }

    /** app_play_curr_file up to the first push: the file is opened and measured, the FIFO is empty. */
    constructor (file: seq<int>, elementSize: nat, capacity: nat)
      requires elementSize > 0
      ensures Conserved() && fifo == [] && consumed == [] && position == 0
      ensures this.file == file && this.elementSize == elementSize && this.capacity == capacity
    {
      this.file := file;
      this.elementSize := elementSize;
      this.capacity := capacity;
      size := |file|;
      position := 0;
      fifo := [];
      consumed := [];
    }

    /** The decoder takes bytes out of the FIFO. */
    method Decode(n: nat)
      modifies this`fifo, this`consumed
      ensures |fifo| == (if n < old(|fifo|) then old(|fifo|) - n else 0) && consumed + fifo == old(consumed + fifo)
    {
      var k := if n < |fifo| then n else |fifo|;
      consumed := consumed + fifo[..k];
      fifo := fifo[k..];
    }

    /** How many bytes read() delivers at this position. */
    function ReadCount(wanted: int): int
      requires position <= |file| && elementSize > 0
      reads this`position
    {
      Delivered(|file| - position, elementSize, wanted)
    }

    /** CMN_SimpleFifoOffer: all or nothing; the answer is the number of bytes taken. */
    method Offer(bytes: seq<int>) returns (n: nat)
      modifies this`fifo
      ensures n == if |old(fifo)| + |bytes| <= capacity then |bytes| else 0
      ensures fifo == if |old(fifo)| + |bytes| <= capacity then old(fifo) + bytes else old(fifo)
    {
      if |fifo| + |bytes| <= capacity {
        fifo := fifo + bytes;
        return |bytes|;
      }
      return 0;
    }

    /** app_push_simple_fifo.  With room for one element no byte that was read is dropped: the stream stays
        conserved; OK means bytes were added, EOF that the whole file was offered. */
    method Push(wanted: int) returns (r: Result)
      requires Conserved() && capacity - |fifo| >= elementSize
      modifies this`position, this`fifo, this`size
      ensures Conserved() && |fifo| <= |old(fifo)| + elementSize && consumed == old(consumed)
      ensures position == old(position) + if r.Err? then 0 else old(ReadCount(wanted))
      ensures old(ReadCount(wanted)) == Delivered(|file| - old(position), elementSize, wanted)
      ensures r.Err? <==> wanted < 0
      ensures r.Ok? ==> 0 < size < old(size)
      ensures r.Eof? ==> size == 0 < old(size)
      ensures r.Full? <==> wanted >= 0 && old(size) == 0
    {
      hide Delivered;
      var ret := ReadCount(wanted);
      if ret < 0 {
        return Err;
      }
      var bytes := file[position..position + ret];
      position := position + ret;
      var offered := Offer(bytes);
      if offered == 0 {
        return Full;
      }
      size := size - ret;
      assert file[..position] == file[..old(position)] + bytes;
      assert consumed + (old(fifo) + bytes) == (consumed + old(fifo)) + bytes;
      if size == 0 {
        return Eof;
      }
      return Ok;
    }

    /** The loop of app_first_push_simple_fifo and app_refill_simple_fifo: n pushes, up to the first that fails or ends
        the file.  With room for n elements at the start there is room for each of them, whatever the decoder takes. */
    method PushUpTo(n: nat, env: seq<Env>) returns (ret: Result)
      requires Conserved() && n <= |env| && capacity - |fifo| >= Bytes(n, elementSize)
      modifies this
      ensures Conserved()
      ensures position == ReadTo(|file|, old(position), elementSize, env[..n])
      ensures n > 0 && Drains(env, capacity) ==> |fifo| <= elementSize
      ensures ret.Ok? ==> Readable(env[..n]) && (n > 0 ==> size > 0)
      ensures ret.Err? ==> !Readable(env)
      ensures ret.Eof? || ret.Full? ==> size == 0
      ensures n == 0 ==> ret.Ok?
    {
      hide ReadTo, Delivered, Bytes, Readable;
      ret := Ok;
      var i := 0;
      AtFirst(|file|, position, elementSize, env);
      while i < n
        invariant 0 <= i <= n && ret.Ok? && Readable(env[..i]) && (i > 0 ==> size > 0)
        invariant Conserved() && capacity - |fifo| >= Bytes(n - i, elementSize)
        invariant position == ReadTo(|file|, old(position), elementSize, env[..i])
        invariant i > 0 && Drains(env, capacity) ==> |fifo| <= elementSize
      {
        Room(n - i - 1, n, elementSize);
        ReadOn(|file|, old(position), elementSize, env, i);
        Decode(env[i].decoded);
        ret := Push(env[i].wanted);
        if ret != Ok {
          Stopped(|file|, old(position), elementSize, env, i, n);
          break;
        }
        i := i + 1;
      }
    }

    /** app_first_push_simple_fifo: fills an empty FIFO that holds at least nine elements, by nine pushes up to the
        first that fails or ends the file. */
    method FirstPush(env: seq<Env>) returns (ok: bool)
      requires Conserved() && fifo == [] && capacity >= 9 * elementSize && |env| == 9
      modifies this
      ensures Conserved()
      ensures Readable(env) ==> ok
      ensures ok ==> Readable(env) || size == 0
      ensures position == ReadTo(|file|, old(position), elementSize, env)
    {
      RoomAtFirst(capacity, elementSize);
      var ret := PushUpTo(ELEMENT_NUM - 1, env);
      assert env[..ELEMENT_NUM - 1] == env;
      ok := ret != Err;
    }

    /** app_refill_simple_fifo: the count computed from the vacancy leaves room for every element it pushes,
        whatever the decoder takes meanwhile, and it pushes that many up to the first that fails or ends the file. */
    method Refill(env: seq<Env>) returns (ok: bool)
      requires Conserved() && |env| == PUSH_NUM_MAX
      modifies this
      ensures Conserved()
      ensures old(size) > 0 && size == 0 ==> !ok
      ensures !ok && Readable(env) ==> size == 0
      ensures var n := PushesFor(elementSize, capacity - old(|fifo|));
              && position == ReadTo(|file|, old(position), elementSize, env[..n])
              && (ok ==> Readable(env[..n]) && (n > 0 ==> size > 0))
    {
      hide ReadTo, Delivered, Bytes, PushesFor, Readable;
      var ret := Ok;
      var vacant := capacity - |fifo|;
      AtFirst(|file|, position, elementSize, env);
      if vacant != 0 && vacant > elementSize {
        var pushes := vacant / elementSize;
        pushes := if pushes >= PUSH_NUM_MAX then PUSH_NUM_MAX else pushes;
        RefillCount(elementSize, vacant, pushes);
        ret := PushUpTo(pushes, env);
      }
      ok := ret.Ok?;
    }

    /** The mode app_stop chooses. */
    method Stop() returns (mode: StopMode)
      requires Conserved()
      ensures mode.EsEnd? <==> size == 0
      ensures mode.EsEnd? <==> consumed + fifo == file
    {
      mode := if size != 0 then Normal else EsEnd;
      if size != 0 { assert |consumed + fifo| < |file|; } else { assert file[..position] == file; }
    }

    /** No read fails in the rounds, and the decoder empties the FIFO before each of them. */
    predicate KeepsUp(rounds: seq<seq<Env>>, between: seq<nat>)
      requires |between| > |rounds|
    {
      forall k :: 0 <= k < |rounds| ==> Readable(rounds[k]) && between[k] >= capacity
    }

    /** app_play_curr_file's push, app_play_process and the stop that follows.  `rounds` are the refills until a
        pause or the play time ends the loop; the decoder takes up to `between[k]` bytes before round k, the last
        entry before the stop, and more within the rounds.  In every such interleaving the stream is conserved, and
        the stop plays the FIFO out exactly when the whole file was offered.  A decoder that empties the FIFO
        between the rounds gets the whole file in at most one round a byte, if every read succeeds. */
    method Play(first: seq<Env>, rounds: seq<seq<Env>>, between: seq<nat>) returns (started: bool, mode: StopMode)
      requires Conserved() && fifo == [] && capacity >= 9 * elementSize
      requires |first| == 9 && forall k :: 0 <= k < |rounds| ==> |rounds[k]| == PUSH_NUM_MAX
      requires |between| == |rounds| + 1
      modifies this
      ensures Conserved()
      ensures started ==> (mode.EsEnd? <==> consumed + fifo == file)
      ensures started && between[|rounds|] >= capacity ==> fifo == []
      ensures old(size) == 0 ==> !started
      ensures old(size) > 0 && Readable(first) ==> started
      ensures started && KeepsUp(rounds, between) && |rounds| >= |file| ==> mode.EsEnd?
    {
      hide ReadTo, Delivered, PushesFor, Bytes, Readable;
      mode := Normal;
      if size == 0 {
        return false, Normal;
      }
      started := FirstPush(first);
      if !started {
        return false, Normal;
      }
      RoomAtFirst(capacity, elementSize);
      var k := 0;
      while k < |rounds|
        invariant 0 <= k <= |rounds| && Conserved()
        invariant KeepsUp(rounds, between) ==> position >= k
      {
        Decode(between[k]);
        var ok;
        ghost var before := position;
        ok := Refill(rounds[k]);
        if KeepsUp(rounds, between) { RoundGetsOn(|file|, before, elementSize, rounds[k], capacity); }
        if !ok {
          break;
        }
        k := k + 1;
      }
      Decode(between[|rounds|]);
      mode := Stop();
    }
  }
}
