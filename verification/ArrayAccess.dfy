/** Java array elements handed to a file operation: directly, when the array is immortal, or through the
    buffer of the job. */
module ArrayAccess {

  const SNI_OK := 0
  const LLFS_NOK := -1
  const IO_BUFFER_SIZE := 128

  /** What a file operation answers. */
  datatype Answer = Failed | EndOfFile | Count(n: nat)

  /** Where `out_buffer` points: into the Java array, or at the start of the job's buffer. */
  datatype Pointer = InJava(offset: int) | InBuffer

  predicate InBounds(javaLength: int, start: int, length: int): (inside: bool)
    ensures inside <==> 0 <= start && 0 <= length && start + length <= javaLength
  {
    start >= 0 && length >= 0 && length <= javaLength - start
  }

  /** The array after `bytes` have been stored from `start` on. */
  function Spliced(a: seq<int>, start: nat, bytes: seq<int>): (r: seq<int>)
    requires start + |bytes| <= |a|
    ensures |r| == |a| && r[start..start + |bytes|] == bytes
    ensures forall i :: 0 <= i < |a| && !(start <= i < start + |bytes|) ==> r[i] == a[i]
  {
    a[..start] + bytes + a[start + |bytes|..]
  }

  /** How many bytes one operation may move. */
  function Reach(length: nat, immortal: bool): (n: nat)
    ensures immortal || length <= 128 ==> n == length
    ensures !immortal && length > 128 ==> n == 128
  {
    if immortal || length < IO_BUFFER_SIZE then length else IO_BUFFER_SIZE
  }

  /** SNI_getArrayElements */
  method GetArrayElements(java: array?<int>, start: int, length: int, buffer: array<int>, immortal: bool,
                          refresh: bool)
    returns (result: int, outBuffer: Pointer, outLength: nat)
    requires buffer.Length == IO_BUFFER_SIZE && java != buffer
    modifies buffer
    ensures result == if java != null && InBounds(java.Length, start, length) then SNI_OK else -1
    ensures result != SNI_OK ==> buffer[..] == old(buffer[..])
    ensures result == SNI_OK ==>
              && outLength == Reach(length, immortal)
              && (immortal ==> outLength == length)
              && (!immortal ==> outLength <= length && outLength <= buffer.Length)
              && (!immortal ==> outLength == length || outLength == buffer.Length)
              && outBuffer == (if immortal then InJava(start) else InBuffer)
              && (refresh && !immortal ==> buffer[..outLength] == java[start..start + outLength])
  {
    outBuffer, outLength := InBuffer, 0;
    if java == null || start < 0 || length < 0 || length > java.Length - start {
      return -1, outBuffer, outLength;
    }
    if immortal {
      outBuffer, outLength := InJava(start), length;
    } else {
      outBuffer, outLength := InBuffer, if length < buffer.Length then length else buffer.Length;
      if refresh {
        Memcpy(buffer, 0, java[start..start + outLength]);
      }
    }
    return SNI_OK, outBuffer, outLength;
  }

  /** SNI_releaseArrayElements */
  method ReleaseArrayElements(java: array?<int>, start: int, length: int, buffer: array<int>, bufferLength: nat,
                              immortal: bool)
    returns (result: int)
    requires java != buffer && (bufferLength <= length ==> bufferLength <= buffer.Length || immortal)
    modifies if java == null then {} else {java}
    ensures result ==
            if java != null && InBounds(java.Length, start, length) && bufferLength <= length then SNI_OK else -1
    ensures java != null && (result != SNI_OK || immortal) ==> java[..] == old(java[..])
    ensures result == SNI_OK && !immortal ==> java[..] == Spliced(old(java[..]), start, buffer[..bufferLength])
  {
    if java == null || start < 0 || length < 0 || length > java.Length - start || bufferLength > length {
      return -1;
    }
    if !immortal {
      Memcpy(java, start, buffer[..bufferLength]);
    }
    return SNI_OK;
  }

  method Memcpy(dst: array<int>, at: nat, bytes: seq<int>)
    requires at + |bytes| <= dst.Length
    modifies dst
    ensures dst[..] == Spliced(old(dst[..]), at, bytes)
  {
    forall i | at <= i < at + |bytes| {
      dst[i] := bytes[i - at];
    }
  }

  /** What other Java threads do to the array while a native is suspended. */
  method Overwrite(java: array<int>, content: seq<int>)
    requires |content| == java.Length
    modifies java
    ensures java[..] == content
  {
    forall i | 0 <= i < java.Length {
      java[i] := content[i];
    }
  }

  /** A write native, from its call to its on-done callback: LLFS_async_exec_write_read_job, the write action
      and LLFS_File_IMPL_write_on_done.  `during` is the array as Java leaves it until the action runs, `accepted`
      what write() answers, `handed` what the file received: bytes of the array at the call if they went through the
      buffer, and at the execution if not.
      `checked` is false for the exception "SNI_getArrayElements: Internal error". */
  method WriteCall(java: array?<int>, start: int, length: int, buffer: array<int>, immortal: bool, during: seq<int>,
                   accepted: int)
    returns (checked: bool, answer: Answer, ghost handed: seq<int>)
    requires buffer.Length == IO_BUFFER_SIZE && java != buffer
    requires accepted <= Reach(if length < 0 then 0 else length, immortal)
    requires java != null ==> |during| == java.Length
    modifies buffer, if java == null then {} else {java}
    ensures checked <==> java != null && InBounds(java.Length, start, length)
    ensures !checked ==> answer.Failed? && handed == [] && (java != null ==> java[..] == old(java[..]))
    ensures checked ==>
              && java[..] == during
              && (answer.Failed? <==> accepted < 0 || (accepted == 0 && length > 0))
              && (answer.Count? ==> answer.n == accepted)
              && !answer.EndOfFile?
              && var written := if accepted < 0 then 0 else accepted;
                 handed == (if immortal then during else old(java[..]))[start..start + written]
  {
    handed := [];
    var result, data, dataLength := GetArrayElements(java, start, length, buffer, immortal, true);
    if result != SNI_OK {
      return false, Failed, [];
    }
    ghost var was := java[..];
    Overwrite(java, during);
    if accepted >= 0 {
      match data {
        case InJava(offset) => handed := java[offset..offset + accepted];
        case InBuffer =>
          handed := buffer[..accepted];
          assert handed == buffer[..dataLength][..accepted] == was[start..start + dataLength][..accepted];
          assert was[start..start + dataLength][..accepted] == was[start..start + accepted];
      }
    }
    if accepted < 0 || (accepted == 0 && dataLength > 0) {
      answer := Failed;
    } else {
      answer := Count(accepted);
    }
    return true, answer, handed;
  }

  /** The array after single stores. */
  function Stored(a: seq<int>, stores: map<int, int>): (r: seq<int>)
    ensures |r| == |a| && forall i :: 0 <= i < |a| ==> r[i] == if i in stores then stores[i] else a[i]
  {
    seq(|a|, i requires 0 <= i < |a| => if i in stores then stores[i] else a[i])
  }

  /** The array after a read of `bytes`, with Java storing `later` after the action ran: a buffered read copies the
      bytes over what Java stored, a direct one leaves them in the cells Java did not store into. */
  function AfterRead(until: seq<int>, later: map<int, int>, start: nat, bytes: seq<int>, immortal: bool): seq<int>
    requires start + |bytes| <= |until|
  {
    if immortal then Stored(Spliced(until, start, bytes), later) else Spliced(Stored(until, later), start, bytes)
  }

  /** A read native, from its call to its on-done callback.  `available` is what read() would deliver from the
      file position on, `count` its answer.  While the native is suspended other Java threads leave the array as
      `until` until the action runs, and store `later` after it. */
  method ReadCall(java: array?<int>, start: int, length: int, buffer: array<int>, immortal: bool,
                  available: seq<int>, count: int, until: seq<int>, later: map<int, int>)
    returns (checked: bool, answer: Answer)
    requires buffer.Length == IO_BUFFER_SIZE && java != buffer
    requires count <= Reach(if length < 0 then 0 else length, immortal) && count <= |available|
    requires java != null ==> |until| == java.Length
    modifies buffer, if java == null then {} else {java}
    ensures checked <==> java != null && InBounds(java.Length, start, length)
    ensures !checked ==> answer.Failed? && (java != null ==> java[..] == old(java[..]))
    ensures checked && count < 0 ==> answer == Failed
    ensures checked && count == 0 ==> answer == EndOfFile
    ensures checked && count > 0 ==>
              answer == Count(count) && java[..] == AfterRead(until, later, start, available[..count], immortal)
    ensures checked && !answer.Count? ==> java[..] == Stored(until, later)
  {
    var result, data, dataLength := GetArrayElements(java, start, length, buffer, immortal, false);
    if result != SNI_OK {
      return false, Failed;
    }
    Overwrite(java, until);
    if count > 0 {
      match data {
        case InJava(offset) => Memcpy(java, offset, available[..count]);
        case InBuffer =>
          Memcpy(buffer, 0, available[..count]);
          assert buffer[..count] == available[..count];
      }
    }
    Overwrite(java, Stored(java[..], later));
    if count < 0 {
      return true, Failed;
    }
    if count == 0 {
      return true, EndOfFile;
    }
    var released := ReleaseArrayElements(java, start, length, buffer, count, immortal);
    return true, Count(count);
  }

  /** Two reads one behind the other, of `n` and then of `m` bytes: the array ends up as one read of n + m bytes
      would leave it, also where a single buffered read could not move that many. */
  method ReadTwice(java: array<int>, start: int, length: int, buffer: array<int>, immortal: bool, available: seq<int>,
                   n: nat, m: nat)
    returns (first: Answer, second: Answer)
    requires buffer.Length == IO_BUFFER_SIZE && java != buffer && InBounds(java.Length, start, length)
    requires 0 < n <= Reach(length, immortal) && 0 < m <= Reach(length - n, immortal) && n + m <= |available|
    modifies buffer, java
    ensures first == Count(n) && second == Count(m)
    ensures java[..] == Spliced(old(java[..]), start, available[..n + m])
  {
    hide Spliced, AfterRead, Stored;
    ghost var was, part1, part2 := java[..], available[..n], available[n..][..m];
    var checked;
    NoStores(was, start, part1, immortal);
    checked, first := ReadCall(java, start, length, buffer, immortal, available, n, java[..], map[]);
    NoStores(java[..], start + n, part2, immortal);
    checked, second := ReadCall(java, start + n, length - n, buffer, immortal, available[n..], m, java[..], map[]);
    SplicesCompose(was, start, part1, part2);
    assert part1 + part2 == available[..n + m];
  }

  /** What survives, cell by cell: the bytes read and what Java stored later meet only in the cells of the read, where a
      buffered read wins and a direct one loses; every other cell is what Java made of it. */
  lemma AfterReadAt(until: seq<int>, later: map<int, int>, start: nat, bytes: seq<int>, immortal: bool, i: nat)
    requires start + |bytes| <= |until| && i < |until|
    ensures |AfterRead(until, later, start, bytes, immortal)| == |until|
    ensures var cell := AfterRead(until, later, start, bytes, immortal)[i];
            && (!(start <= i < start + |bytes|) ==> cell == if i in later then later[i] else until[i])
            && (start <= i < start + |bytes| && !immortal ==> cell == bytes[i - start])
            && (start <= i < start + |bytes| && immortal ==> cell == if i in later then later[i] else bytes[i - start])
  {
  }

  lemma NoStores(a: seq<int>, start: nat, bytes: seq<int>, immortal: bool)
    requires start + |bytes| <= |a|
    ensures AfterRead(a, map[], start, bytes, immortal) == Spliced(a, start, bytes)
  {
    assert forall b: seq<int> :: Stored(b, map[]) == b;
  }

  /** Reading in two steps stores what one longer read would have stored. */
  lemma SplicesCompose(a: seq<int>, start: nat, first: seq<int>, second: seq<int>)
    requires start + |first| + |second| <= |a|
    ensures Spliced(Spliced(a, start, first), start + |first|, second) == Spliced(a, start, first + second)
  {
  }
}
