/** Skipping in a file: position arithmetic over lseek, with the machine widths the code uses. */
module FileSkip {

  const INT32_MAX := 0x7fff_ffff
  const TWO32 := 0x1_0000_0000
  const TWO64 := 0x1_0000_0000_0000_0000

  const LLFS_OK := 0
  const LLFS_NOK := -1

  /** What a conversion to int32_t keeps. */
  function ToI32(n: int): (r: int)
    ensures -0x8000_0000 <= r <= 0x7fff_ffff && (n - r) % 0x1_0000_0000 == 0
  {
    var r := n % TWO32;
    if r > INT32_MAX then r - TWO32 else r
  }

  /** What a conversion to uint64_t keeps. */
  function ToU64(n: int): (r: int)
    ensures 0 <= r < 0x1_0000_0000_0000_0000 && (n - r) % 0x1_0000_0000_0000_0000 == 0
  {
    n % TWO64
  }

  /** What a conversion to int64_t keeps. */
  function ToI64(n: int): (r: int)
    ensures -0x8000_0000_0000_0000 <= r < 0x8000_0000_0000_0000 && (n - r) % 0x1_0000_0000_0000_0000 == 0
  {
    var r := n % TWO64;
    if r >= TWO64 / 2 then r - TWO64 else r
  }

  datatype Whence = SET | CUR | END

  /** How far a skip by n must move with `left` bytes before the end of the file. */
  function Distance(left: nat, n: nat): (r: nat)
    ensures r <= n && r <= left && (r == n || r == left)
  {
    if n < left then n else left
  }

  /** How far skip moves inside a file for any 64-bit argument, with `left` bytes before the end: the argument is
      first cut to 32 bits, and a negative value compares as a huge unsigned one. */
  function Moves(left: nat, n: int): nat {
    var m := ToI32(n);
    if m < 0 then left else Distance(left, m)
  }

  /** The same for any position: beyond the end nothing bounds the move. */
  function MovesFrom(size: nat, position: nat, n: int): nat {
    if position <= size then Moves(size - position, n)
    else if ToI32(n) < 0 then INT32_MAX
    else ToI32(n)
  }

  /** The offset the skip action hands to lseek, for a 32-bit argument m. */
  function SkipOffset(fileSize: int, current: int, m: int): int {
    var maxOffset := ToU64(fileSize - current);
    var bounded := if ToU64(m) > maxOffset then ToI64(maxOffset) else m;
    var offset := ToI32(bounded);
    if offset < 0 || offset != bounded then INT32_MAX else offset
  }

  /** Wherever the file is positioned, the mixed widths do no harm but for the first conversion of the argument. */
  lemma OffsetIs(fileSize: nat, current: nat, n: int)
    requires current <= INT32_MAX && fileSize <= INT32_MAX
    ensures SkipOffset(fileSize, current, ToI32(n)) == MovesFrom(fileSize, current, n)
  {
    var m, left := ToI32(n), fileSize - current;
    assert -0x8000_0000 <= m <= INT32_MAX && -INT32_MAX <= left <= INT32_MAX;
    assert ToU64(m) == if m < 0 then m + TWO64 else m;
    assert ToU64(left) == if left < 0 then left + TWO64 else left;
    assert ToI64(ToU64(left)) == left;
    assert m >= 0 ==> ToI32(m) == m;
    assert left >= 0 ==> ToI32(left) == left;
    assert left < 0 ==> ToI32(left) < 0 || ToI32(left) != left;
    assert m < 0 ==> ToI32(m) == m;
  }

  /** Inside the file only the low 32 bits of the argument count, read without a sign. */
  lemma OnlyLowBitsCount(left: nat, n: int)
    requires left <= INT32_MAX
    ensures Moves(left, n) == Distance(left, n % TWO32)
  {
  }

  class OpenFile {
    const size: nat
    var position: nat

    ghost predicate Valid()
      reads this
    {
      size <= INT32_MAX && position <= INT32_MAX
    }

    /** lseek with a 32-bit off_t: -1 when it fails, the new position otherwise. */
    method Lseek(offset: int, whence: Whence, fails: bool) returns (r: int)
      requires Valid()
      modifies this
      ensures Valid()
      ensures var target := (match whence case SET => 0 case CUR => old(position) case END => size) + offset;
              if fails || target < 0 || target > INT32_MAX then r == -1 && position == old(position)
              else r == target && position == target
    {
      var target := (match whence case SET => 0 case CUR => position case END => size) + offset;
      if fails || target < 0 || target > INT32_MAX {
        return -1;
      }
      position := target;
      return target;
    }

    /** FS_size_of_file; the flags say which of its three seeks fail.  `out` is `*size_out`. */
    method SizeOfFile(fails1: bool, fails2: bool, fails3: bool) returns (res: int, out: int)
      requires Valid()
      modifies this
      ensures Valid()
      ensures res == (if fails2 then LLFS_NOK else LLFS_OK) && (res == LLFS_OK ==> out == size)
      ensures position == old(AfterSizeQuery(fails1, fails2, fails3))
    {
      res, out := LLFS_NOK, 0;
      var cur := Lseek(0, CUR, fails1);
      if cur == -1 {
        res := LLFS_NOK;
      }
      var end := Lseek(0, END, fails2);
      if end != -1 {
        out := end;
        res := LLFS_OK;
      }
      var restored := Lseek(cur, SET, fails3);
      // a failed restore is noticed but leaves `res` as it is
    }

    /** Where the size query leaves the position. */
    function AfterSizeQuery(fails1: bool, fails2: bool, fails3: bool): nat
      reads this
    {
      if (!fails1 && !fails3) || fails2 then position else size
    }

    /** LLFS_File_IMPL_skip, its action and its on-done callback; `fails` lists the seeks that fail.  It succeeds
        unless the size query, the second or the third of its own seeks fails, and then the position moves by the
        count it reports, from where the size query left it. */
    method Skip(n: int, fails: seq<bool>) returns (result: int, skipped: int)
      requires Valid() && |fails| == 5
      modifies this
      ensures Valid()
      ensures var from := old(AfterSizeQuery(fails[0], fails[1], fails[2]));
              var move := MovesFrom(size, from, n);
              && (result == LLFS_OK <==> !fails[1] && !fails[3] && !fails[4] && from + move <= INT32_MAX)
              && (result == LLFS_OK ==> skipped == move && position == from + move)
              && (result != LLFS_OK ==> result == LLFS_NOK && skipped == 0 && position == from)
      ensures old(position) <= size ==> position <= size
    {
      hide ToI32, SkipOffset, Moves;
      var m := ToI32(n);
      var fsErr, fileSize := SizeOfFile(fails[0], fails[1], fails[2]);
      OffsetIs(size, position, n);
      MovesFit(size, position, n);
      if fsErr == LLFS_OK {
        var current := Lseek(0, CUR, fails[3]);
        if current != -1 {
          var offset := SkipOffset(fileSize, current, m);
          var reached := Lseek(offset, CUR, fails[4]);
          if reached != -1 {
            return LLFS_OK, ToI32(reached - current);
          }
        }
      }
      return LLFS_NOK, 0;
    }

    /** LLFS_File_IMPL_available and its action. */
    method Available(fails: seq<bool>) returns (result: int)
      requires Valid() && |fails| == 4
      modifies this
      ensures Valid() && position == old(AfterSizeQuery(fails[0], fails[1], fails[2]))
      ensures result == if fails[1] || fails[3] then LLFS_NOK else size - position
    {
      result := LLFS_NOK;
      var fsErr, fileSize := SizeOfFile(fails[0], fails[1], fails[2]);
      if fsErr == 0 {
        var current := Lseek(0, CUR, fails[3]);
        if current != -1 {
          result := ToI32((fileSize - current) % TWO32);
        }
      }
    }
  }

  lemma MovesFit(size: nat, position: nat, n: int)
    requires size <= INT32_MAX
    ensures var move := MovesFrom(size, position, n);
            && move <= INT32_MAX && ToI32(move) == move
            && (position <= size ==> position + move <= size)
  {
  }

  /** Saturating skip: for 0 <= n the move is min(n, bytes left) exactly when n fits 32 bits without a sign, or its
      low 32 bits still reach the end of the file. */
  lemma SkipSaturatesIff(left: nat, n: nat)
    requires left <= INT32_MAX
    ensures Moves(left, n) == Distance(left, n) <==> n < TWO32 || n % TWO32 >= left
  {
    OnlyLowBitsCount(left, n);
  }

  /** The smallest argument that goes wrong: skipping 2^32 bytes moves nowhere. */
  lemma SkipOfFourGigabytes(left: nat)
    requires 0 < left <= INT32_MAX
    ensures Moves(left, TWO32) == 0 && Distance(left, TWO32) == left
  {
  }

  /** Any argument, negative ones too, moves to the end of the file exactly when its low 32 bits, read without a
      sign, reach it: -1 does, -2^32 moves nowhere. */
  lemma SkipsToTheEndIff(left: nat, n: int)
    requires left <= INT32_MAX
    ensures Moves(left, n) == left <==> n % TWO32 >= left
    ensures Moves(left, -1) == left && Moves(left, -TWO32) == 0
  {
    OnlyLowBitsCount(left, n);
    assert (-1) % TWO32 == TWO32 - 1 && (-TWO32) % TWO32 == 0;
  }

  /** Skipping a and then b is skipping a + b, for any a and b, exactly when their low 32 bits add up without a
      carry or those of the sum reach the end of the file. */
  lemma SkipsAddIff(left: nat, a: int, b: int)
    requires left <= INT32_MAX
    ensures var first := Moves(left, a);
            && first <= left
            && (Moves(left, a + b) == first + Moves(left - first, b)
                <==> a % TWO32 + b % TWO32 < TWO32 || (a + b) % TWO32 >= left)
  {
    var first := Moves(left, a);
    OnlyLowBitsCount(left, a);
    OnlyLowBitsCount(left, a + b);
    OnlyLowBitsCount(left - first, b);
    LowBitsOfSum(a, b);
  }

  lemma LowBitsOfSum(a: int, b: int)
    ensures var sum := a % TWO32 + b % TWO32;
            (a + b) % TWO32 == if sum < TWO32 then sum else sum - TWO32
  {
    assert (a + b) - (a % TWO32 + b % TWO32) == TWO32 * (a / TWO32 + b / TWO32);
  }

  /** The size query leaves the position where it was exactly when the first and the last seek succeed, or the
      middle one fails, or the position was the end of the file. */
  method SizeQueryKeepsPosition(f: OpenFile, fails1: bool, fails2: bool, fails3: bool) returns (res: int, kept: bool)
    requires f.Valid()
    modifies f
    ensures kept <==> f.position == old(f.position)
    ensures kept <==> (!fails1 && !fails3) || fails2 || old(f.position) == f.size
    ensures res == LLFS_NOK <==> fails2
  {
    var before := f.position;
    var out;
    res, out := f.SizeOfFile(fails1, fails2, fails3);
    kept := f.position == before;
  }

  /** A skip between two available queries, for any argument and from any position: what skip reports is what the
      queries differ by, and inside the file it succeeds. */
  method SkipThenAvailable(f: OpenFile, n: int) returns (before: int, result: int, skipped: int, after: int)
    requires f.Valid()
    modifies f
    ensures f.Valid() && before == f.size - old(f.position)
    ensures after == before - skipped && f.position == old(f.position) + skipped
    ensures before >= 0 ==> result == LLFS_OK && skipped == Moves(before, n)
  {
    before := f.Available([false, false, false, false]);
    MovesFit(f.size, f.position, n);
    result, skipped := f.Skip(n, [false, false, false, false, false]);
    after := f.Available([false, false, false, false]);
  }

  /** A skip whose size query cannot restore the position reports that it skipped nothing, with LLFS_OK, and has
      moved to the end of the file. */
  method SkipAfterFailedRestore(f: OpenFile, n: int) returns (result: int, skipped: int)
    requires f.Valid()
    modifies f
    ensures result == LLFS_OK && skipped == 0 && f.position == f.size
  {
    MovesFit(f.size, f.size, n);
    result, skipped := f.Skip(n, [false, false, true, false, false]);
  }
}
