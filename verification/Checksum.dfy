/** The Internet checksum over a byte buffer, on a little-endian host (RFC 1071): the sum of the
    16-bit words in a 32-bit accumulator, folded and complemented. */
module Checksum {
  import opened Basics
  import opened Modular

  type Int32 = x: int | -0x8000_0000 <= x < 0x8000_0000

  const WORD16: nat := 0x1_0000
  const WORD32: nat := 0x1_0000_0000

  /** The largest 16-bit word, which is the modulus of ones' complement addition. */
  const ONES: nat := 0xFFFF

  // ---- What is computed ---------------------------------------------------------------

  function Word(lo: nat, hi: nat): nat { lo + 256 * hi }

  /** The sum of the little-endian words, a left-over byte counting as a word of its own. */
  function WordSum(b: seq<Byte>): nat {
    if |b| == 0 then 0
    else if |b| == 1 then b[0]
    else Word(b[0], b[1]) + WordSum(b[2..])
  }

  /** The 16-bit number that is congruent modulo 65535 and zero only for zero. */
  ghost function Fold(x: nat): (r: nat)
    ensures r <= ONES && (r == 0 <==> x == 0)
  {
    if x <= ONES then x else Fold(x - ONES)
  }

  // ---- What it should be --------------------------------------------------------------

  /** Addition of 16-bit words with end-around carry. */
  function OnesAdd(x: nat, y: nat): nat {
    if x + y < WORD16 then x + y else x + y - ONES
  }

  /** The ones' complement sum of the words, on top of `start`. */
  function OnesSum(start: nat, b: seq<Byte>): nat
    decreases |b|
  {
    if |b| == 0 then start
    else if |b| == 1 then OnesAdd(start, b[0])
    else OnesSum(OnesAdd(start, Word(b[0], b[1])), b[2..])
  }

  // ---- Folding ------------------------------------------------------------------------

  lemma {:induction false} FoldSplits(x: nat) returns (i: int)
    ensures x == Fold(x) + i * ONES
  {
    i := 0;
    if x > ONES {
      i := FoldSplits(x - ONES);
      i := i + 1;
    }
  }

  /** There is only one such number. */
  lemma {:induction false} FoldUnique(x: nat, r: nat, i: int)
    requires r <= ONES && (r == 0 <==> x == 0) && x == r + i * ONES
    ensures Fold(x) == r
    decreases x
  {
    if x > ONES {
      FoldUnique(x - ONES, r, i - 1);
    }
  }

  /** One turn of the folding loop keeps the folded value. */
  lemma {:induction false} FoldTurn(x: nat)
    ensures Fold(x % WORD16 + x / WORD16) == Fold(x)
  {
    var i := FoldSplits(x);
    FoldUnique(x % WORD16 + x / WORD16, Fold(x), i - x / WORD16);
  }

  /** Folding a part first does not matter. */
  lemma {:induction false} FoldPart(x: nat, y: nat)
    ensures Fold(Fold(x) + y) == Fold(x + y)
  {
    var i := FoldSplits(x);
    var k := FoldSplits(x + y);
    FoldUnique(Fold(x) + y, Fold(x + y), k - i);
  }

  /** End-around carry is folding. */
  lemma {:induction false} OnesAddFolds(x: nat, y: nat)
    requires x < WORD16 && y < WORD16
    ensures OnesAdd(x, y) == Fold(x + y)
  {
    FoldUnique(x + y, OnesAdd(x, y), if x + y < WORD16 then 0 else 1);
  }

  /** The accumulate-then-fold form computes the ones' complement sum. */
  lemma {:induction false} FoldIsOnesSum(start: nat, b: seq<Byte>)
    ensures Fold(start + WordSum(b)) == OnesSum(Fold(start), b)
    decreases |b|
  {
    if |b| == 1 {
      FoldPart(start, b[0]);
      OnesAddFolds(Fold(start), b[0]);
    } else if |b| > 1 {
      var word := Word(b[0], b[1]);
      FoldPart(start, word);
      OnesAddFolds(Fold(start), word);
      FoldIsOnesSum(start + word, b[2..]);
    }
  }

  // ---- The 32-bit accumulator ---------------------------------------------------------

  lemma {:induction false} WordSumBound(b: seq<Byte>)
    ensures WordSum(b) <= ONES * ((|b| + 1) / 2)
    decreases |b|
  {
    if |b| > 1 {
      WordSumBound(b[2..]);
    }
  }

  /** The accumulator's sum folds to the right word exactly if it did not overflow, for every sum
      that a buffer whose length fits a signed 32-bit count can reach. */
  lemma {:induction false} RightIffNoOverflow(x: nat)
    requires x < ONES * WORD32
    ensures Fold(x % WORD32) == Fold(x) <==> x < WORD32
  {
    var y, q := x % WORD32, x / WORD32;
    var i := FoldSplits(x);
    var k := FoldSplits(y);
    if Fold(y) == Fold(x) {
      assert q == (i - k - 65537 * q) * ONES;
      MulGap(i - k - 65537 * q, ONES);
    }
  }

  lemma {:induction false} WordSumAppend(b: seq<Byte>, c: seq<Byte>)
    requires |b| % 2 == 0
    ensures WordSum(b + c) == WordSum(b) + WordSum(c)
    decreases |b|
  {
    if |b| == 0 {
      assert b + c == c;
    } else {
      assert (b + c)[2..] == b[2..] + c;
      WordSumAppend(b[2..], c);
    }
  }

  // ---- The operation ------------------------------------------------------------------

  /** The bytes that a count covers: none if it is negative. */
  function Covered(b: seq<Byte>, count: int): seq<Byte>
    requires count <= |b|
  {
    if count > 0 then b[..count] else []
  }

  /** Addition in the accumulator, which drops the carry. */
  function Add32(x: nat, y: nat): (r: nat)
    requires x < WORD32 && y < WORD32
    ensures r < WORD32
  {
    if x + y < WORD32 then x + y else x + y - WORD32
  }

  /** A signed argument converted to the accumulator's type. */
  function Unsigned(x: Int32): nat { if x >= 0 then x else x + WORD32 }

  /** Dropping carries as they come is dropping them at the end. */
  lemma AddWraps(total: nat, y: nat)
    requires y < WORD32
    ensures Add32(total % WORD32, y) == (total + y) % WORD32
  {
    ModShift(total, y, WORD32);
    var x := total % WORD32 + y;
    DivUnique(x, if x < WORD32 then 0 else 1, Add32(total % WORD32, y), WORD32);
  }

  /** The sum over a prefix that grows by a word. */
  lemma {:induction false} NextWord(b: seq<Byte>, ptr: nat)
    requires ptr % 2 == 0 && ptr + 2 <= |b|
    ensures WordSum(b[..ptr + 2]) == WordSum(b[..ptr]) + Word(b[ptr], b[ptr + 1])
  {
    WordSumAppend(b[..ptr], b[ptr..ptr + 2]);
    assert b[..ptr + 2] == b[..ptr] + b[ptr..ptr + 2];
  }

  lemma {:induction false} LastByte(b: seq<Byte>, ptr: nat)
    requires ptr % 2 == 0 && ptr < |b|
    ensures WordSum(b[..ptr + 1]) == WordSum(b[..ptr]) + b[ptr]
  {
    WordSumAppend(b[..ptr], [b[ptr]]);
    assert b[..ptr + 1] == b[..ptr] + [b[ptr]];
  }

  /** The accumulating loop: the true sum, less the carries out of 32 bits. */
  method Accumulate(addr: array<Byte>, count: Int32, startSum: Int32) returns (sum: nat)
    requires count <= addr.Length
    ensures sum == (Unsigned(startSum) + WordSum(Covered(addr[..], count))) % WORD32
  {
    ghost var b := addr[..];
    sum := Unsigned(startSum);
    var ptr: nat, left: int := 0, count;
    while left > 1
      invariant ptr % 2 == 0 && ptr == count - left
      invariant if count > 0 then left >= 0 else left == count
      invariant sum == (Unsigned(startSum) + WordSum(b[..ptr])) % WORD32
    {
      var word := Word(addr[ptr], addr[ptr + 1]);
      NextWord(b, ptr);
      AddWraps(Unsigned(startSum) + WordSum(b[..ptr]), word);
      sum := Add32(sum, word);
      ptr, left := ptr + 2, left - 2;
    }
    if left > 0 {
      LastByte(b, ptr);
      AddWraps(Unsigned(startSum) + WordSum(b[..ptr]), addr[ptr]);
      sum := Add32(sum, addr[ptr]);
    }
  }

  /** The folding loop, which ends for every accumulator. */
  method FoldDown(accumulated: nat) returns (sum: nat)
    ensures sum == Fold(accumulated)
  {
    sum := accumulated;
    while sum / WORD16 != 0
      invariant Fold(sum) == Fold(accumulated)
      decreases sum
    {
      FoldTurn(sum);
      sum := sum % WORD16 + sum / WORD16;
    }
    FoldUnique(sum, sum, 0);
  }

  /** The low half of the result, for a sum that does not overflow. */
  ghost function Low(start: nat, b: seq<Byte>): nat {
    ONES - Fold(start + WordSum(b))
  }

  lemma {:induction false} LowIsComplement(start: nat, b: seq<Byte>)
    ensures Low(start, b) == ONES - OnesSum(Fold(start), b)
  {
    FoldIsOnesSum(start, b);
  }

  /** The checksum of the first `count` bytes at `addr`, on top of `startSum`. The upper half of
      the result is all ones; the lower half is the complement of the ones' complement sum,
      exactly if the 32-bit accumulator did not overflow. */
  method Checksum(addr: array<Byte>, count: Int32, startSum: Int32) returns (r: nat)
    requires count <= addr.Length
    ensures r / WORD16 == ONES
    ensures var b, start := Covered(addr[..], count), Unsigned(startSum);
      && r % WORD16 == ONES - Fold((start + WordSum(b)) % WORD32)
      && (r % WORD16 == ONES - OnesSum(Fold(start), b) <==> start + WordSum(b) < WORD32)
      && (start + WordSum(b) < WORD32 ==> r % WORD16 == Low(start, b))
  {
    var sum := Accumulate(addr, count, startSum);
    sum := FoldDown(sum);
    r := WORD32 - 1 - sum;
    ghost var b := Covered(addr[..], count);
    WordSumBound(b);
    LowIsComplement(Unsigned(startSum), b);
    RightIffNoOverflow(Unsigned(startSum) + WordSum(b));
  }

  /** An input for which the result is wrong: a start sum of all ones and a buffer of one word. */
  lemma {:induction false} OverflowIsWrong()
    ensures var start, b: seq<Byte> := Unsigned(-1), [1, 0];
      && start + WordSum(b) == WORD32
      && ONES - Fold((start + WordSum(b)) % WORD32) == 0xFFFF
      && ONES - OnesSum(Fold(start), b) == 0xFFFE
  {
    var b: seq<Byte> := [1, 0];
    assert b[2..] == [];
    assert WordSum(b) == 1;
    FoldUnique(Unsigned(-1), ONES, 65536);
    assert OnesSum(ONES, b) == OnesSum(1, b[2..]);
  }

  /** The bound under which no buffer of the length overflows. */
  lemma {:induction false} NoOverflowBelow(start: nat, b: seq<Byte>)
    requires start + ONES * ((|b| + 1) / 2) < WORD32
    ensures start + WordSum(b) < WORD32
  {
    WordSumBound(b);
  }

  // ---- What the checksum is for -------------------------------------------------------

  /** A field changed at an even offset changes the sum by the change of its word. */
  lemma {:induction false} WordSumField(b: seq<Byte>, i: nat, lo: Byte, hi: Byte)
    requires i % 2 == 0 && i + 1 < |b|
    ensures WordSum(b[i := lo][i + 1 := hi]) + Word(b[i], b[i + 1]) == WordSum(b) + Word(lo, hi)
    decreases |b|
  {
    var b' := b[i := lo][i + 1 := hi];
    if i == 0 {
      assert b'[2..] == b[2..];
    } else {
      assert b'[2..] == b[2..][i - 2 := lo][i - 1 := hi];
      WordSumField(b[2..], i - 2, lo, hi);
    }
  }

  /** Storing the checksum in its zeroed, aligned field makes the whole buffer check to zero. */
  lemma {:induction false} StoredChecksumVerifies(start: nat, b: seq<Byte>, i: nat)
    requires i % 2 == 0 && i + 1 < |b| && b[i] == 0 && b[i + 1] == 0
    ensures var c := Low(start, b); Low(start, b[i := c % 256][i + 1 := c / 256]) == 0
  {
    var c := Low(start, b);
    var x := start + WordSum(b);
    WordSumField(b, i, c % 256, c / 256);
    var k := FoldSplits(x);
    FoldUnique(x + c, ONES, k);
  }

  /** Computing the checksum of a header and storing it in its zeroed field. */
  method Seal(addr: array<Byte>, i: nat, startSum: Int32)
    requires i % 2 == 0 && i + 1 < addr.Length < 0x8000_0000 && addr[i] == 0 && addr[i + 1] == 0
    requires Unsigned(startSum) + WordSum(addr[..]) < WORD32
    modifies addr
    ensures forall k :: 0 <= k < addr.Length && k != i && k != i + 1 ==> addr[k] == old(addr[k])
    ensures Low(Unsigned(startSum), addr[..]) == 0
  {
    ghost var b: seq<Byte> := addr[..];
    var r := Checksum(addr, addr.Length, startSum);
    assert Covered(b, addr.Length) == b;
    StoredChecksumVerifies(Unsigned(startSum), b, i);
    var c := r % WORD16;
    var lo: Byte, hi: Byte := c % 256, c / 256;
    addr[i], addr[i + 1] := lo, hi;
    assert addr[..] == b[i := lo][i + 1 := hi];
  }

  /** Conversely a buffer that checks to zero is one whose field holds the checksum of the rest,
      up to the two ways of writing zero in ones' complement. */
  lemma {:induction false} OnlyTheChecksumVerifies(start: nat, b: seq<Byte>, i: nat, lo: Byte, hi: Byte)
    requires i % 2 == 0 && i + 1 < |b| && b[i] == 0 && b[i + 1] == 0
    requires Low(start, b[i := lo][i + 1 := hi]) == 0
    ensures var c, f := Low(start, b), Word(lo, hi);
      f == c || (f == ONES && c == 0) || (f == 0 && c == ONES)
  {
    var x := start + WordSum(b);
    WordSumField(b, i, lo, hi);
    var k := FoldSplits(x);
    var j := FoldSplits(x + Word(lo, hi));
    assert Fold(x) + Word(lo, hi) == (1 + j - k) * ONES;
  }

  lemma {:induction false} SumsFold(start: nat, x: nat, y: nat, w: nat)
    requires w == x + y
    ensures Fold(start + w) == Fold(start + y + x) == Fold(Fold(start + x) + y)
  {
    FoldPart(start + x, y);
  }

  lemma {:induction false} RawChain(start: nat, b: seq<Byte>, c: seq<Byte>)
    requires |b| % 2 == 0
    ensures Low(start, b + c) == Low(start + WordSum(c), b)
  {
    WordSumAppend(b, c);
    SumsFold(start, WordSum(b), WordSum(c), WordSum(b + c));
  }

  lemma {:induction false} FoldedChain(start: nat, b: seq<Byte>, c: seq<Byte>)
    requires |b| % 2 == 0
    ensures Low(start, b + c) == Low(Fold(start + WordSum(b)), c)
  {
    WordSumAppend(b, c);
    SumsFold(start, WordSum(b), WordSum(c), WordSum(b + c));
  }

  /** Chunks of even length chain through the start sum, raw or folded and taken back from the
      complement. */
  lemma {:induction false} ChunksChain(start: nat, b: seq<Byte>, c: seq<Byte>)
    requires |b| % 2 == 0
    ensures Low(start, b + c) == Low(start + WordSum(c), b)
    ensures Low(start, b + c) == Low(ONES - Low(start, b), c)
  {
    RawChain(start, b, c);
    FoldedChain(start, b, c);
    assert ONES - Low(start, b) == Fold(start + WordSum(b));
  }

  // ---- Byte order ---------------------------------------------------------------------

  /** A word with its two bytes swapped: each 256 in it counts one, the rest 256 each. */
  ghost function SwapWord(x: nat): nat {
    if x < 256 then 256 * x else 1 + SwapWord(x - 256)
  }

  lemma {:induction false} SwapWordSwaps(lo: Byte, hi: nat)
    ensures SwapWord(Word(lo, hi)) == Word(hi, lo)
    decreases hi
  {
    if hi > 0 {
      SwapWordSwaps(lo, hi - 1);
    }
  }

  /** The buffer with the bytes of every word swapped. */
  function SwapBytes(b: seq<Byte>): seq<Byte>
    requires |b| % 2 == 0
  {
    if |b| == 0 then [] else [b[1], b[0]] + SwapBytes(b[2..])
  }

  /** Swapping multiplies the sum by 256, up to a multiple of the modulus. */
  lemma {:induction false} SwappedSum(b: seq<Byte>) returns (j: int)
    requires |b| % 2 == 0
    ensures WordSum(SwapBytes(b)) == 256 * WordSum(b) - j * ONES
    ensures WordSum(SwapBytes(b)) == 0 <==> WordSum(b) == 0
  {
    j := 0;
    if |b| > 0 {
      j := SwappedSum(b[2..]);
      assert SwapBytes(b)[2..] == SwapBytes(b[2..]);
      j := j + b[1];
    }
  }

  /** Swapping a word's bytes goes along with complementing it. */
  lemma {:induction false} SwapComplement(f: nat)
    requires f <= ONES
    ensures SwapWord(f) <= ONES && (SwapWord(f) == 0 <==> f == 0)
    ensures 256 * f == SwapWord(f) + f / 256 * ONES
    ensures SwapWord(ONES - f) == ONES - SwapWord(f)
  {
    var lo, hi := f % 256, f / 256;
    SwapWordSwaps(lo, hi);
    SwapWordSwaps(255 - lo, 255 - hi);
    assert Word(255 - lo, 255 - hi) == ONES - f;
  }

  /** A buffer of odd length stands for the one with a zero byte more. */
  function Padded(b: seq<Byte>): (p: seq<Byte>)
    ensures |p| % 2 == 0
  {
    if |b| % 2 == 0 then b else b + [0]
  }

  lemma {:induction false} PaddedSum(b: seq<Byte>)
    ensures WordSum(Padded(b)) == WordSum(b)
    decreases |b|
  {
    if |b| > 1 {
      PaddedSum(b[2..]);
      assert Padded(b)[2..] == Padded(b[2..]);
    }
  }

  lemma {:induction false} SwapTimes(f: nat) returns (k: int)
    requires f <= ONES
    ensures SwapWord(f) <= ONES && (SwapWord(f) == 0 <==> f == 0) && 256 * f == SwapWord(f) + k * ONES
  {
    SwapComplement(f);
    k := f / 256;
  }

  lemma {:induction false} SwapFolds(x: nat, y: nat, z: nat, j: int)
    requires x <= ONES && z == 256 * y - j * ONES && (z == 0 <==> y == 0)
    ensures Fold(SwapWord(x) + z) == SwapWord(Fold(x + y))
  {
    var i := FoldSplits(x + y);
    var k := SwapTimes(x);
    var l := SwapTimes(Fold(x + y));
    FoldUnique(SwapWord(x) + z, SwapWord(Fold(x + y)), 256 * i - j + l - k);
  }

  lemma {:induction false} SwapFoldsOnto(start: nat, y: nat, z: nat, j: int)
    requires z == 256 * y - j * ONES && (z == 0 <==> y == 0)
    ensures ONES - Fold(SwapWord(Fold(start)) + z) == SwapWord(ONES - Fold(start + y))
  {
    var f := Fold(start + y);
    assert Fold(Fold(start) + y) == f by { FoldPart(start, y); }
    assert Fold(SwapWord(Fold(start)) + z) == SwapWord(f) by { SwapFolds(Fold(start), y, z, j); }
    SwapComplement(f);
  }

  /** Swapping the bytes of every word, and of what the start sum folds to, swaps the bytes of the
      result, for every buffer and every start sum. */
  lemma {:induction false} SwapCommutes(start: nat, b: seq<Byte>)
    ensures Low(SwapWord(Fold(start)), SwapBytes(Padded(b))) == SwapWord(Low(start, b))
  {
    PaddedSum(b);
    var j := SwappedSum(Padded(b));
    SwapFoldsOnto(start, WordSum(b), WordSum(SwapBytes(Padded(b))), j);
  }
}
