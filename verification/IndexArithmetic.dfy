/** The queue's indices are unsigned words that wrap around. The protocols are stated over true,
    unbounded indices; here the comparisons and the block lookup on words are shown to compute
    what the protocols say. A word is a true index modulo `Pow2(w)`. */
module IndexArithmetic {
  import opened Basics
  import opened Modular
  import opened BlockIndex

  ghost function Wrap(x: int, w: nat): (r: nat)
    ensures r < Pow2(w)
  {
    PowPositive(w);
    x % Pow2(w)
  }

  lemma PowPositive(w: nat)
    ensures Pow2(w) > 0
  {
  }

  lemma {:induction false} PowSum(p: nat, q: nat)
    ensures Pow2(p + q) == Pow2(p) * Pow2(q)
  {
    if p > 0 {
      PowSum(p - 1, q);
    }
  }

  // ---- Comparing ----------------------------------------------------------------------

  /** `circular_less_than` on two words. */
  ghost predicate CircularLess(a: nat, b: nat, w: nat)
    requires w > 0
  {
    Wrap(a - b, w) > Pow2(w - 1)
  }

  /** Subtracting words is subtracting true indices. */
  lemma WrapDifference(x: int, y: int, w: nat)
    ensures Wrap(Wrap(x, w) - Wrap(y, w), w) == Wrap(x - y, w)
  {
    PowPositive(w);
    var m := Pow2(w);
    ModShift(x, 0 - Wrap(y, w), m);
    assert x - Wrap(y, w) == x - y + (y / m) * m;
    ModTurns(x - y, y / m, m);
  }

  /** For true indices less than half the range apart it is the true order, in both directions;
      at exactly half the range apart neither is less. */
  lemma CircularLessIsLess(x: int, y: int, w: nat)
    requires w > 0 && x - y <= Pow2(w - 1) && y - x <= Pow2(w - 1)
    ensures CircularLess(Wrap(x, w), Wrap(y, w), w) <==> x < y && y - x != Pow2(w - 1)
  {
    WrapDifference(x, y, w);
    if x < y {
      DivUnique(x - y, -1, x - y + Pow2(w), Pow2(w));
    } else {
      DivUnique(x - y, 0, x - y, Pow2(w));
    }
  }

  /** The bulk form compares zero with the number of elements it would like. Both forms decide
      as the claim protocol does, and so does the minimum taken of it, as long as the true
      difference stays inside half the range. */
  lemma ClaimDecisionWraps(tail: int, optimistic: int, seen: int, max: nat, w: nat)
    requires w > 0 && tail - (optimistic - seen) < Pow2(w - 1) && (optimistic - seen) - tail < Pow2(w - 1)
    ensures var desired := tail - (optimistic - seen); var word := Wrap(Wrap(tail, w) - Wrap(optimistic - seen, w), w);
      && (CircularLess(Wrap(optimistic - seen, w), Wrap(tail, w), w) <==> desired > 0)
      && (CircularLess(0, word, w) <==> desired > 0)
      && (desired > 0 ==> Min(word, max) == Min(desired, max))
  {
    var desired := tail - (optimistic - seen);
    WrapDifference(tail, optimistic - seen, w);
    CircularLessIsLess(optimistic - seen, tail, w);
    CircularLessIsLess(0, desired, w);
    DivUnique(0, 0, 0, Pow2(w));
    if desired > 0 {
      DivUnique(desired, 0, desired, Pow2(w));
    }
  }

  // ---- Looking a block up -------------------------------------------------------------

  /** `get_block_index_index_for_index` on words: mask the index to its block's base, subtract
      the tail's key, divide without sign, add to the tail position and mask. */
  ghost function WordLookup(capacity: nat, tail: nat, tailKey: nat, index: nat, w: nat): nat
    requires capacity > 0
  {
    var base := index - index % BLOCK_SIZE;
    var offset := Wrap(base - tailKey, w) / BLOCK_SIZE;
    Wrap(tail + offset, w) % capacity
  }

  /** The same with the signed division that the source's comment speaks of. */
  ghost function SignedLookup(capacity: nat, tail: nat, tailKey: nat, index: nat, w: nat): nat
    requires capacity > 0 && w > 0
  {
    var base := index - index % BLOCK_SIZE;
    var difference := Wrap(base - tailKey, w);
    var signed := if difference < Pow2(w - 1) then difference else difference - Pow2(w);
    var quotient := if signed >= 0 then signed / BLOCK_SIZE else -(-signed / BLOCK_SIZE);
    Wrap(tail + Wrap(quotient, w), w) % capacity
  }

  /** A ring of `capacity` entries fits into the range of a word. */
  ghost predicate Fits(capacity: nat, w: nat) {
    exists p: nat :: Power(p, capacity) && p + 5 <= w
  }

  ghost predicate Power(p: nat, n: nat) { n == Pow2(p) }

  /** The range is a whole number of rings, of `turns` blocks each `capacity`. */
  lemma FitsDivides(capacity: nat, w: nat) returns (turns: nat)
    requires Fits(capacity, w)
    ensures capacity > 0 && turns > 0
    ensures Pow2(w) == BLOCK_SIZE * (turns * capacity)
    ensures Pow2(w) == (BLOCK_SIZE * turns) * capacity
  {
    var p: nat :| Power(p, capacity) && p + 5 <= w;
    turns := Pow2(w - p - 5);
    PowPositive(w - p - 5);
    PowPositive(p);
    PowSum(w - p - 5, p);
    PowSum(w - 5, 5);
    assert Pow2(5) == BLOCK_SIZE;
    TimesRegroup(BLOCK_SIZE, turns, capacity);
  }

  lemma TimesRegroup(x: nat, y: nat, z: nat)
    ensures x * (y * z) == (x * y) * z
  {
  }

  /** Masking a word to its block's base is wrapping the true base. */
  lemma BaseWraps(x: int, w: nat)
    requires w >= 5
    ensures Wrap(x, w) - Wrap(x, w) % BLOCK_SIZE == Wrap(BLOCK_SIZE * (x / BLOCK_SIZE), w)
  {
    PowPositive(w);
    PowPositive(w - 5);
    PowSum(w - 5, 5);
    assert Pow2(5) == BLOCK_SIZE;
    var m := Pow2(w);
    ModMultiple(x, Pow2(w - 5), BLOCK_SIZE);
    var base := BLOCK_SIZE * (x / BLOCK_SIZE);
    var r := x % BLOCK_SIZE;
    assert x == base + r && x == (x / m) * m + x % m;
    assert base == (x / m) * m + (x % m - r);
    assert x % m - r == x % m - (x % m) % BLOCK_SIZE;
    DivUnique(base, x / m, x % m - r, m);
  }

  /** The wrapped difference of two block bases, divided, is the difference of the block numbers
      up to whole turns of the ring. */
  lemma OffsetIsBlocks(k: int, m: int, turns: nat, capacity: nat, w: nat) returns (j: int)
    requires capacity > 0 && turns > 0 && Pow2(w) == BLOCK_SIZE * (turns * capacity)
    ensures Wrap(BLOCK_SIZE * k - BLOCK_SIZE * m, w) == BLOCK_SIZE * (k - m + j * (turns * capacity))
  {
    PowPositive(w);
    var d := BLOCK_SIZE * k - BLOCK_SIZE * m;
    j := -(d / Pow2(w));
    var ring := turns * capacity;
    assert d % Pow2(w) == d - (d / Pow2(w)) * Pow2(w);
    assert (d / Pow2(w)) * (BLOCK_SIZE * ring) == BLOCK_SIZE * ((d / Pow2(w)) * ring);
    assert (d / Pow2(w)) * ring == -(j * ring) by { assert (d / Pow2(w)) == -j; }
  }

  /** Adding whole turns of the ring to an offset and wrapping it changes no position. */
  lemma PositionIgnoresTurns(tail: int, offset: int, j: int, turns: nat, capacity: nat, w: nat)
    requires capacity > 0 && turns > 0 && Pow2(w) == (BLOCK_SIZE * turns) * capacity
    ensures Wrap(tail + offset + j * (turns * capacity), w) % capacity == (tail + offset) % capacity
  {
    var x := tail + offset;
    assert j * (turns * capacity) == (j * turns) * capacity;
    ModMultiple(x + (j * turns) * capacity, BLOCK_SIZE * turns, capacity);
    ModTurns(x, j * turns, capacity);
  }

  /** The lookup on words is the lookup on true indices, for every index, every tail and every
      power-of-two capacity whose ring of blocks fits into a word, however far apart they are. */
  lemma WordLookupIsLookup(h: Header, tail: nat, m: int, x: int, w: nat)
    requires h.capacity > 0 && Fits(h.capacity, w)
    ensures WordLookup(h.capacity, tail, Wrap(BLOCK_SIZE * m, w), Wrap(x, w), w)
         == LookupPos(h, tail, BLOCK_SIZE * m, BLOCK_SIZE * (x / BLOCK_SIZE))
  {
    var k := x / BLOCK_SIZE;
    var turns := FitsDivides(h.capacity, w);
    BaseWraps(x, w);
    WrapDifference(BLOCK_SIZE * k, BLOCK_SIZE * m, w);
    var j := OffsetIsBlocks(k, m, turns, h.capacity, w);
    PositionIgnoresTurns(tail, k - m, j, turns, h.capacity, w);
    assert (BLOCK_SIZE * k - BLOCK_SIZE * m) / BLOCK_SIZE == k - m;
  }

  /** Whether the division has a sign makes no difference to the position found. */
  lemma SignDoesNotMatter(capacity: nat, tail: nat, m: int, x: int, w: nat)
    requires Fits(capacity, w) && capacity > 0 && w > 0
    ensures SignedLookup(capacity, tail, Wrap(BLOCK_SIZE * m, w), Wrap(x, w), w)
         == WordLookup(capacity, tail, Wrap(BLOCK_SIZE * m, w), Wrap(x, w), w)
  {
    var k := x / BLOCK_SIZE;
    var turns := FitsDivides(capacity, w);
    BaseWraps(x, w);
    WrapDifference(BLOCK_SIZE * k, BLOCK_SIZE * m, w);
    var j := OffsetIsBlocks(k, m, turns, capacity, w);
    var blocks := k - m + j * (turns * capacity);
    var quotient := if BLOCK_SIZE * blocks < Pow2(w - 1) then blocks else blocks - turns * capacity;
    assert SignedQuotient(BLOCK_SIZE * blocks, w) == quotient;
    PositionIgnoresTurns(tail, blocks, 0, turns, capacity, w);
    WrappedQuotient(tail, quotient, w);
    PositionIgnoresTurns(tail, blocks, -1, turns, capacity, w);
  }

  ghost function SignedQuotient(difference: nat, w: nat): int
    requires w > 0
  {
    var signed := if difference < Pow2(w - 1) then difference else difference - Pow2(w);
    if signed >= 0 then signed / BLOCK_SIZE else -(-signed / BLOCK_SIZE)
  }

  lemma WrappedQuotient(tail: nat, quotient: int, w: nat)
    ensures Wrap(tail + Wrap(quotient, w), w) == Wrap(tail + quotient, w)
  {
    PowPositive(w);
    ModShift(quotient, tail, Pow2(w));
  }

  /** So a consumer that looks for any claimed index on words finds the entry of the block that
      the producer filled for it, and the key it compares with is the wrapped base of the index. */
  lemma WordLookupFinds(ix: Index, r: nat, x: nat, m: int, w: nat)
    requires BlockIndex.Inv(ix) && CanSee(ix, r, x / BLOCK_SIZE, m)
    requires x / BLOCK_SIZE in ix.filled && x / BLOCK_SIZE != ix.open
    requires r + 10 <= w
    ensures ix.headers[r].capacity > 0
    ensures var h := ix.headers[r];
      var pos := WordLookup(h.capacity, Pos(h, m), Wrap(BLOCK_SIZE * m, w), Wrap(x, w), w);
      && pos < |h.index| && h.index[pos] < |ix.entries|
      && ix.entries[h.index[pos]].value == To(ix.filled[x / BLOCK_SIZE])
      && Wrap(ix.entries[h.index[pos]].key, w) == Wrap(x, w) - Wrap(x, w) % BLOCK_SIZE
  {
    var h := ix.headers[r];
    LookupFinds(ix, r, x / BLOCK_SIZE, m);
    assert ShapedHeader(ix, r);
    PowSum(5, r);
    assert Pow2(5) == IMPLICIT_INITIAL_INDEX_SIZE;
    assert Power(5 + r, h.capacity);
    WordLookupIsLookup(h, Pos(h, m), m, x, w);
    BaseWraps(x, w);
  }
}
