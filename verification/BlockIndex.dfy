/** The implicit producer's block index: a ring of entries seen through a chain of headers,
    each twice as large as the one before. Consumers may look through any header that was
    once current. Keys are the true, unbounded block bases. */
module BlockIndex {
  import opened Basics
  import opened Modular

  const BLOCK_SIZE: nat := 32
  const IMPLICIT_INITIAL_INDEX_SIZE: nat := 32
  const INVALID_BLOCK_BASE: int := 1

  /** Identity of a block. */
  type Block = nat

  datatype Ref = Null | To(block: Block)

  datatype Entry = Entry(key: int, value: Ref)

  /** `index` maps ring positions to entries. `shift` and `first` are history: block number
      `k` sits at position `(k + shift) % capacity`, and `first` is the oldest block number
      whose entry was carried over when the header was made. */
  datatype Header = Header(capacity: nat, tail: nat, index: seq<nat>, shift: int, first: int)

  /** The last three fields and `count` are history. `count` is the number of the next block to
      insert, `high` the number of blocks that ever had their key written, `filled` the values
      of the inserted entries, and `open` the one block number, if any, whose entry has its key
      but not yet a settled value. */
  datatype Index = Index(
    entries: seq<Entry>,
    headers: seq<Header>,
    nextCapacity: nat,
    count: nat,
    high: nat,
    filled: map<nat, Block>,
    open: int)
  {
    ghost function Current(): Header
      requires headers != []
    {
      headers[|headers| - 1]
    }
  }

  ghost function Pos(h: Header, k: int): nat
    requires h.capacity > 0
  {
    (k + h.shift) % h.capacity
  }

  ghost function Pow2(n: nat): nat {
    if n == 0 then 1 else 2 * Pow2(n - 1)
  }

  // ---- The ring positions --------------------------------------------------------------

  lemma PosNext(h: Header, k: int)
    requires h.capacity > 0
    ensures (Pos(h, k) + 1) % h.capacity == Pos(h, k + 1)
    ensures (Pos(h, k) - 1) % h.capacity == Pos(h, k - 1)
  {
    ModShift(k + h.shift, 1, h.capacity);
    ModShift(k + h.shift, -1, h.capacity);
  }

  /** The position computed from any other position: what a lookup does. */
  lemma PosFrom(h: Header, m: int, k: int)
    requires h.capacity > 0
    ensures (Pos(h, m) + (k - m)) % h.capacity == Pos(h, k)
  {
    ModShift(m + h.shift, k - m, h.capacity);
  }

  lemma PosDistinct(h: Header, j: int, k: int)
    requires h.capacity > 0 && j < k < j + h.capacity
    ensures Pos(h, j) != Pos(h, k)
  {
    ModDistinct(j + h.shift, k + h.shift, h.capacity);
  }

  lemma PosTurn(h: Header, k: int)
    requires h.capacity > 0
    ensures Pos(h, k + h.capacity) == Pos(h, k)
  {
    ModPeriod(k + h.shift, h.capacity);
  }

  // ---- The operations ------------------------------------------------------------------

  ghost predicate Shaped(ix: Index) {
    && ix.headers != []
    && |ix.Current().index| == ix.Current().capacity > 0
    && forall r :: 0 <= r < |ix.headers| ==> ShapedHeader(ix, r)
  }

  ghost predicate ShapedHeader(ix: Index, r: nat)
    requires r < |ix.headers|
  {
    var h := ix.headers[r];
    && h.capacity == IMPLICIT_INITIAL_INDEX_SIZE * Pow2(r) && h.capacity > 0
    && |h.index| == h.capacity
    && h.tail < h.capacity
    && forall p :: 0 <= p < |h.index| ==> h.index[p] < |ix.entries|
  }

  /** The entry of block number `k` in the current header. */
  ghost function Slot(ix: Index, k: int): (e: nat)
    requires Shaped(ix)
    ensures e < |ix.entries|
  {
    assert ShapedHeader(ix, |ix.headers| - 1);
    ix.Current().index[Pos(ix.Current(), k)]
  }

  /** The entry the next insertion would use: the one after the tail. */
  ghost function NextEntry(ix: Index): (e: nat)
    requires Shaped(ix)
    ensures e < |ix.entries|
  {
    assert ShapedHeader(ix, |ix.headers| - 1);
    var h := ix.Current();
    h.index[(h.tail + 1) % h.capacity]
  }

  ghost predicate HasRoom(ix: Index)
    requires Shaped(ix)
  {
    var e := ix.entries[NextEntry(ix)];
    e.key == INVALID_BLOCK_BASE || e.value == Null
  }

  /** `insert_block_index_entry`, first store: the key. */
  ghost function WriteKey(ix: Index, blockStart: nat): Index
    requires Shaped(ix)
  {
    var e := NextEntry(ix);
    ix.(entries := ix.entries[e := ix.entries[e].(key := blockStart)],
        high := Max(ix.high, ix.count + 1),
        open := ix.count)
  }

  ghost function WithTail(ix: Index, tail: nat): Index
    requires ix.headers != []
  {
    ix.(headers := ix.headers[|ix.headers| - 1 := ix.Current().(tail := tail)])
  }

  /** `insert_block_index_entry`, second store: the tail. */
  ghost function AdvanceTail(ix: Index): Index
    requires Shaped(ix)
  {
    assert ShapedHeader(ix, |ix.headers| - 1);
    WithTail(ix, (ix.Current().tail + 1) % ix.Current().capacity).(count := ix.count + 1)
  }

  /** `rewind_block_index_tail`. */
  ghost function RewindTail(ix: Index): Index
    requires Shaped(ix) && ix.count > 0
  {
    assert ShapedHeader(ix, |ix.headers| - 1);
    WithTail(ix, (ix.Current().tail - 1) % ix.Current().capacity).(count := ix.count - 1)
  }

  ghost function WriteValue(ix: Index, e: nat, v: Ref): Index
    requires e < |ix.entries|
  {
    ix.(entries := ix.entries[e := ix.entries[e].(value := v)])
  }

  /** The entries of a new header: the old ring from the position after the tail on, then as
      many new ones. */
  ghost function Unrolled(h: Header, capacity: nat, base: nat): seq<nat>
    requires |h.index| == h.capacity > 0
  {
    seq(capacity, i requires 0 <= i < capacity =>
      if i < h.capacity then h.index[(h.tail + 1 + i) % h.capacity] else base + (i - h.capacity))
  }

  /** `new_block_index` on a full ring. What the values of new entries are is not defined by
      the source; `junk` stands for it. */
  ghost function Grow(ix: Index, junk: seq<Ref>): Index
    requires Shaped(ix) && |junk| == ix.Current().capacity
  {
    assert ShapedHeader(ix, |ix.headers| - 1);
    var h := ix.Current();
    var made := Header(ix.nextCapacity, (h.capacity - 1) % Max(1, ix.nextCapacity),
                       Unrolled(h, ix.nextCapacity, |ix.entries|), h.capacity - ix.count, ix.count - h.capacity);
    ix.(entries := ix.entries + seq(|junk|, i requires 0 <= i < |junk| => Entry(INVALID_BLOCK_BASE, junk[i])),
        headers := ix.headers + [made],
        nextCapacity := 2 * ix.nextCapacity)
  }

  // ---- The invariant -------------------------------------------------------------------

  /** The oldest block number the current ring still holds. */
  ghost function Low(ix: Index): int
    requires ix.headers != []
  {
    Max(ix.Current().first, ix.high - ix.Current().capacity)
  }

  ghost predicate KeyOk(ix: Index, k: int)
    requires Shaped(ix)
  {
    ix.entries[Slot(ix, k)].key == BLOCK_SIZE * k
  }

  ghost predicate FreshOk(ix: Index, k: int)
    requires Shaped(ix)
  {
    ix.entries[Slot(ix, k)].key == INVALID_BLOCK_BASE
  }

  ghost predicate ValueOk(ix: Index, k: nat)
    requires Shaped(ix)
  {
    ix.entries[Slot(ix, k)].value == if k in ix.filled then To(ix.filled[k]) else Null
  }

  ghost predicate Injective(q: seq<nat>) {
    forall i, j :: 0 <= i < j < |q| ==> q[i] != q[j]
  }

  /** The newest block number that a superseded header knows. */
  ghost function Last(ix: Index, r: nat): int
    requires r + 1 < |ix.headers|
  {
    ix.headers[r + 1].first + ix.headers[r].capacity - 1
  }

  ghost predicate SameEntry(ix: Index, r: nat, k: int)
    requires Shaped(ix) && r < |ix.headers|
  {
    assert ShapedHeader(ix, r);
    ix.headers[r].index[Pos(ix.headers[r], k)] == Slot(ix, k)
  }

  /** A superseded header still leads to the entries of the blocks it knows. */
  ghost predicate OldHeaderOk(ix: Index, r: nat)
    requires Shaped(ix) && r + 1 < |ix.headers|
  {
    assert ShapedHeader(ix, r);
    && ix.headers[r].tail == Pos(ix.headers[r], Last(ix, r))
    && Last(ix, r) < ix.high
    && forall k :: ix.Current().first <= k <= Last(ix, r) ==> SameEntry(ix, r, k)
  }

  ghost predicate Inv(ix: Index) {
    && Shaped(ix)
    && ix.nextCapacity == IMPLICIT_INITIAL_INDEX_SIZE * Pow2(|ix.headers|)
    && Injective(ix.Current().index)
    && 0 <= ix.Current().first && Low(ix) <= ix.count <= ix.high
    && ix.Current().tail == Pos(ix.Current(), ix.count - 1)
    && (forall k :: Low(ix) <= k < ix.high ==> KeyOk(ix, k))
    && (forall k :: ix.high <= k < ix.Current().first + ix.Current().capacity ==> FreshOk(ix, k))
    && (forall k :: k in ix.filled ==> Low(ix) <= k < ix.high)
    && (forall k: nat :: Low(ix) <= k < ix.high && k != ix.open ==> ValueOk(ix, k))
    && (forall r: nat :: r + 1 < |ix.headers| ==> OldHeaderOk(ix, r))
  }

  // ---- Proof ---------------------------------------------------------------------------

  lemma SlotDistinct(ix: Index, j: int, k: int)
    requires Shaped(ix) && Injective(ix.Current().index)
    requires j < k < j + ix.Current().capacity
    ensures Slot(ix, j) != Slot(ix, k)
  {
    PosDistinct(ix.Current(), j, k);
  }

  lemma NextEntryIsSlot(ix: Index)
    requires Shaped(ix) && ix.Current().tail == Pos(ix.Current(), ix.count - 1)
    ensures NextEntry(ix) == Slot(ix, ix.count)
  {
    PosNext(ix.Current(), ix.count - 1);
  }

  /** The producer is between insertions. */
  ghost predicate Settled(ix: Index) {
    ix.open < 0 && ix.count !in ix.filled
  }

  /** Every entry of the ring has been used and the tail has not been rewound. Unlike the lack
      of room this does not change when consumers empty entries. */
  ghost predicate Full(ix: Index) {
    ix.headers != [] && ix.count == ix.high >= ix.Current().first + ix.Current().capacity
  }

  /** The ring only refuses a block when it is full. */
  lemma NoRoomMeansFull(ix: Index)
    requires Inv(ix) && Settled(ix) && !HasRoom(ix)
    ensures Full(ix)
  {
    NextEntryIsSlot(ix);
    assert ix.count < ix.high ==> ValueOk(ix, ix.count);
    assert ix.count == ix.high < ix.Current().first + ix.Current().capacity ==> FreshOk(ix, ix.high);
  }

  /** With room, the entry about to be reused belongs to no block anybody still needs. */
  lemma RoomMeansReusable(ix: Index)
    requires Inv(ix) && Settled(ix) && HasRoom(ix) && ix.count == ix.high
    ensures forall k :: k in ix.filled ==> k > ix.high - ix.Current().capacity
  {
    NextEntryIsSlot(ix);
    var prior := ix.high - ix.Current().capacity;
    PosTurn(ix.Current(), prior);
    assert prior in ix.filled ==> KeyOk(ix, prior) && ValueOk(ix, prior);
  }

  lemma WriteKeyKeepsInv(ix: Index)
    requires Inv(ix) && Settled(ix) && HasRoom(ix)
    ensures Inv(WriteKey(ix, BLOCK_SIZE * ix.count))
  {
    var ix' := WriteKey(ix, BLOCK_SIZE * ix.count);
    var h, c := ix.Current(), ix.count;
    NextEntryIsSlot(ix);
    assert forall r :: 0 <= r < |ix.headers| ==> ShapedHeader(ix, r) ==> ShapedHeader(ix', r);
    if c == ix.high { RoomMeansReusable(ix); } else { assert KeyOk(ix, c); }
    forall k | Low(ix') <= k < ix'.high ensures KeyOk(ix', k) {
      if k != c { assert KeyOk(ix, k); if k < c { SlotDistinct(ix, k, c); } else { SlotDistinct(ix, c, k); } }
    }
    forall k | ix'.high <= k < h.first + h.capacity ensures FreshOk(ix', k) {
      assert FreshOk(ix, k);
      SlotDistinct(ix, c, k);
    }
    forall k: nat | Low(ix') <= k < ix'.high && k != ix'.open ensures ValueOk(ix', k) {
      assert ValueOk(ix, k);
    }
    forall r: nat | r + 1 < |ix'.headers| ensures OldHeaderOk(ix', r) {
      assert OldHeaderOk(ix, r);
      forall k | ix'.Current().first <= k <= Last(ix', r) ensures SameEntry(ix', r, k) {
        assert SameEntry(ix, r, k);
      }
    }
  }

  /** Moving the tail of the current header changes nothing else that the invariant reads. */
  lemma MoveTailKeepsInv(ix: Index, tail: nat, count: nat)
    requires Inv(ix) && tail == Pos(ix.Current(), count - 1)
    requires Low(ix) <= count <= ix.high
    ensures Inv(WithTail(ix, tail).(count := count))
  {
    var ix' := WithTail(ix, tail).(count := count);
    assert forall r :: 0 <= r < |ix.headers| ==> ShapedHeader(ix, r) ==> ShapedHeader(ix', r);
    forall k | Low(ix') <= k < ix'.high ensures KeyOk(ix', k) { assert KeyOk(ix, k); }
    forall k | ix'.high <= k < ix'.Current().first + ix'.Current().capacity ensures FreshOk(ix', k) {
      assert FreshOk(ix, k);
    }
    forall k: nat | Low(ix') <= k < ix'.high && k != ix'.open ensures ValueOk(ix', k) { assert ValueOk(ix, k); }
    forall r: nat | r + 1 < |ix'.headers| ensures OldHeaderOk(ix', r) {
      assert OldHeaderOk(ix, r);
      forall k | ix'.Current().first <= k <= Last(ix', r) ensures SameEntry(ix', r, k) {
        assert SameEntry(ix, r, k);
      }
    }
  }

  lemma AdvanceTailKeepsInv(ix: Index)
    requires Inv(ix) && ix.count < ix.high
    ensures Inv(AdvanceTail(ix))
  {
    PosNext(ix.Current(), ix.count - 1);
    MoveTailKeepsInv(ix, Pos(ix.Current(), ix.count), ix.count + 1);
  }

  lemma RewindTailKeepsInv(ix: Index)
    requires Inv(ix) && ix.count > 0 && Low(ix) < ix.count
    ensures Inv(RewindTail(ix))
  {
    PosNext(ix.Current(), ix.count - 1);
    MoveTailKeepsInv(ix, Pos(ix.Current(), ix.count - 2), ix.count - 1);
  }

  /** Storing the value of one entry, with the history following. */
  lemma WriteValueKeepsInv(ix: Index, c: nat, v: Ref, ix': Index)
    requires Inv(ix) && Low(ix) <= c < ix.high
    requires ix' == WriteValue(ix, Slot(ix, c), v).(filled := ix'.filled, open := ix'.open)
    requires ix'.filled - {c} == ix.filled - {c}
    requires v == if c in ix'.filled then To(ix'.filled[c]) else Null
    requires ix'.open == ix.open || (ix.open == c && ix'.open < 0)
    ensures Inv(ix')
  {
    assert forall r :: 0 <= r < |ix.headers| ==> ShapedHeader(ix, r) ==> ShapedHeader(ix', r);
    forall k | Low(ix') <= k < ix'.high ensures KeyOk(ix', k) { assert KeyOk(ix, k); }
    forall k | ix'.high <= k < ix'.Current().first + ix'.Current().capacity ensures FreshOk(ix', k) {
      assert FreshOk(ix, k);
    }
    forall k | k in ix'.filled ensures Low(ix') <= k < ix'.high {
      if k != c { assert k in ix'.filled - {c}; }
    }
    forall k: nat | Low(ix') <= k < ix'.high && k != ix'.open ensures ValueOk(ix', k) {
      if k != c {
        assert ValueOk(ix, k);
        if k < c { SlotDistinct(ix, k, c); } else { SlotDistinct(ix, c, k); }
        assert k in ix.filled - {c} <==> k in ix'.filled - {c};
        assert k in ix.filled ==> (ix.filled - {c})[k] == (ix'.filled - {c})[k];
      }
    }
    forall r: nat | r + 1 < |ix'.headers| ensures OldHeaderOk(ix', r) {
      assert OldHeaderOk(ix, r);
      forall k | ix'.Current().first <= k <= Last(ix', r) ensures SameEntry(ix', r, k) {
        assert SameEntry(ix, r, k);
      }
    }
  }

  /** A consumer that empties an entry takes no room away, and does not undo that the ring is full. */
  lemma RoomStays(ix: Index, e: nat, filled: map<nat, Block>)
    requires Shaped(ix) && e < |ix.entries|
    ensures var ix' := WriteValue(ix, e, Null).(filled := filled);
      Shaped(ix') && (HasRoom(ix) ==> HasRoom(ix')) && (Full(ix) ==> Full(ix'))
  {
    var ix' := WriteValue(ix, e, Null).(filled := filled);
    forall r | 0 <= r < |ix.headers| ensures ShapedHeader(ix', r) { assert ShapedHeader(ix, r); }
  }

  lemma UnrolledPos(h: Header, count: int, k: int)
    requires h.capacity > 0 && h.tail == Pos(h, count - 1)
    ensures (h.tail + 1 + (k + h.capacity - count)) % h.capacity == Pos(h, k)
  {
    ModShift(count - 1 + h.shift, 1 + (k + h.capacity - count), h.capacity);
    PosTurn(h, k);
  }

  /** The new header puts every block of the old ring, and then the new entries, where its
      shift says. */
  lemma UnrolledEntry(ix: Index, junk: seq<Ref>, k: int)
    requires Shaped(ix) && |junk| == ix.Current().capacity && Shaped(Grow(ix, junk))
    requires ix.Current().tail == Pos(ix.Current(), ix.count - 1)
    requires ix.nextCapacity == 2 * ix.Current().capacity
    requires ix.count - ix.Current().capacity <= k < ix.count + ix.Current().capacity
    ensures k < ix.count ==> Slot(Grow(ix, junk), k) == Slot(ix, k)
    ensures k >= ix.count ==> Slot(Grow(ix, junk), k) == |ix.entries| + (k - ix.count)
  {
    var h, made := ix.Current(), Grow(ix, junk).Current();
    var i := k + h.capacity - ix.count;
    assert Pos(made, k) == i by { DivUnique(i, 0, i, made.capacity); }
    UnrolledPos(h, ix.count, k);
  }

  lemma GrowShaped(ix: Index, junk: seq<Ref>)
    requires Inv(ix) && |junk| == ix.Current().capacity
    ensures Shaped(Grow(ix, junk)) && Injective(Grow(ix, junk).Current().index)
  {
    var h, ix' := ix.Current(), Grow(ix, junk);
    var made := ix'.Current();
    assert ShapedHeader(ix, |ix.headers| - 1);
    assert ix'.headers[..|ix.headers|] == ix.headers;
    DivUnique(h.capacity - 1, 0, h.capacity - 1, ix.nextCapacity);
    forall r | 0 <= r < |ix'.headers| ensures ShapedHeader(ix', r) {
      if r < |ix.headers| { assert ShapedHeader(ix, r); }
    }
    forall i, j | 0 <= i < j < |made.index| ensures made.index[i] != made.index[j] {
      if j < h.capacity {
        ModDistinct(h.tail + 1 + i, h.tail + 1 + j, h.capacity);
      }
    }
  }

  lemma GrowKeepsOldHeaders(ix: Index, junk: seq<Ref>, r: nat)
    requires Inv(ix) && Full(ix) && |junk| == ix.Current().capacity
    requires Shaped(Grow(ix, junk)) && r < |ix.headers|
    ensures OldHeaderOk(Grow(ix, junk), r)
  {
    var ix' := Grow(ix, junk);
    assert ShapedHeader(ix, r) && ShapedHeader(ix, |ix.headers| - 1);
    assert r + 1 < |ix.headers| ==> OldHeaderOk(ix, r);
    forall k | ix'.Current().first <= k <= Last(ix', r) ensures SameEntry(ix', r, k) {
      UnrolledEntry(ix, junk, k);
      assert r + 1 < |ix.headers| ==> SameEntry(ix, r, k);
    }
  }

  lemma GrowKeepsInv(ix: Index, junk: seq<Ref>)
    requires Inv(ix) && Full(ix) && |junk| == ix.Current().capacity
    ensures Inv(Grow(ix, junk))
  {
    var h, ix' := ix.Current(), Grow(ix, junk);
    assert ShapedHeader(ix, |ix.headers| - 1);
    GrowShaped(ix, junk);
    DivUnique(h.capacity - 1, 0, h.capacity - 1, ix.nextCapacity);
    forall k | Low(ix') <= k < ix'.high ensures KeyOk(ix', k) {
      UnrolledEntry(ix, junk, k);
      assert KeyOk(ix, k);
    }
    forall k | ix'.high <= k < ix'.Current().first + ix'.Current().capacity ensures FreshOk(ix', k) {
      UnrolledEntry(ix, junk, k);
    }
    forall k: nat | Low(ix') <= k < ix'.high && k != ix'.open ensures ValueOk(ix', k) {
      UnrolledEntry(ix, junk, k);
      assert ValueOk(ix, k);
    }
    forall r: nat | r + 1 < |ix'.headers| ensures OldHeaderOk(ix', r) {
      GrowKeepsOldHeaders(ix, junk, r);
    }
  }

  lemma UnusedEntryIsRoom(ix: Index)
    requires Inv(ix) && ix.count == ix.high < ix.Current().first + ix.Current().capacity
    ensures HasRoom(ix) && ix.entries[NextEntry(ix)].key == INVALID_BLOCK_BASE
  {
    NextEntryIsSlot(ix);
    assert FreshOk(ix, ix.count);
  }

  /** After growing there is room, in an entry that was never used. */
  lemma GrowMakesRoom(ix: Index, junk: seq<Ref>)
    requires Inv(ix) && Full(ix) && |junk| == ix.Current().capacity
    ensures Shaped(Grow(ix, junk)) && HasRoom(Grow(ix, junk))
    ensures Grow(ix, junk).entries[NextEntry(Grow(ix, junk))].key == INVALID_BLOCK_BASE
  {
    assert ix.nextCapacity == 2 * ix.Current().capacity by { assert ShapedHeader(ix, |ix.headers| - 1); }
    GrowKeepsInv(ix, junk);
    UnusedEntryIsRoom(Grow(ix, junk));
  }

  // ---- Looking a block up --------------------------------------------------------------

  /** A consumer that needs block `k` holds header `r`, which knows blocks up to `m`. */
  ghost predicate CanSee(ix: Index, r: nat, k: nat, m: int) {
    && r < |ix.headers|
    && k <= m < ix.high
    && (r + 1 < |ix.headers| ==> m <= Last(ix, r))
  }

  /** The position that `get_block_index_index_for_index` computes for block base `base` from
      a tail position and the key found there. */
  ghost function LookupPos(h: Header, tail: nat, tailBase: int, base: int): nat
    requires h.capacity > 0
  {
    (tail + (base - tailBase) / BLOCK_SIZE) % h.capacity
  }

  lemma HeaderSees(ix: Index, r: nat, k: int)
    requires Inv(ix) && r < |ix.headers| && Low(ix) <= k < ix.high
    requires r + 1 < |ix.headers| ==> k <= Last(ix, r)
    ensures SameEntry(ix, r, k)
  {
    if r + 1 < |ix.headers| { assert OldHeaderOk(ix, r); }
  }

  /** The tail of any header that was once current is the position of a block it knows. */
  lemma TailOfHeader(ix: Index, r: nat)
    requires Inv(ix) && r < |ix.headers|
    ensures ix.headers[r].capacity > 0
    ensures ix.headers[r].tail == Pos(ix.headers[r], if r + 1 < |ix.headers| then Last(ix, r) else ix.count - 1)
    ensures r + 1 < |ix.headers| ==> Last(ix, r) < ix.high
  {
    assert ShapedHeader(ix, r);
    if r + 1 < |ix.headers| { assert OldHeaderOk(ix, r); }
  }

  /** The lookup is right: through any header, from any tail position that header ever had and
      that reaches the wanted block, the key found is the one the position stands for, the
      computed position is the wanted block's, and its entry holds the wanted block. */
  lemma LookupFinds(ix: Index, r: nat, k: nat, m: int)
    requires Inv(ix) && CanSee(ix, r, k, m) && k in ix.filled && k != ix.open
    ensures var h := ix.headers[r];
      && |h.index| == h.capacity > 0
      && h.index[Pos(h, m)] < |ix.entries|
      && ix.entries[h.index[Pos(h, m)]].key == BLOCK_SIZE * m
      && LookupPos(h, Pos(h, m), BLOCK_SIZE * m, BLOCK_SIZE * k) == Pos(h, k)
      && h.index[Pos(h, k)] == Slot(ix, k)
      && ix.entries[Slot(ix, k)] == Entry(BLOCK_SIZE * k, To(ix.filled[k]))
  {
    var h := ix.headers[r];
    assert ShapedHeader(ix, r);
    HeaderSees(ix, r, m);
    HeaderSees(ix, r, k);
    assert KeyOk(ix, m) && KeyOk(ix, k) && ValueOk(ix, k);
    assert (BLOCK_SIZE * k - BLOCK_SIZE * m) / BLOCK_SIZE == k - m;
    PosFrom(h, m, k);
  }

  /** What a header sees, it goes on seeing, whatever the producer does to the index. */
  lemma GrowKeepsSight(ix: Index, junk: seq<Ref>, r: nat, k: nat, m: int)
    requires Inv(ix) && Full(ix) && |junk| == ix.Current().capacity
    requires CanSee(ix, r, k, m)
    ensures CanSee(Grow(ix, junk), r, k, m)
  {
    assert ShapedHeader(ix, |ix.headers| - 1);
  }
}
