/** One implicit producer's sub-queue: the producer thread enqueues, singly or in bulk, while
    any number of consumers dequeue. Elements live in blocks; the block index says which block
    serves which indices; emptied blocks go back to the pool. Every atomic operation, and every
    element written or moved out, is one step. A single enqueue or dequeue is a bulk one of
    count one. Claiming an index is one step here, licensed by the claim protocol. */
module SubQueue {
  import opened Basics
  import opened BlockIndex

  /** Identity of an element. */
  type Item = nat

  datatype Cell = Raw | Holds(item: Item)

  datatype Memory = Memory(cells: seq<Cell>, dequeued: nat)

  /** Who has a block: the pool, the indices of block number `k`, a consumer that emptied it
      (before and after clearing its index entry), the producer, or another producer's sub-queue,
      which shares the pool. */
  datatype Place = InPool | Serving(k: nat) | Clearing(k: nat, t: nat) | Held(t: nat) | WithProducer | Elsewhere

  /** The producer's program counter. `chain` holds the blocks requisitioned so far by the
      current operation, oldest first. */
  datatype Producer =
    | Rest
    | Allocate(xs: seq<Item>, chain: seq<Block>)
    | TestEntry(xs: seq<Item>, chain: seq<Block>)
    | GrowIndex(xs: seq<Item>, chain: seq<Block>)
    | StoreKey(xs: seq<Item>, chain: seq<Block>)
    | StoreTail(xs: seq<Item>, chain: seq<Block>)
    | Requisition(xs: seq<Item>, chain: seq<Block>)
    | ResetEmpty(xs: seq<Item>, chain: seq<Block>, block: Block)
    | StoreBlock(xs: seq<Item>, chain: seq<Block>, block: Block)
    | Rewind(chain: seq<Block>)
    | Forget(chain: seq<Block>)
    | UndoValue(chain: seq<Block>, j: nat)
    | UndoTail(chain: seq<Block>, j: nat)
    | ReturnBlocks(chain: seq<Block>, j: nat)
    | Construct(xs: seq<Item>, chain: seq<Block>, j: nat)

  /** A consumer's program counter: it has claimed `[.., end)` and is at index `i`. `r` is the
      header it looks through; `m` is history, the block number the loaded tail stands for. */
  datatype Consumer =
    | Away
    | LoadHeader(i: nat, end: nat)
    | LoadTail(i: nat, end: nat, r: nat)
    | LoadKey(i: nat, end: nat, r: nat, tail: nat, m: int)
    | LoadBlock(i: nat, end: nat, r: nat, pos: nat)
    | Move(i: nat, start: nat, stop: nat, end: nat, r: nat, pos: nat, block: Block)
    | Clear(i: nat, end: nat, r: nat, pos: nat, block: Block)
    | Free(i: nat, end: nat, r: nat, pos: nat, block: Block)

  /** The last five fields are history: who has each block, every element ever published, who
      claimed each index, what was delivered for each index, and which indices are finished. */
  datatype State = State(
    ix: Index,
    mem: seq<Memory>,
    pool: multiset<Block>,
    tail: nat,
    head: nat,
    tailBlock: Ref,
    prod: Producer,
    pcs: seq<Consumer>,
    place: seq<Place>,
    items: seq<Item>,
    owner: seq<nat>,
    out: map<nat, Item>,
    done: set<nat>)

  /** What the environment decides: the operation, the outcome of an allocation. */
  datatype Choice =
    | Enqueue(xs: seq<Item>)
    | Extend(junk: seq<Ref>)
    | Reuse(block: Block)
    | Create
    | Fail
    | Claim(count: nat)
    | Go

  /** How many blocks the first `n` elements need. */
  function Blocks(n: nat): nat {
    (n + BLOCK_SIZE - 1) / BLOCK_SIZE
  }

  ghost function Range(lo: nat, hi: nat): (r: set<nat>)
    ensures forall x: nat :: x in r <==> lo <= x < hi
  {
    if lo >= hi then {} else Range(lo, hi - 1) + {hi - 1}
  }

  // ---- The producer --------------------------------------------------------------------

  ghost predicate ProducerEnabled(s: State, c: Choice) {
    && Shaped(s.ix)
    && |s.place| == |s.mem|
    && match s.prod
       case Rest => c.Enqueue?
       case GrowIndex(_, _) => c.Fail? || (c.Extend? && |c.junk| == s.ix.Current().capacity)
       case Requisition(_, _) => c.Fail? || c.Create? || (c.Reuse? && c.block in s.pool && c.block < |s.mem|)
       case ResetEmpty(_, _, b) => b < |s.mem|
       case StoreBlock(_, _, b) => b < |s.mem|
       case Rewind(_) => s.ix.count > 0
       case UndoValue(chain, j) => j < |chain| ==> chain[j] < |s.mem|
       case UndoTail(_, _) => s.ix.count > 0
       case ReturnBlocks(chain, j) => j < |chain| ==> chain[j] < |s.mem|
       case Construct(xs, chain, j) =>
         && (j < |xs| ==> Target(s, chain, j).To? && Target(s, chain, j).block < |s.mem|
                          && |s.mem[Target(s, chain, j).block].cells| == BLOCK_SIZE)
       case _ => true
  }

  /** The block that the `j`-th new element goes to: the tail block, then along the chain. */
  ghost function Target(s: State, chain: seq<Block>, j: nat): Ref {
    var n := (s.tail + j) / BLOCK_SIZE;
    if n < Blocks(s.tail) then s.tailBlock
    else if n - Blocks(s.tail) < |chain| then To(chain[n - Blocks(s.tail)])
    else Null
  }

  /** The entry the index tail points at, and the entry of a given block base, looked up as
      consumers do. */
  ghost function TailEntry(ix: Index): (e: nat)
    requires Shaped(ix)
    ensures e < |ix.entries|
  {
    assert ShapedHeader(ix, |ix.headers| - 1);
    ix.Current().index[ix.Current().tail]
  }

  ghost function LookupEntry(ix: Index, base: int): (e: nat)
    requires Shaped(ix)
    ensures e < |ix.entries|
  {
    assert ShapedHeader(ix, |ix.headers| - 1);
    var h := ix.Current();
    h.index[LookupPos(h, h.tail, ix.entries[TailEntry(ix)].key, base)]
  }

  ghost function Put(s: State, b: Block, p: Place): State
    requires b < |s.place|
  {
    s.(place := s.place[b := p])
  }

  ghost function ProducerStep(s: State, c: Choice): State
    requires ProducerEnabled(s, c)
  {
    match s.prod
    case Rest => s.(prod := Allocate(c.xs, []))
    case Allocate(xs, chain) =>
      if s.ix.count >= Blocks(s.tail + |xs|) then s.(prod := Construct(xs, chain, 0))
      else if !(s.head < BLOCK_SIZE * s.ix.count + BLOCK_SIZE) then s.(prod := UndoValue(chain, 0))
      else s.(prod := TestEntry(xs, chain))
    case TestEntry(xs, chain) => s.(prod := if HasRoom(s.ix) then StoreKey(xs, chain) else GrowIndex(xs, chain))
    case GrowIndex(xs, chain) =>
      if c.Extend? then s.(ix := Grow(s.ix, c.junk), prod := StoreKey(xs, chain))
      else s.(prod := UndoValue(chain, 0))
    case StoreKey(xs, chain) =>
      s.(ix := WriteKey(s.ix, BLOCK_SIZE * s.ix.count), prod := StoreTail(xs, chain))
    case StoreTail(xs, chain) => s.(ix := AdvanceTail(s.ix), prod := Requisition(xs, chain))
    case Requisition(xs, chain) => (
      match c
      case Reuse(b) =>
        Put(s, b, WithProducer).(pool := s.pool - multiset{b}, prod := ResetEmpty(xs, chain, b))
      case Create =>
        s.(mem := s.mem + [Memory(seq(BLOCK_SIZE, _ => Raw), 0)], place := s.place + [WithProducer],
           prod := ResetEmpty(xs, chain, |s.mem|))
      case _ => s.(prod := Rewind(chain))
      )
    case ResetEmpty(xs, chain, b) =>
      s.(mem := s.mem[b := s.mem[b].(dequeued := 0)], prod := StoreBlock(xs, chain, b))
    case StoreBlock(xs, chain, b) =>
      var k := Max(0, s.ix.count - 1);
      Put(s, b, Serving(k)).(
        ix := WriteValue(s.ix, TailEntry(s.ix), To(b)).(filled := s.ix.filled[k := b], open := -1),
        prod := Allocate(xs, chain + [b]))
    case Rewind(chain) => s.(ix := RewindTail(s.ix), prod := Forget(chain))
    case Forget(chain) =>
      s.(ix := WriteValue(s.ix, NextEntry(s.ix), Null).(open := -1), prod := UndoValue(chain, 0))
    case UndoValue(chain, j) =>
      if j < |chain| then
        var k := Blocks(s.tail) + j;
        Put(s, chain[j], WithProducer).(
          ix := WriteValue(s.ix, LookupEntry(s.ix, BLOCK_SIZE * k), Null).(filled := s.ix.filled - {k}),
          prod := UndoTail(chain, j))
      else s.(prod := ReturnBlocks(chain, 0))
    case UndoTail(chain, j) => s.(ix := RewindTail(s.ix), prod := UndoValue(chain, j + 1))
    case ReturnBlocks(chain, j) =>
      if j < |chain| then
        Put(s, chain[j], InPool).(pool := s.pool + multiset{chain[j]}, prod := ReturnBlocks(chain, j + 1))
      else s.(prod := Rest)
    case Construct(xs, chain, j) =>
      if j < |xs| then
        var b := Target(s, chain, j).block;
        var o := (s.tail + j) % BLOCK_SIZE;
        s.(mem := s.mem[b := s.mem[b].(cells := s.mem[b].cells[o := Holds(xs[j])])],
           prod := Construct(xs, chain, j + 1))
      else
        s.(tail := s.tail + |xs|, items := s.items + xs, prod := Rest,
           tailBlock := if chain == [] then s.tailBlock else To(chain[|chain| - 1]))
  }

  // ---- The consumers -------------------------------------------------------------------

  ghost predicate ConsumerEnabled(s: State, t: nat, c: Choice) {
    && Shaped(s.ix)
    && |s.place| == |s.mem|
    && t < |s.pcs|
    && match s.pcs[t]
       case Away => c.Claim? && c.count > 0 && s.head + c.count <= s.tail
       case LoadHeader(_, _) => true
       case LoadTail(_, _, r) => r < |s.ix.headers|
       case LoadKey(_, _, r, tail, _) => r < |s.ix.headers| && tail < s.ix.headers[r].capacity
       case LoadBlock(_, _, r, pos) => r < |s.ix.headers| && pos < s.ix.headers[r].capacity
           && EntryAt(s, r, pos).value.To?
       case Move(i, start, stop, end, r, pos, b) =>
         && b < |s.mem| && |s.mem[b].cells| == BLOCK_SIZE && r < |s.ix.headers|
         && start <= stop
         && (i < stop ==> s.mem[b].cells[i % BLOCK_SIZE].Holds?)
       case Clear(i, _, r, pos, b) => i > 0 && r < |s.ix.headers| && pos < s.ix.headers[r].capacity && b < |s.mem|
       case Free(_, _, r, _, b) => r < |s.ix.headers| && b < |s.mem|
  }

  ghost function EntryIdAt(s: State, r: nat, pos: nat): (e: nat)
    requires Shaped(s.ix) && r < |s.ix.headers| && pos < s.ix.headers[r].capacity
    ensures e < |s.ix.entries|
  {
    assert ShapedHeader(s.ix, r);
    s.ix.headers[r].index[pos]
  }

  ghost function EntryAt(s: State, r: nat, pos: nat): Entry
    requires Shaped(s.ix) && r < |s.ix.headers| && pos < s.ix.headers[r].capacity
  {
    s.ix.entries[EntryIdAt(s, r, pos)]
  }

  /** After a chunk: the next block of the claim, if there is one. */
  ghost function Proceed(s: State, i: nat, end: nat, r: nat, pos: nat): Consumer
    requires Shaped(s.ix) && r < |s.ix.headers|
  {
    assert ShapedHeader(s.ix, r);
    if i == end then Away else LoadBlock(i, end, r, (pos + 1) % s.ix.headers[r].capacity)
  }

  ghost function Goto(s: State, t: nat, p: Consumer): State
    requires t < |s.pcs|
  {
    s.(pcs := s.pcs[t := p])
  }

  ghost function ConsumerStep(s: State, t: nat, c: Choice): State
    requires ConsumerEnabled(s, t, c)
  {
    match s.pcs[t]
    case Away =>
      Goto(s, t, LoadHeader(s.head, s.head + c.count)).(
        head := s.head + c.count, owner := s.owner + seq(c.count, _ => t))
    case LoadHeader(i, end) => Goto(s, t, LoadTail(i, end, |s.ix.headers| - 1))
    case LoadTail(i, end, r) =>
      Goto(s, t, LoadKey(i, end, r, s.ix.headers[r].tail,
                         if r + 1 < |s.ix.headers| then Last(s.ix, r) else s.ix.count - 1))
    case LoadKey(i, end, r, tail, _) =>
      assert ShapedHeader(s.ix, r);
      Goto(s, t, LoadBlock(i, end, r, LookupPos(s.ix.headers[r], tail, EntryAt(s, r, tail).key,
                                                i / BLOCK_SIZE * BLOCK_SIZE)))
    case LoadBlock(i, end, r, pos) =>
      var stop := Min(end, i / BLOCK_SIZE * BLOCK_SIZE + BLOCK_SIZE);
      Goto(s, t, Move(i, i, stop, end, r, pos, EntryAt(s, r, pos).value.block))
    case Move(i, start, stop, end, r, pos, b) =>
      if i < stop then
        var o := i % BLOCK_SIZE;
        Goto(s, t, Move(i + 1, start, stop, end, r, pos, b)).(
          mem := s.mem[b := s.mem[b].(cells := s.mem[b].cells[o := Raw])],
          out := s.out[i := s.mem[b].cells[o].item])
      else
        var n := s.mem[b].dequeued + (stop - start);
        var s1 := s.(mem := s.mem[b := s.mem[b].(dequeued := n)], done := s.done + Range(start, stop));
        if n == BLOCK_SIZE
        then Put(Goto(s1, t, Clear(i, end, r, pos, b)), b, Clearing(start / BLOCK_SIZE, t))
        else Goto(s1, t, Proceed(s, i, end, r, pos))
    case Clear(i, end, r, pos, b) =>
      Put(Goto(s, t, Free(i, end, r, pos, b)), b, Held(t)).(
        ix := WriteValue(s.ix, EntryIdAt(s, r, pos), Null).(filled := s.ix.filled - {(i - 1) / BLOCK_SIZE}))
    case Free(i, end, r, pos, b) =>
      Put(Goto(s, t, Proceed(s, i, end, r, pos)), b, InPool).(pool := s.pool + multiset{b})
  }

  // ---- The other producers -------------------------------------------------------------

  /** What other sub-queues do to the pool they share: take a block, use it in some way, give it
      back empty, or make a new one. */
  datatype Other = Takes(block: Block) | Uses(block: Block, m: Memory) | Returns(block: Block) | Makes(m: Memory)

  ghost predicate OtherEnabled(s: State, o: Other) {
    && |s.place| == |s.mem|
    && match o
       case Takes(b) => b in s.pool && b < |s.mem|
       case Uses(b, _) => b < |s.mem| && s.place[b] == Elsewhere
       case Returns(b) => b < |s.mem| && s.place[b] == Elsewhere && Clean(s.mem[b])
       case Makes(_) => true
  }

  ghost function OtherStep(s: State, o: Other): State
    requires OtherEnabled(s, o)
  {
    match o
    case Takes(b) => Put(s, b, Elsewhere).(pool := s.pool - multiset{b})
    case Uses(b, m) => s.(mem := s.mem[b := m])
    case Returns(b) => Put(s, b, InPool).(pool := s.pool + multiset{b})
    case Makes(m) => s.(mem := s.mem + [m], place := s.place + [Elsewhere])
  }

  // ---- The invariant -------------------------------------------------------------------

  /** The blocks of the producer's operation in progress; those from `FirstServing` on are in
      the index, and those from `FirstHeld` up to there are in its hands. */
  ghost function ChainOf(p: Producer): seq<Block> {
    if p.Rest? then [] else p.chain
  }

  ghost function FirstServing(p: Producer): nat {
    match p
    case UndoValue(_, j) => j
    case UndoTail(_, j) => j + 1
    case ReturnBlocks(chain, _) => |chain|
    case _ => 0
  }

  ghost function FirstHeld(p: Producer): nat {
    if p.ReturnBlocks? then p.j else 0
  }

  /** How many blocks the index counts beyond the published ones, and which is open. */
  ghost predicate CountOk(s: State) {
    var f := Blocks(s.tail);
    match s.prod
    case Rest => s.ix.count == f && s.ix.open < 0
    case Allocate(xs, chain) => s.ix.count == f + |chain| && s.ix.open < 0 && s.ix.count <= Blocks(s.tail + |xs|)
    case TestEntry(xs, chain) => s.ix.count == f + |chain| && s.ix.open < 0 && s.ix.count < Blocks(s.tail + |xs|)
    case GrowIndex(xs, chain) => s.ix.count == f + |chain| && s.ix.open < 0 && s.ix.count < Blocks(s.tail + |xs|)
    case StoreKey(xs, chain) => s.ix.count == f + |chain| && s.ix.open < 0 && s.ix.count < Blocks(s.tail + |xs|)
    case StoreTail(xs, chain) =>
      s.ix.count == s.ix.open == f + |chain| && s.ix.count < s.ix.high && s.ix.count < Blocks(s.tail + |xs|)
    case Requisition(xs, chain) => s.ix.count == s.ix.open + 1 == f + |chain| + 1 && s.ix.count <= Blocks(s.tail + |xs|)
    case ResetEmpty(xs, chain, b) => s.ix.count == s.ix.open + 1 == f + |chain| + 1
        && s.ix.count <= Blocks(s.tail + |xs|)
    case StoreBlock(xs, chain, b) => s.ix.count == s.ix.open + 1 == f + |chain| + 1
        && s.ix.count <= Blocks(s.tail + |xs|)
    case Rewind(chain) => s.ix.count == s.ix.open + 1 == f + |chain| + 1
    case Forget(chain) => s.ix.count == s.ix.open == f + |chain| && s.ix.count < s.ix.high
    case UndoValue(chain, j) => j <= |chain| && s.ix.count == f + |chain| - j && s.ix.open < 0
    case UndoTail(chain, j) => j < |chain| && s.ix.count == f + |chain| - j && s.ix.open < 0
    case ReturnBlocks(chain, j) => j <= |chain| && s.ix.count == f && s.ix.open < 0
    case Construct(xs, chain, j) =>
      j <= |xs| && s.ix.count == f + |chain| == Blocks(s.tail + |xs|) && s.ix.open < 0
  }

  ghost predicate DistinctBlocks(q: seq<Block>) {
    forall i, j :: 0 <= i < j < |q| ==> q[i] != q[j]
  }

  ghost predicate ServesChain(s: State, j: nat)
    requires j < |ChainOf(s.prod)|
  {
    var k := Blocks(s.tail) + j;
    k in s.ix.filled && s.ix.filled[k] == ChainOf(s.prod)[j]
  }

  ghost predicate HasBlock(s: State, b: Block) {
    b < |s.mem| == |s.place| && s.place[b] == WithProducer
  }

  /** What the test of the next entry found out still holds. */
  ghost predicate TestedOk(s: State) {
    && (s.prod.StoreKey? ==> Shaped(s.ix) && HasRoom(s.ix))
    && (s.prod.GrowIndex? ==> Full(s.ix))
  }

  ghost predicate ProducerInv(s: State) {
    var f, chain := Blocks(s.tail), ChainOf(s.prod);
    && CountOk(s)
    && TestedOk(s)
    && s.ix.headers != [] && Low(s.ix) <= f
    && DistinctBlocks(chain)
    && (forall j :: FirstServing(s.prod) <= j < |chain| ==> ServesChain(s, j))
    && (forall k :: k in s.ix.filled && k >= f ==> FirstServing(s.prod) <= k - f < |chain|)
    && (forall j :: FirstHeld(s.prod) <= j < FirstServing(s.prod) && j < |chain| ==> HasBlock(s, chain[j]))
    && (s.prod.ResetEmpty? || s.prod.StoreBlock? ==> HasBlock(s, s.prod.block) && s.prod.block !in chain)
    && (s.prod.StoreBlock? ==> s.mem[s.prod.block].dequeued == 0)
    && (s.tail % BLOCK_SIZE != 0 ==> f - 1 in s.ix.filled && s.tailBlock == To(s.ix.filled[f - 1]))
  }

  ghost predicate Clean(m: Memory) {
    |m.cells| == BLOCK_SIZE && forall o :: 0 <= o < BLOCK_SIZE ==> m.cells[o] == Raw
  }

  /** Every block is where its place says, and in the pool as often as that allows. */
  ghost predicate PlaceInv(s: State, b: Block)
    requires b < |s.mem| == |s.place|
  {
    && s.pool[b] == (if s.place[b].InPool? then 1 else 0)
    && match s.place[b]
       case InPool => Clean(s.mem[b])
       case Serving(k) => k in s.ix.filled && s.ix.filled[k] == b
       case Clearing(k, t) =>
         && k in s.ix.filled && s.ix.filled[k] == b && Clean(s.mem[b])
         && t < |s.pcs| && s.pcs[t].Clear? && s.pcs[t].block == b && s.pcs[t].i > 0
             && (s.pcs[t].i - 1) / BLOCK_SIZE == k
       case Held(t) => Clean(s.mem[b]) && t < |s.pcs| && s.pcs[t].Free? && s.pcs[t].block == b
       case WithProducer => Clean(s.mem[b])
       case Elsewhere => true
  }

  /** What the cell of index `i` must hold. */
  ghost function Expected(s: State, i: nat): Cell {
    if i < |s.items| then (if i in s.out then Raw else Holds(s.items[i]))
    else if s.prod.Construct? && i - s.tail < s.prod.j
      && 0 <= i - s.tail < |s.prod.xs| then Holds(s.prod.xs[i - s.tail])
    else Raw
  }

  /** How many of the `n` indices from `base` on are finished. */
  ghost function DoneCount(done: set<nat>, base: nat, n: nat): nat {
    if n == 0 then 0 else DoneCount(done, base, n - 1) + (if base + n - 1 in done then 1 else 0)
  }

  /** A block that is in the index holds what it should and counts what left it. */
  ghost predicate BlockInv(s: State, k: nat)
    requires k in s.ix.filled
  {
    var b := s.ix.filled[k];
    && b < |s.mem| == |s.place|
    && |s.mem[b].cells| == BLOCK_SIZE
    && (forall o :: 0 <= o < BLOCK_SIZE ==> s.mem[b].cells[o] == Expected(s, BLOCK_SIZE * k + o))
    && s.mem[b].dequeued == DoneCount(s.done, BLOCK_SIZE * k, BLOCK_SIZE)
    && (|| (s.place[b] == Serving(k) && s.mem[b].dequeued < BLOCK_SIZE)
        || (s.place[b].Clearing? && s.place[b].k == k && s.mem[b].dequeued == BLOCK_SIZE))
  }

  /** The indices a consumer has claimed and not finished. */
  ghost predicate Pending(p: Consumer, x: nat) {
    match p
    case Away => false
    case Move(i, start, stop, end, r, pos, b) => start <= x < end
    case _ => p.i <= x < p.end
  }

  ghost predicate IndexInv(s: State, x: nat)
    requires |s.items| == s.tail && |s.owner| == s.head && x < s.tail
  {
    && (x !in s.done ==> x / BLOCK_SIZE in s.ix.filled)
    && (x in s.done ==> x in s.out)
    && (x in s.out ==> x < s.head && s.out[x] == s.items[x])
    && (x < s.head ==> s.owner[x] < |s.pcs| && (x in s.done || Pending(s.pcs[s.owner[x]], x)))
  }

  /** What a consumer still has to deliver is its own, and nobody has touched it. */
  ghost predicate Untouched(s: State, t: nat, lo: nat, hi: nat) {
    hi <= s.head == |s.owner| && forall x :: lo <= x < hi ==> s.owner[x] == t && x !in s.out && x !in s.done
  }

  /** Header `r` knows every block up to number `k`. */
  ghost predicate Knows(ix: Index, r: nat, k: int) {
    r < |ix.headers| && ix.headers[r].capacity > 0 && (r + 1 < |ix.headers| ==> k <= Last(ix, r))
  }

  ghost predicate At(ix: Index, r: nat, pos: nat, k: int) {
    r < |ix.headers| && ix.headers[r].capacity > 0 && pos == Pos(ix.headers[r], k)
  }

  /** The header a consumer looks through knows its claim, and its position is the right one. */
  ghost predicate PathOk(ix: Index, p: Consumer) {
    match p
    case Away => true
    case LoadHeader(i, end) => true
    case LoadTail(i, end, r) => 0 < end && Knows(ix, r, (end - 1) / BLOCK_SIZE)
    case LoadKey(i, end, r, tail, m) =>
      0 < end && Knows(ix, r, m) && (end - 1) / BLOCK_SIZE <= m < ix.high && At(ix, r, tail, m)
    case LoadBlock(i, end, r, pos) => 0 < end && Knows(ix, r, (end - 1) / BLOCK_SIZE) && At(ix, r, pos, i / BLOCK_SIZE)
    case Move(i, start, stop, end, r, pos, b) =>
      0 < end && Knows(ix, r, (end - 1) / BLOCK_SIZE) && At(ix, r, pos, start / BLOCK_SIZE)
    case Clear(i, end, r, pos, b) =>
      0 < end && 0 < i && Knows(ix, r, (end - 1) / BLOCK_SIZE) && At(ix, r, pos, (i - 1) / BLOCK_SIZE)
    case Free(i, end, r, pos, b) =>
      0 < end && 0 < i && Knows(ix, r, (end - 1) / BLOCK_SIZE) && At(ix, r, pos, (i - 1) / BLOCK_SIZE)
  }

  /** What a consumer has claimed, moved out and holds. */
  ghost predicate ClaimOk(s: State, t: nat)
    requires t < |s.pcs|
  {
    match s.pcs[t]
    case Away => true
    case Move(i, start, stop, end, r, pos, b) =>
      && start <= i <= stop && start < stop == Min(end, start / BLOCK_SIZE * BLOCK_SIZE + BLOCK_SIZE)
      && Untouched(s, t, i, end)
      && (forall x :: start <= x < i ==> s.owner[x] == t && x in s.out && x !in s.done)
      && start / BLOCK_SIZE in s.ix.filled && s.ix.filled[start / BLOCK_SIZE] == b
    case Clear(i, end, r, pos, b) =>
      && 0 < i <= end && Untouched(s, t, i, end) && (i < end ==> i % BLOCK_SIZE == 0)
      && b < |s.place| && s.place[b] == Clearing((i - 1) / BLOCK_SIZE, t)
    case Free(i, end, r, pos, b) =>
      && 0 < i <= end && Untouched(s, t, i, end) && (i < end ==> i % BLOCK_SIZE == 0)
      && b < |s.place| && s.place[b] == Held(t)
    case _ => s.pcs[t].i < s.pcs[t].end && Untouched(s, t, s.pcs[t].i, s.pcs[t].end)
  }

  ghost predicate ConsumerInv(s: State, t: nat)
    requires t < |s.pcs|
  {
    ClaimOk(s, t) && PathOk(s.ix, s.pcs[t])
  }

  ghost predicate Sizes(s: State) {
    && |s.place| == |s.mem| && |s.items| == s.tail && |s.owner| == s.head <= s.tail
    && (forall b :: b in s.pool ==> b < |s.mem|)
    && (forall x :: x in s.out ==> x < s.head)
    && (forall x :: x in s.done ==> x < s.head)
  }

  ghost predicate Inv(s: State) {
    && BlockIndex.Inv(s.ix)
    && Sizes(s)
    && ProducerInv(s)
    && (forall b :: 0 <= b < |s.mem| ==> PlaceInv(s, b))
    && (forall k :: k in s.ix.filled ==> BlockInv(s, k))
    && (forall x :: 0 <= x < s.tail ==> IndexInv(s, x))
    && (forall t :: 0 <= t < |s.pcs| ==> ConsumerInv(s, t))
  }
}
