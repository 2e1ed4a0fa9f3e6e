/** What holds of the sub-queue in every interleaving. */
module SubQueueRuns {
  import opened Basics
  import opened BlockIndex
  import opened SubQueue
  import opened SubQueueProducer
  import opened SubQueueConsumers

  // ---- Runs -------------------------------------------------------------------------------

  /** The constructor's block index: one header over as many unused entries, nothing inserted. */
  ghost predicate InitialIndex(ix: Index) {
    && |ix.entries| == IMPLICIT_INITIAL_INDEX_SIZE
    && (forall e :: 0 <= e < |ix.entries| ==> ix.entries[e].key == INVALID_BLOCK_BASE)
    && ix.headers == [Header(IMPLICIT_INITIAL_INDEX_SIZE, IMPLICIT_INITIAL_INDEX_SIZE - 1,
                             seq(IMPLICIT_INITIAL_INDEX_SIZE, i => i), 0, 0)]
    && ix.nextCapacity == 2 * IMPLICIT_INITIAL_INDEX_SIZE
    && ix.count == ix.high == 0 && ix.filled == map[] && ix.open == -1
  }

  /** The pool may start with any number of raw blocks. */
  ghost predicate Init(s: State) {
    && InitialIndex(s.ix)
    && |s.place| == |s.mem|
    && (forall b :: 0 <= b < |s.mem| ==> Clean(s.mem[b]) && s.place[b] == InPool && s.pool[b] == 1)
    && (forall b :: b in s.pool ==> b < |s.mem|)
    && s.tail == s.head == 0 && s.tailBlock == Null && s.prod == Rest
    && (forall t :: 0 <= t < |s.pcs| ==> s.pcs[t] == Away)
    && s.items == [] && s.owner == [] && s.out == map[] && s.done == {}
  }

  ghost predicate ProducerMoves(s: State, s': State, c: Choice) {
    ProducerEnabled(s, c) && s' == ProducerStep(s, c)
  }

  ghost predicate ConsumerMoves(s: State, s': State, t: nat, c: Choice) {
    ConsumerEnabled(s, t, c) && s' == ConsumerStep(s, t, c)
  }

  ghost predicate OthersMove(s: State, s': State, o: Other) {
    OtherEnabled(s, o) && s' == OtherStep(s, o)
  }

  ghost predicate Next(s: State, s': State) {
    || (exists c: Choice :: ProducerMoves(s, s', c))
    || (exists t: nat, c: Choice :: ConsumerMoves(s, s', t, c))
    || (exists o: Other :: OthersMove(s, s', o))
  }

  ghost predicate StepAt(r: seq<State>, i: nat)
    requires 0 < i < |r|
  {
    Next(r[i - 1], r[i])
  }

  ghost predicate Run(r: seq<State>) {
    && r != [] && Init(r[0])
    && forall i :: 0 < i < |r| ==> StepAt(r, i)
  }

  lemma InitialIndexInv(ix: Index)
    requires InitialIndex(ix)
    ensures BlockIndex.Inv(ix)
  {
    assert ShapedHeader(ix, 0) by { assert Pow2(0) == 1; }
    assert Pow2(1) == 2 * Pow2(0);
    forall k | 0 <= k < IMPLICIT_INITIAL_INDEX_SIZE ensures FreshOk(ix, k) { }
  }

  lemma InitInv(s: State)
    requires Init(s)
    ensures SubQueue.Inv(s)
  {
    InitialIndexInv(s.ix);
    forall b | 0 <= b < |s.mem| ensures PlaceInv(s, b) { }
  }

  lemma StepKeepsInv(s: State, s': State)
    requires SubQueue.Inv(s) && Next(s, s')
    ensures SubQueue.Inv(s')
  {
    if exists c: Choice :: ProducerMoves(s, s', c) {
      var c: Choice :| ProducerMoves(s, s', c);
      ProducerStepKeepsInv(s, c);
    } else if exists t: nat, c: Choice :: ConsumerMoves(s, s', t, c) {
      var t: nat, c: Choice :| ConsumerMoves(s, s', t, c);
      ConsumerStepKeepsInv(s, t, c);
    } else {
      var o: Other :| OthersMove(s, s', o);
      OtherStepKeepsInv(s, o);
    }
  }

  /** The invariant holds in every state of every interleaving. */
  lemma {:induction false} RunInv(r: seq<State>, i: nat)
    requires Run(r) && i < |r|
    ensures SubQueue.Inv(r[i])
  {
    if i == 0 {
      InitInv(r[0]);
    } else {
      RunInv(r, i - 1);
      StepAtKeepsInv(r, i);
    }
  }

  lemma StepAtKeepsInv(r: seq<State>, i: nat)
    requires 0 < i < |r| && StepAt(r, i) && SubQueue.Inv(r[i - 1])
    ensures SubQueue.Inv(r[i])
  {
    StepKeepsInv(r[i - 1], r[i]);
  }

  // ---- First in, first out ------------------------------------------------------------------

  /** The abstract queue: what has been published and not claimed. */
  ghost function Queue(s: State): seq<Item>
    requires s.head <= s.tail == |s.items|
  {
    s.items[s.head..]
  }

  /** A step of the abstract FIFO queue: nothing, a whole batch appended, or some taken off
      the front. */
  ghost predicate QueueStep(q: seq<Item>, q': seq<Item>, batch: seq<Item>) {
    q' == q || q' == q + batch || exists n: nat :: 0 < n <= |q| && q' == q[n..]
  }

  lemma ProducerRefinesQueue(s: State, c: Choice)
    requires ProducerEnabled(s, c) && Sizes(s)
    ensures var s' := ProducerStep(s, c);
      && s'.head == s.head <= s'.tail == |s'.items|
      && (Queue(s') == Queue(s) || (s.prod.Construct? && s'.prod == Rest && Queue(s') == Queue(s) + s.prod.xs))
  {
  }

  lemma ConsumerRefinesQueue(s: State, t: nat, c: Choice)
    requires ConsumerEnabled(s, t, c) && Sizes(s)
    ensures var s' := ConsumerStep(s, t, c);
      && s'.head <= s'.tail == |s'.items| && s'.tail == s.tail
      && Queue(s') == if s.pcs[t].Away? then Queue(s)[c.count..] else Queue(s)
  {
  }

  /** Other producers touch nothing of this queue but blocks that are not its own. */
  lemma OthersFrame(s: State, o: Other)
    requires OtherEnabled(s, o)
    ensures var s' := OtherStep(s, o);
      && s' == s.(mem := s'.mem, pool := s'.pool, place := s'.place)
      && |s.place| <= |s'.place| == |s'.mem|
      && forall b :: 0 <= b < |s'.place| && s'.place[b] == WithProducer ==> b < |s.place| && s.place[b] == WithProducer
  {
  }

  /** The sub-queue is a FIFO queue: publishing appends a whole batch, claiming takes from the
      front, and no other step of anyone changes what is queued. */
  lemma StepRefinesQueue(s: State, s': State)
    requires Sizes(s) && Next(s, s')
    ensures s'.head <= s'.tail == |s'.items|
    ensures QueueStep(Queue(s), Queue(s'), if s.prod.Construct? then s.prod.xs else [])
  {
    if exists c: Choice :: ProducerMoves(s, s', c) {
      var c: Choice :| ProducerMoves(s, s', c);
      ProducerRefinesQueue(s, c);
    } else if exists t: nat, c: Choice :: ConsumerMoves(s, s', t, c) {
      var t: nat, c: Choice :| ConsumerMoves(s, s', t, c);
      ConsumerRefinesQueue(s, t, c);
    } else {
      var o: Other :| OthersMove(s, s', o);
      OthersFrame(s, o);
    }
  }

  /** Whatever is delivered for an index, in whatever order the consumers run, is the element
      that was enqueued at that index, and nothing is delivered before it is published. */
  lemma DeliversWhatWasEnqueued(r: seq<State>, i: nat, x: nat)
    requires Run(r) && i < |r| && x in r[i].out
    ensures x < r[i].head <= r[i].tail == |r[i].items| && r[i].out[x] == r[i].items[x]
  {
    RunInv(r, i);
    assert IndexInv(r[i], x);
  }

  /** Thread `t` is about to move an element out. */
  ghost predicate Delivering(s: State, t: nat) {
    t < |s.pcs| && s.pcs[t].Move? && s.pcs[t].i < s.pcs[t].stop
  }

  /** What each consumer step delivers: a thread that moves an element out delivers an index that
      nobody delivered before and that it has claimed itself; no other step delivers anything. */
  lemma StepDelivers(s: State, s': State, t: nat, c: Choice)
    requires SubQueue.Inv(s) && ConsumerMoves(s, s', t, c)
    ensures if Delivering(s, t) then
              var x := s.pcs[t].i;
              && x !in s.out && x < s.head == |s.owner| && s.owner[x] == t
              && x < |s.items| && s'.out == s.out[x := s.items[x]]
            else s'.out == s.out
  {
    if Delivering(s, t) {
      assert ConsumerInv(s, t);
      MovedItem(s, t);
    }
  }

  lemma StepKeepsDelivered(s: State, s': State, x: nat)
    requires SubQueue.Inv(s) && Next(s, s') && x in s.out
    ensures x in s'.out && s'.out[x] == s.out[x]
  {
    if exists c: Choice :: ProducerMoves(s, s', c) {
      var c: Choice :| ProducerMoves(s, s', c);
      ProducerDeliversNothing(s, c);
    } else if exists t: nat, c: Choice :: ConsumerMoves(s, s', t, c) {
      var t: nat, c: Choice :| ConsumerMoves(s, s', t, c);
      StepDelivers(s, s', t, c);
    } else {
      var o: Other :| OthersMove(s, s', o);
      OthersFrame(s, o);
    }
  }

  lemma ProducerDeliversNothing(s: State, c: Choice)
    requires ProducerEnabled(s, c)
    ensures ProducerStep(s, c).out == s.out
  {
  }

  lemma {:induction false} DeliveredStays(r: seq<State>, i: nat, j: nat, x: nat)
    requires Run(r) && i <= j < |r| && x in r[i].out
    ensures x in r[j].out && r[j].out[x] == r[i].out[x]
    decreases j
  {
    if i < j {
      DeliveredStays(r, i, j - 1, x);
      DeliveredStaysAt(r, j, x);
    }
  }

  lemma DeliveredStaysAt(r: seq<State>, i: nat, x: nat)
    requires Run(r) && 0 < i < |r| && x in r[i - 1].out
    ensures x in r[i].out && r[i].out[x] == r[i - 1].out[x]
  {
    RunInv(r, i - 1);
    assert StepAt(r, i);
    StepKeepsDelivered(r[i - 1], r[i], x);
  }

  ghost predicate MovesConsumer(s: State, s': State, t: nat) {
    exists c: Choice :: ConsumerMoves(s, s', t, c)
  }

  /** The step from `r[i]` to the next state moves out the element of index `x`. */
  ghost predicate DeliveryAt(r: seq<State>, i: nat, t: nat, x: nat) {
    i + 1 < |r| && Delivering(r[i], t) && r[i].pcs[t].i == x && MovesConsumer(r[i], r[i + 1], t)
  }

  /** Every index is delivered at most once in a run, by the consumer that claimed it, and the
      delivery is of the element enqueued there. */
  lemma DeliveredOnce(r: seq<State>, i: nat, t: nat, x: nat)
    requires Run(r) && DeliveryAt(r, i, t, x)
    ensures x !in r[i].out && x < |r[i].owner| && r[i].owner[x] == t
    ensures x < |r[i].items| && r[i + 1].out == r[i].out[x := r[i].items[x]]
    ensures forall j: nat, u: nat :: DeliveryAt(r, j, u, x) ==> j == i && u == t
  {
    DeliveryFresh(r, i, t, x);
    forall j: nat, u: nat | DeliveryAt(r, j, u, x) ensures j == i && u == t {
      DeliveryFresh(r, j, u, x);
      if i < j { DeliveredStays(r, i + 1, j, x); }
      if j < i { DeliveredStays(r, j + 1, i, x); }
    }
  }

  lemma DeliveryFresh(r: seq<State>, i: nat, t: nat, x: nat)
    requires Run(r) && DeliveryAt(r, i, t, x)
    ensures x !in r[i].out && x in r[i + 1].out && x < |r[i].owner| && r[i].owner[x] == t
    ensures x < |r[i].items| && r[i + 1].out == r[i].out[x := r[i].items[x]]
  {
    RunInv(r, i);
    var c: Choice :| ConsumerMoves(r[i], r[i + 1], t, c);
    StepDelivers(r[i], r[i + 1], t, c);
  }

  // ---- No consumer ever goes astray ---------------------------------------------------------

  /** A consumer that holds a claim can always go on: the entry it looks up is never empty and
      the cell it reads is never raw. */
  lemma ConsumersNeverStuck(r: seq<State>, i: nat, t: nat)
    requires Run(r) && i < |r| && t < |r[i].pcs| && !r[i].pcs[t].Away?
    ensures ConsumerEnabled(r[i], t, Go)
  {
    RunInv(r, i);
    ConsumerGoesOn(r[i], t);
  }

  lemma ConsumerGoesOn(s: State, t: nat)
    requires SubQueue.Inv(s) && t < |s.pcs| && !s.pcs[t].Away?
    ensures ConsumerEnabled(s, t, Go)
  {
    assert ConsumerInv(s, t);
    match s.pcs[t] {
      case LoadKey(_, _, _, _, _) => LookupLands(s, t);
      case LoadBlock(_, _, _, _) => FoundBlock(s, t);
      case Move(j, _, stop, _, _, _, _) =>
        ChunkFacts(s, t);
        if j < stop { MovedItem(s, t); }
      case Clear(_, _, _, _, _) => ClearFacts(s, t);
      case _ =>
    }
  }

  /** Through whichever header it looks, past or present, a consumer resolves its claimed index
      to the block that holds the element enqueued at that index. */
  lemma LookupIsRight(r: seq<State>, i: nat, t: nat)
    requires Run(r) && i < |r| && t < |r[i].pcs| && r[i].pcs[t].LoadBlock?
    ensures var s := r[i]; var p := s.pcs[t];
      && p.i < |s.items|
      && Shaped(s.ix) && p.r < |s.ix.headers| && p.pos < s.ix.headers[p.r].capacity
      && EntryAt(s, p.r, p.pos).key == p.i / BLOCK_SIZE * BLOCK_SIZE
      && EntryAt(s, p.r, p.pos).value.To?
      && var b := EntryAt(s, p.r, p.pos).value.block;
      && b < |s.mem| && |s.mem[b].cells| == BLOCK_SIZE
      && s.mem[b].cells[p.i % BLOCK_SIZE] == Holds(s.items[p.i])
  {
    RunInv(r, i);
    FoundBlockHolds(r[i], t);
  }

  lemma FoundBlockHolds(s: State, t: nat)
    requires SubQueue.Inv(s) && t < |s.pcs| && s.pcs[t].LoadBlock?
    ensures var p := s.pcs[t];
      && p.i < |s.items|
      && Shaped(s.ix) && p.r < |s.ix.headers| && p.pos < s.ix.headers[p.r].capacity
      && EntryAt(s, p.r, p.pos).key == p.i / BLOCK_SIZE * BLOCK_SIZE
      && EntryAt(s, p.r, p.pos).value.To?
      && var b := EntryAt(s, p.r, p.pos).value.block;
      && b < |s.mem| && |s.mem[b].cells| == BLOCK_SIZE
      && s.mem[b].cells[p.i % BLOCK_SIZE] == Holds(s.items[p.i])
  {
    var p := s.pcs[t];
    var k := p.i / BLOCK_SIZE;
    FoundBlock(s, t);
    assert p.i < s.head && p.i !in s.out && EntryAt(s, p.r, p.pos).key == BLOCK_SIZE * k by {
      assert ConsumerInv(s, t);
      ClaimedBlock(s, p.i, p.r);
      assert KeyOk(s.ix, k);
    }
    CellHolds(s, p.i);
  }

  /** The cell of an index that is published and not delivered holds its element. */
  lemma CellHolds(s: State, x: nat)
    requires Sizes(s) && x < s.head && x !in s.out
    requires x / BLOCK_SIZE in s.ix.filled && BlockInv(s, x / BLOCK_SIZE)
    ensures s.mem[s.ix.filled[x / BLOCK_SIZE]].cells[x % BLOCK_SIZE] == Holds(s.items[x])
  {
    var k := x / BLOCK_SIZE;
    assert s.mem[s.ix.filled[k]].cells[x % BLOCK_SIZE] == Expected(s, BLOCK_SIZE * k + x % BLOCK_SIZE);
  }

  // ---- Blocks come and go once --------------------------------------------------------------

  /** No block is ever in the pool twice, and what is in the pool holds nothing. */
  lemma PoolIsASet(r: seq<State>, i: nat, b: Block)
    requires Run(r) && i < |r| && b in r[i].pool
    ensures r[i].pool[b] == 1 && b < |r[i].mem| && Clean(r[i].mem[b])
    ensures forall k :: k in r[i].ix.filled ==> r[i].ix.filled[k] != b
  {
    var s := r[i];
    RunInv(r, i);
    assert PlaceInv(s, b);
    forall k | k in s.ix.filled ensures s.ix.filled[k] != b { assert BlockInv(s, k); }
  }

  /** When a consumer gives a block back, it was not in the pool, it holds nothing any more,
      and no index is served by it. */
  lemma ReturnedOnce(r: seq<State>, i: nat, t: nat)
    requires Run(r) && i < |r| && t < |r[i].pcs| && r[i].pcs[t].Free?
    ensures var s := r[i]; var b := s.pcs[t].block;
      && b < |s.mem| && s.pool[b] == 0 && Clean(s.mem[b])
      && (forall k :: k in s.ix.filled ==> s.ix.filled[k] != b)
      && (forall u :: 0 <= u < |s.pcs| && u != t && (s.pcs[u].Free? || s.pcs[u].Clear?) ==> s.pcs[u].block != b)
  {
    var s := r[i];
    RunInv(r, i);
    assert ConsumerInv(s, t);
    var b := s.pcs[t].block;
    assert PlaceInv(s, b);
    forall k | k in s.ix.filled ensures s.ix.filled[k] != b { assert BlockInv(s, k); }
    forall u | 0 <= u < |s.pcs| && u != t && (s.pcs[u].Free? || s.pcs[u].Clear?) ensures s.pcs[u].block != b {
      assert ConsumerInv(s, u);
    }
  }

  /** A consumer only clears a block whose every slot was filled and emptied. */
  lemma ClearedWhenEmptied(r: seq<State>, i: nat, t: nat)
    requires Run(r) && i < |r| && t < |r[i].pcs| && r[i].pcs[t].Clear?
    ensures var s := r[i]; s.pcs[t].i > 0 && var k := (s.pcs[t].i - 1) / BLOCK_SIZE;
      && k in s.ix.filled && s.ix.filled[k] == s.pcs[t].block
      && BLOCK_SIZE * k + BLOCK_SIZE <= s.tail
      && (forall x :: BLOCK_SIZE * k <= x < BLOCK_SIZE * k + BLOCK_SIZE ==> x in s.out && x in s.done)
  {
    var s := r[i];
    RunInv(r, i);
    ClearFacts(s, t);
    var k := (s.pcs[t].i - 1) / BLOCK_SIZE;
    forall x | BLOCK_SIZE * k <= x < BLOCK_SIZE * k + BLOCK_SIZE ensures x in s.out { assert IndexInv(s, x); }
  }

  /** The producer only ever writes into raw cells of a block that serves the index it writes:
      never into one that was given up. */
  lemma ProducerWritesItsOwn(r: seq<State>, i: nat)
    requires Run(r) && i < |r| && r[i].prod.Construct? && r[i].prod.j < |r[i].prod.xs|
    ensures var s := r[i]; var x := s.tail + s.prod.j; var target := Target(s, s.prod.chain, s.prod.j);
      && target.To? && target.block < |s.mem| == |s.place| && s.pool[target.block] == 0
      && s.place[target.block] == Serving(x / BLOCK_SIZE)
      && |s.mem[target.block].cells| == BLOCK_SIZE && s.mem[target.block].cells[x % BLOCK_SIZE] == Raw
  {
    var s := r[i];
    RunInv(r, i);
    TargetServes(s);
    var x := s.tail + s.prod.j;
    var k := x / BLOCK_SIZE;
    assert BlockInv(s, k);
    UnfinishedServes(s, x);
    assert PlaceInv(s, s.ix.filled[k]);
    assert s.mem[s.ix.filled[k]].cells[x % BLOCK_SIZE] == Expected(s, BLOCK_SIZE * k + x % BLOCK_SIZE);
  }

  // ---- All or nothing -----------------------------------------------------------------------

  ghost predicate InChain(chain: seq<Block>, lo: nat, hi: nat, b: Block) {
    exists j :: lo <= j < hi && j < |chain| && chain[j] == b
  }

  /** The blocks an operation in progress has in its hands, outside the index. */
  ghost predicate Holding(p: Producer, b: Block) {
    || ((p.ResetEmpty? || p.StoreBlock?) && p.block == b)
    || InChain(ChainOf(p), FirstHeld(p), FirstServing(p), b)
  }

  /** The producer has no block but those of its operation in progress. */
  ghost predicate NoStray(s: State) {
    |s.place| == |s.mem| && forall b :: 0 <= b < |s.place| && s.place[b] == WithProducer ==> Holding(s.prod, b)
  }

  lemma InChainAt(chain: seq<Block>, lo: nat, hi: nat, j: nat)
    requires lo <= j < hi && j < |chain|
    ensures InChain(chain, lo, hi, chain[j])
  {
  }

  lemma InChainShrinks(chain: seq<Block>, lo: nat, hi: nat, b: Block)
    requires InChain(chain, lo, hi, b) && lo < |chain| && chain[lo] != b
    ensures InChain(chain, lo + 1, hi, b)
  {
  }

  lemma UndoKeepsHold(s: State, c: Choice, b: Block)
    requires ProducerEnabled(s, c) && NoStray(s) && (s.prod.UndoValue? || s.prod.UndoTail? || s.prod.ReturnBlocks?)
    requires b < |ProducerStep(s, c).place| && ProducerStep(s, c).place[b] == WithProducer
    ensures Holding(ProducerStep(s, c).prod, b)
  {
    if s.place[b] == WithProducer { assert Holding(s.prod, b); }
    match s.prod {
      case UndoValue(chain, j) => if j < |chain| { InChainAt(chain, 0, j + 1, j); }
      case ReturnBlocks(chain, j) => if j < |chain| && chain[j] != b { InChainShrinks(chain, j, |chain|, b); }
      case _ =>
    }
  }

  lemma AllocationKeepsHold(s: State, c: Choice, b: Block)
    requires ProducerEnabled(s, c) && NoStray(s) && (s.prod.Requisition? || s.prod.ResetEmpty? || s.prod.StoreBlock?)
    requires b < |ProducerStep(s, c).place| && ProducerStep(s, c).place[b] == WithProducer
    ensures Holding(ProducerStep(s, c).prod, b)
  {
    if b < |s.place| && s.place[b] == WithProducer { assert Holding(s.prod, b); }
  }

  lemma OtherStepsKeepPlaces(s: State, c: Choice)
    requires ProducerEnabled(s, c)
    requires !s.prod.Requisition? && !s.prod.ResetEmpty? && !s.prod.StoreBlock?
    requires !s.prod.UndoValue? && !s.prod.UndoTail? && !s.prod.ReturnBlocks?
    ensures ProducerStep(s, c).place == s.place && FirstServing(s.prod) == 0
  {
  }

  lemma ProducerKeepsHold(s: State, c: Choice, b: Block)
    requires ProducerEnabled(s, c) && NoStray(s)
    requires b < |ProducerStep(s, c).place| && ProducerStep(s, c).place[b] == WithProducer
    ensures Holding(ProducerStep(s, c).prod, b)
  {
    if b < |s.place| && s.place[b] == WithProducer { assert Holding(s.prod, b); }
    match s.prod {
      case UndoValue(_, _) => UndoKeepsHold(s, c, b);
      case UndoTail(_, _) => UndoKeepsHold(s, c, b);
      case ReturnBlocks(_, _) => UndoKeepsHold(s, c, b);
      case Requisition(_, _) => AllocationKeepsHold(s, c, b);
      case ResetEmpty(_, _, _) => AllocationKeepsHold(s, c, b);
      case StoreBlock(_, _, _) => AllocationKeepsHold(s, c, b);
      case _ =>
        OtherStepsKeepPlaces(s, c);
    }
  }

  lemma StepKeepsNoStray(s: State, s': State)
    requires NoStray(s) && Next(s, s')
    ensures NoStray(s')
  {
    if exists c: Choice :: ProducerMoves(s, s', c) {
      var c: Choice :| ProducerMoves(s, s', c);
      ProducerKeepsNoStray(s, s', c);
    } else if exists t: nat, c: Choice :: ConsumerMoves(s, s', t, c) {
      var t: nat, c: Choice :| ConsumerMoves(s, s', t, c);
      ConsumerKeepsNoStray(s, s', t, c);
    } else {
      var o: Other :| OthersMove(s, s', o);
      OthersFrame(s, o);
    }
  }

  lemma ProducerKeepsNoStray(s: State, s': State, c: Choice)
    requires NoStray(s) && ProducerMoves(s, s', c)
    ensures NoStray(s')
  {
    forall b | 0 <= b < |s'.place| && s'.place[b] == WithProducer ensures Holding(s'.prod, b) {
      ProducerKeepsHold(s, c, b);
    }
  }

  lemma ConsumerKeepsNoStray(s: State, s': State, t: nat, c: Choice)
    requires NoStray(s) && ConsumerMoves(s, s', t, c)
    ensures NoStray(s')
  {
    ConsumerKeepsPlaces(s, t, c);
  }

  /** Consumers give nothing to the producer and leave its program counter alone. */
  lemma ConsumerKeepsPlaces(s: State, t: nat, c: Choice)
    requires ConsumerEnabled(s, t, c)
    ensures var s' := ConsumerStep(s, t, c);
      && s'.prod == s.prod && |s'.place| == |s.place| == |s'.mem| == |s.mem|
      && s'.tail == s.tail && s'.items == s.items
      && forall b :: 0 <= b < |s.place| && s'.place[b] == WithProducer ==> s.place[b] == WithProducer
  {
  }

  lemma {:induction false} RunNoStray(r: seq<State>, i: nat)
    requires Run(r) && i < |r|
    ensures NoStray(r[i])
  {
    if i > 0 {
      RunNoStray(r, i - 1);
      NoStrayAt(r, i);
    }
  }

  lemma NoStrayAt(r: seq<State>, i: nat)
    requires Run(r) && 0 < i < |r| && NoStray(r[i - 1])
    ensures NoStray(r[i])
  {
    assert StepAt(r, i);
    StepKeepsNoStray(r[i - 1], r[i]);
  }

  /** The elements an operation in progress is enqueueing, while it still might. */
  ghost predicate Enqueues(p: Producer, xs: seq<Item>) {
    match p
    case Rest => false
    case Allocate(ys, _) => ys == xs
    case TestEntry(ys, _) => ys == xs
    case GrowIndex(ys, _) => ys == xs
    case StoreKey(ys, _) => ys == xs
    case StoreTail(ys, _) => ys == xs
    case Requisition(ys, _) => ys == xs
    case ResetEmpty(ys, _, _) => ys == xs
    case StoreBlock(ys, _, _) => ys == xs
    case Construct(ys, _, _) => ys == xs
    case _ => true
  }

  /** The last step of a successful operation appends its elements; no other changes anything. */
  ghost predicate OnTask(s: State, s': State, xs: seq<Item>) {
    if s'.prod.Rest? && s.prod.Construct? then s'.tail == s.tail + |xs| && s'.items == s.items + xs
    else s'.tail == s.tail && s'.items == s.items && (s'.prod.Rest? || Enqueues(s'.prod, xs))
  }

  lemma ConstructStaysOnTask(s: State, c: Choice, xs: seq<Item>)
    requires ProducerEnabled(s, c) && Enqueues(s.prod, xs) && s.prod.Construct?
    ensures var s' := ProducerStep(s, c);
      if s'.prod.Rest? then s'.tail == s.tail + |xs| && s'.items == s.items + xs
      else s'.tail == s.tail && s'.items == s.items && Enqueues(s'.prod, xs)
  {
  }

  lemma ProducerStaysOnTask(s: State, c: Choice, xs: seq<Item>)
    requires ProducerEnabled(s, c) && Enqueues(s.prod, xs) && !s.prod.Construct?
    ensures var s' := ProducerStep(s, c);
      s'.tail == s.tail && s'.items == s.items && (s'.prod.Rest? || Enqueues(s'.prod, xs))
  {
  }

  /** The producer calls `enqueue` or `enqueue_bulk` with the elements `xs`. */
  ghost predicate Calls(s: State, s': State, xs: seq<Item>) {
    s.prod == Rest && ProducerMoves(s, s', Enqueue(xs))
  }

  /** From the call with the elements `xs` at `i` until it returns at `j`. */
  ghost predicate Operation(r: seq<State>, i: nat, j: nat, xs: seq<Item>) {
    && i + 1 < j < |r|
    && Calls(r[i], r[i + 1], xs) && r[j].prod == Rest
    && forall m :: i < m < j ==> r[m].prod != Rest
  }

  lemma CallEnters(s: State, s': State, xs: seq<Item>)
    requires Calls(s, s', xs)
    ensures s'.prod == Allocate(xs, []) && s'.tail == s.tail && s'.items == s.items && s'.ix == s.ix
  {
  }

  lemma {:induction false} NothingPublishedYet(r: seq<State>, i: nat, j: nat, xs: seq<Item>, m: nat)
    requires Run(r) && Operation(r, i, j, xs) && i < m < j
    ensures r[m].tail == r[i].tail && r[m].items == r[i].items && Enqueues(r[m].prod, xs)
  {
    if m == i + 1 {
      CallEnters(r[i], r[m], xs);
    } else {
      NothingPublishedYet(r, i, j, xs, m - 1);
      OnTaskAt(r, m, xs);
    }
  }

  lemma OnTaskAt(r: seq<State>, i: nat, xs: seq<Item>)
    requires Run(r) && 0 < i < |r| && Enqueues(r[i - 1].prod, xs)
    ensures OnTask(r[i - 1], r[i], xs)
  {
    assert StepAt(r, i);
    OneStepOnTask(r[i - 1], r[i], xs);
  }

  lemma OneStepOnTask(s: State, s': State, xs: seq<Item>)
    requires Next(s, s') && Enqueues(s.prod, xs)
    ensures OnTask(s, s', xs)
  {
    if exists c: Choice :: ProducerMoves(s, s', c) {
      var c: Choice :| ProducerMoves(s, s', c);
      if s.prod.Construct? { ConstructStaysOnTask(s, c, xs); } else { ProducerStaysOnTask(s, c, xs); }
    } else if exists t: nat, c: Choice :: ConsumerMoves(s, s', t, c) {
      var t: nat, c: Choice :| ConsumerMoves(s, s', t, c);
      ConsumerKeepsPlaces(s, t, c);
    } else {
      var o: Other :| OthersMove(s, s', o);
      OthersFrame(s, o);
    }
  }

  /** Between operations the index counts exactly the blocks of the published elements, holds
      no entry beyond them, and the producer has no block in its hands. */
  lemma AtRest(r: seq<State>, i: nat)
    requires Run(r) && i < |r| && r[i].prod == Rest
    ensures var s := r[i];
      && s.ix.count == Blocks(s.tail)
      && (forall k :: k in s.ix.filled ==> k < Blocks(s.tail))
      && (forall b :: 0 <= b < |s.place| ==> s.place[b] != WithProducer)
      && |s.items| == s.tail
  {
    RunInv(r, i);
    RunNoStray(r, i);
  }

  /** An enqueue, single or in bulk, is all or nothing, whatever the consumers do meanwhile.
      It either appends exactly its elements, having requisitioned one block per block boundary
      it crossed, or leaves contents, tail and index tail as they were. Either way, when it
      returns, no block is left in its hands and none is in the index that serves no element. */
  lemma EnqueueIsAllOrNothing(r: seq<State>, i: nat, j: nat, xs: seq<Item>)
    requires Run(r) && Operation(r, i, j, xs)
    ensures if r[j - 1].prod.Construct? then
              && r[j].tail == r[i].tail + |xs| && r[j].items == r[i].items + xs
              && |r[j - 1].prod.chain| == Blocks(r[i].tail + |xs|) - Blocks(r[i].tail)
            else
              && r[j].tail == r[i].tail && r[j].items == r[i].items && r[j].ix.count == r[i].ix.count
    ensures r[j].ix.count == Blocks(r[j].tail)
    ensures forall k :: k in r[j].ix.filled ==> k < Blocks(r[j].tail)
    ensures forall b :: 0 <= b < |r[j].place| ==> r[j].place[b] != WithProducer
  {
    LastStep(r, i, j, xs);
    AtRest(r, i);
    AtRest(r, j);
    if r[j - 1].prod.Construct? {
      assert ProducerInv(r[j - 1]) by { RunInv(r, j - 1); }
    }
  }

  lemma LastStep(r: seq<State>, i: nat, j: nat, xs: seq<Item>)
    requires Run(r) && Operation(r, i, j, xs)
    ensures r[j - 1].tail == r[i].tail && Enqueues(r[j - 1].prod, xs)
    ensures if r[j - 1].prod.Construct? then r[j].tail == r[i].tail + |xs| && r[j].items == r[i].items + xs
            else r[j].tail == r[i].tail && r[j].items == r[i].items
  {
    NothingPublishedYet(r, i, j, xs, j - 1);
    OnTaskAt(r, j, xs);
  }

  // ---- When an operation fails ----------------------------------------------------------------

  /** Taking back what an operation has done so far. */
  ghost predicate Undoing(p: Producer) {
    p.Rewind? || p.Forget? || p.UndoValue? || p.UndoTail? || p.ReturnBlocks?
  }

  /** The producer asks for a larger index or a block and gets none. */
  ghost predicate Refused(s: State, s': State) {
    (s.prod.GrowIndex? || s.prod.Requisition?) && ProducerMoves(s, s', Fail)
  }

  /** The step from `r[n]` is an allocation that fails. */
  ghost predicate AllocationFails(r: seq<State>, n: nat) {
    n + 1 < |r| && Refused(r[n], r[n + 1])
  }

  lemma RefusedUndoes(s: State, s': State)
    requires Refused(s, s')
    ensures Undoing(s'.prod)
  {
  }

  /** How the producer gets into undoing, and out of it. */
  ghost predicate UndoesAfterFailure(s: State, s': State) {
    && (Undoing(s'.prod) ==> Undoing(s.prod) || Refused(s, s'))
    && (Undoing(s.prod) ==> Undoing(s'.prod) || s'.prod.Rest?)
    && (s'.prod.Rest? ==> s.prod.Rest? || s.prod.Construct? || s.prod.ReturnBlocks?)
  }

  lemma ProducerUndoes(s: State, c: Choice)
    requires ProducerEnabled(s, c) && (s.prod.Allocate? ==> s.head < BLOCK_SIZE * s.ix.count + BLOCK_SIZE)
    ensures UndoesAfterFailure(s, ProducerStep(s, c))
  {
  }

  lemma StepUndoes(s: State, s': State)
    requires SubQueue.Inv(s) && Next(s, s')
    ensures UndoesAfterFailure(s, s')
  {
    if exists c: Choice :: ProducerMoves(s, s', c) {
      var c: Choice :| ProducerMoves(s, s', c);
      if s.prod.Allocate? { NeverFull(s); }
      ProducerUndoes(s, c);
    } else if exists t: nat, c: Choice :: ConsumerMoves(s, s', t, c) {
      var t: nat, c: Choice :| ConsumerMoves(s, s', t, c);
      ConsumerKeepsPlaces(s, t, c);
    } else {
      var o: Other :| OthersMove(s, s', o);
      OthersFrame(s, o);
    }
  }

  lemma UndoesAt(r: seq<State>, i: nat)
    requires Run(r) && 0 < i < |r|
    ensures UndoesAfterFailure(r[i - 1], r[i])
  {
    RunInv(r, i - 1);
    assert StepAt(r, i);
    StepUndoes(r[i - 1], r[i]);
  }

  lemma {:induction false} FindFailure(r: seq<State>, i: nat, m: nat) returns (n: nat)
    requires Run(r) && i < m < |r| && !Undoing(r[i].prod) && Undoing(r[m].prod)
    ensures i <= n < m && AllocationFails(r, n)
    decreases m
  {
    UndoesAt(r, m);
    n := m - 1;
    if Undoing(r[n].prod) {
      n := FindFailure(r, i, n);
    }
  }

  lemma {:induction false} KeepsUndoing(r: seq<State>, i: nat, j: nat, xs: seq<Item>, n: nat, m: nat)
    requires Run(r) && Operation(r, i, j, xs) && i < n <= m < j && Undoing(r[n].prod)
    ensures Undoing(r[m].prod)
    decreases m
  {
    if n < m {
      KeepsUndoing(r, i, j, xs, n, m - 1);
      UndoesAt(r, m);
    }
  }

  lemma OperationEnds(r: seq<State>, i: nat, j: nat, xs: seq<Item>)
    requires Run(r) && Operation(r, i, j, xs)
    ensures r[j - 1].prod.Construct? || r[j - 1].prod.ReturnBlocks?
  {
    UndoesAt(r, j);
  }

  /** An enqueue fails exactly if one of its own allocations fails: the queue is never full. */
  lemma FailsIffAllocationFails(r: seq<State>, i: nat, j: nat, xs: seq<Item>)
    requires Run(r) && Operation(r, i, j, xs)
    ensures !r[j - 1].prod.Construct? <==> exists n :: i < n < j - 1 && AllocationFails(r, n)
  {
    OperationEnds(r, i, j, xs);
    if !r[j - 1].prod.Construct? {
      CallEnters(r[i], r[i + 1], xs);
      var n := FindFailure(r, i + 1, j - 1);
    }
    if exists n :: i < n < j - 1 && AllocationFails(r, n) {
      var n :| i < n < j - 1 && AllocationFails(r, n);
      RefusedUndoes(r[n], r[n + 1]);
      KeepsUndoing(r, i, j, xs, n + 1, j - 1);
    }
  }

  /** What a call with the elements `xs` does: it appends `xs` if none of its allocations is
      refused, and nothing otherwise. */
  lemma EnqueueOutcome(r: seq<State>, i: nat, j: nat, xs: seq<Item>)
    requires Run(r) && Operation(r, i, j, xs)
    ensures if exists n :: i < n < j - 1 && AllocationFails(r, n)
            then r[j].tail == r[i].tail && r[j].items == r[i].items
            else r[j].tail == r[i].tail + |xs| && r[j].items == r[i].items + xs
  {
    FailsIffAllocationFails(r, i, j, xs);
    LastStep(r, i, j, xs);
  }

  /** While an operation goes on it only ever adds to its chain of blocks. */
  ghost predicate ChainGrows(s: State, s': State) {
    && (s'.prod.Rest? || ChainOf(s.prod) <= ChainOf(s'.prod))
    && (s.prod.ReturnBlocks? && !s'.prod.Rest? ==>
          s'.prod == s.prod || (s.prod.j < |s.prod.chain| && s'.prod == ReturnBlocks(s.prod.chain, s.prod.j + 1)))
    && (s'.prod.ReturnBlocks? ==> s.prod.ReturnBlocks? || s'.prod.j == 0)
  }

  lemma StepGrowsChain(s: State, s': State)
    requires Next(s, s')
    ensures ChainGrows(s, s')
  {
    if exists c: Choice :: ProducerMoves(s, s', c) {
      var c: Choice :| ProducerMoves(s, s', c);
      ProducerGrowsChain(s, c);
    } else if exists t: nat, c: Choice :: ConsumerMoves(s, s', t, c) {
      var t: nat, c: Choice :| ConsumerMoves(s, s', t, c);
      ConsumerKeepsPlaces(s, t, c);
    } else {
      var o: Other :| OthersMove(s, s', o);
      OthersFrame(s, o);
    }
  }

  lemma ProducerGrowsChain(s: State, c: Choice)
    requires ProducerEnabled(s, c)
    ensures ChainGrows(s, ProducerStep(s, c))
  {
  }

  lemma GrowsAt(r: seq<State>, i: nat)
    requires Run(r) && 0 < i < |r|
    ensures ChainGrows(r[i - 1], r[i])
  {
    assert StepAt(r, i);
    StepGrowsChain(r[i - 1], r[i]);
  }

  lemma {:induction false} ChainIsPrefix(r: seq<State>, i: nat, j: nat, xs: seq<Item>, m: nat, n: nat)
    requires Run(r) && Operation(r, i, j, xs) && i < m <= n < j
    ensures ChainOf(r[m].prod) <= ChainOf(r[n].prod)
    ensures r[m].prod.ReturnBlocks? ==> r[n].prod.ReturnBlocks? && r[n].prod.j >= r[m].prod.j
    decreases n
  {
    if m < n {
      ChainIsPrefix(r, i, j, xs, m, n - 1);
      GrowsAt(r, n);
    }
  }

  /** The step from `r[n]` gives block `b` back to the pool, where it was not. */
  ghost predicate ReturnAt(r: seq<State>, n: nat, b: Block) {
    && n + 1 < |r| && r[n].prod.ReturnBlocks? && r[n].prod.j < |r[n].prod.chain| && r[n].prod.chain[r[n].prod.j] == b
    && r[n + 1].prod == ReturnBlocks(r[n].prod.chain, r[n].prod.j + 1)
    && r[n].pool[b] == 0 && r[n + 1].pool == r[n].pool + multiset{b}
    && b < |r[n + 1].place| && r[n + 1].place[b] == InPool
  }

  lemma ReturnGives(s: State, s': State)
    requires Next(s, s') && s.prod.ReturnBlocks? && s'.prod.ReturnBlocks? && s'.prod != s.prod
    requires s.prod.j < |s.prod.chain| ==> HasBlock(s, s.prod.chain[s.prod.j]) && PlaceInv(s, s.prod.chain[s.prod.j])
    ensures s.prod.j < |s.prod.chain| && s'.prod == ReturnBlocks(s.prod.chain, s.prod.j + 1)
    ensures var b := s.prod.chain[s.prod.j];
      s.pool[b] == 0 && s'.pool == s.pool + multiset{b} && b < |s'.place| && s'.place[b] == InPool
  {
    StepGrowsChain(s, s');
    if exists t: nat, c: Choice :: ConsumerMoves(s, s', t, c) {
      var t: nat, c: Choice :| ConsumerMoves(s, s', t, c);
      ConsumerKeepsPlaces(s, t, c);
    } else if exists o: Other :: OthersMove(s, s', o) {
      var o: Other :| OthersMove(s, s', o);
      OthersFrame(s, o);
    }
  }

  lemma ReturnGivesAt(r: seq<State>, i: nat)
    requires Run(r) && 0 < i < |r|
    requires r[i - 1].prod.ReturnBlocks? && r[i].prod.ReturnBlocks? && r[i].prod != r[i - 1].prod
    ensures r[i - 1].prod.j < |r[i - 1].prod.chain| && ReturnAt(r, i - 1, r[i - 1].prod.chain[r[i - 1].prod.j])
  {
    HeldForReturn(r, i - 1);
    assert StepAt(r, i);
    ReturnGives(r[i - 1], r[i]);
  }

  lemma HeldForReturn(r: seq<State>, i: nat)
    requires Run(r) && i < |r| && r[i].prod.ReturnBlocks?
    ensures var p := r[i].prod; p.j < |p.chain| ==> HasBlock(r[i], p.chain[p.j]) && PlaceInv(r[i], p.chain[p.j])
  {
    RunInv(r, i);
    var p := r[i].prod;
    if p.j < |p.chain| { assert HasBlock(r[i], p.chain[p.j]); }
  }

  /** Every position of the chain that the return has passed was returned at some step. */
  lemma {:induction false} FindReturn(r: seq<State>, i: nat, m: nat, x: nat) returns (n: nat)
    requires Run(r) && i < m < |r| && !r[i].prod.ReturnBlocks? && r[m].prod.ReturnBlocks? && x < r[m].prod.j
    ensures i < n < m && r[n].prod.ReturnBlocks? && r[n].prod.chain == r[m].prod.chain && r[n].prod.j == x
    ensures x < |r[n].prod.chain| && ReturnAt(r, n, r[n].prod.chain[x])
    decreases m
  {
    GrowsAt(r, m);
    if r[m - 1].prod.j > x {
      n := FindReturn(r, i, m - 1, x);
    } else {
      n := m - 1;
      ReturnGivesAt(r, m);
    }
  }

  /** Blocks in the pool or elsewhere stay out of this queue while its producer returns others. */
  lemma StaysFree(s: State, s': State, b: Block)
    requires SubQueue.Inv(s) && Next(s, s') && s.prod.ReturnBlocks?
    requires b < |s.place| && (s.place[b].InPool? || s.place[b].Elsewhere?)
    ensures b < |s'.place| && (s'.place[b].InPool? || s'.place[b].Elsewhere?)
  {
    if exists c: Choice :: ProducerMoves(s, s', c) {
      var c: Choice :| ProducerMoves(s, s', c);
      ReturnKeepsFree(s, c, b);
    } else if exists t: nat, c: Choice :: ConsumerMoves(s, s', t, c) {
      var t: nat, c: Choice :| ConsumerMoves(s, s', t, c);
      ConsumerKeepsPlaces(s, t, c);
      ConsumerKeepsFree(s, t, c, b);
    } else {
      var o: Other :| OthersMove(s, s', o);
      OthersKeepFree(s, o, b);
    }
  }

  lemma ReturnKeepsFree(s: State, c: Choice, b: Block)
    requires ProducerEnabled(s, c) && s.prod.ReturnBlocks?
    requires b < |s.place| && (s.place[b].InPool? || s.place[b].Elsewhere?)
    ensures var s' := ProducerStep(s, c); b < |s'.place| && (s'.place[b].InPool? || s'.place[b].Elsewhere?)
  {
  }

  lemma OthersKeepFree(s: State, o: Other, b: Block)
    requires OtherEnabled(s, o) && b < |s.place| && (s.place[b].InPool? || s.place[b].Elsewhere?)
    ensures var s' := OtherStep(s, o); b < |s'.place| && (s'.place[b].InPool? || s'.place[b].Elsewhere?)
  {
  }

  lemma ConsumerKeepsFree(s: State, t: nat, c: Choice, b: Block)
    requires SubQueue.Inv(s) && ConsumerEnabled(s, t, c)
    requires b < |s.place| && (s.place[b].InPool? || s.place[b].Elsewhere?)
    ensures var s' := ConsumerStep(s, t, c); b < |s'.place| && (s'.place[b].InPool? || s'.place[b].Elsewhere?)
  {
    var p := s.pcs[t];
    assert p.Move? || p.Clear? || p.Free? ==> p.block != b by {
      assert ConsumerInv(s, t);
      if p.Move? { ChunkFacts(s, t); }
    }
    ConsumerMovesPlace(s, t, c, b);
  }

  lemma ConsumerMovesPlace(s: State, t: nat, c: Choice, b: Block)
    requires ConsumerEnabled(s, t, c) && b < |s.place|
    requires var p := s.pcs[t]; p.Move? || p.Clear? || p.Free? ==> p.block != b
    ensures var s' := ConsumerStep(s, t, c); |s'.place| == |s.place| && s'.place[b] == s.place[b]
  {
  }

  lemma StaysFreeAt(r: seq<State>, i: nat, b: Block)
    requires Run(r) && 0 < i < |r| && r[i - 1].prod.ReturnBlocks?
    requires b < |r[i - 1].place| && (r[i - 1].place[b].InPool? || r[i - 1].place[b].Elsewhere?)
    ensures b < |r[i].place| && (r[i].place[b].InPool? || r[i].place[b].Elsewhere?)
  {
    RunInv(r, i - 1);
    assert StepAt(r, i);
    StaysFree(r[i - 1], r[i], b);
  }

  lemma {:induction false} FreeUntilEnd(r: seq<State>, i: nat, j: nat, xs: seq<Item>, n: nat, m: nat, b: Block)
    requires Run(r) && Operation(r, i, j, xs) && i < n < m <= j && ReturnAt(r, n, b)
    ensures b < |r[m].place| && (r[m].place[b].InPool? || r[m].place[b].Elsewhere?)
    decreases m
  {
    if n + 1 < m {
      FreeUntilEnd(r, i, j, xs, n, m - 1, b);
      ChainIsPrefix(r, i, j, xs, n, m - 1);
      StaysFreeAt(r, m, b);
    }
  }

  /** No block is returned twice by one operation. */
  lemma ReturnedByOneStep(r: seq<State>, i: nat, j: nat, xs: seq<Item>, n: nat, m: nat, b: Block)
    requires Run(r) && Operation(r, i, j, xs) && i < n < m < j && ReturnAt(r, n, b)
    ensures !ReturnAt(r, m, b)
  {
    ChainIsPrefix(r, i, j, xs, n + 1, m);
    assert DistinctBlocks(ChainOf(r[m].prod)) by { RunInv(r, m); }
  }

  /** A failed operation gives every block that it requisitioned back to the pool, each in
      exactly one step; afterwards the block is in the pool, once, unless another producer has
      taken it since. */
  lemma FailureReturnsBlocks(r: seq<State>, i: nat, j: nat, xs: seq<Item>, m: nat, x: nat) returns (n: nat)
    requires Run(r) && Operation(r, i, j, xs) && !r[j - 1].prod.Construct?
    requires i < m < j && x < |ChainOf(r[m].prod)|
    ensures var b := ChainOf(r[m].prod)[x];
      && i < n < j && ReturnAt(r, n, b)
      && (forall n' :: i < n' < j && ReturnAt(r, n', b) ==> n' == n)
      && b < |r[j].place|
      && ((r[j].place[b].InPool? && r[j].pool[b] == 1) || (r[j].place[b].Elsewhere? && r[j].pool[b] == 0))
  {
    var b := ChainOf(r[m].prod)[x];
    OperationEnds(r, i, j, xs);
    ChainIsPrefix(r, i, j, xs, m, j - 1);
    ReturnFinished(r, i, j, xs);
    n := FindReturn(r, i, j - 1, x);
    forall n' | i < n' < j && ReturnAt(r, n', b) ensures n' == n {
      if n < n' { ReturnedByOneStep(r, i, j, xs, n, n', b); }
      if n' < n { ReturnedByOneStep(r, i, j, xs, n', n, b); }
    }
    FreeUntilEnd(r, i, j, xs, n, j, b);
    PlaceAt(r, j, b);
  }

  lemma PlaceAt(r: seq<State>, i: nat, b: Block)
    requires Run(r) && i < |r| && b < |r[i].place|
    ensures |r[i].place| == |r[i].mem| && PlaceInv(r[i], b)
  {
    RunInv(r, i);
  }

  lemma ReturnFinished(r: seq<State>, i: nat, j: nat, xs: seq<Item>)
    requires Run(r) && Operation(r, i, j, xs) && r[j - 1].prod.ReturnBlocks?
    ensures r[j - 1].prod.j == |r[j - 1].prod.chain|
  {
    CountOkAt(r, j - 1);
    assert StepAt(r, j);
    ReturnEnds(r[j - 1], r[j]);
  }

  lemma CountOkAt(r: seq<State>, i: nat)
    requires Run(r) && i < |r|
    ensures CountOk(r[i])
  {
    RunInv(r, i);
  }

  lemma ReturnEnds(s: State, s': State)
    requires Next(s, s') && CountOk(s) && s.prod.ReturnBlocks? && s'.prod.Rest?
    ensures s.prod.j == |s.prod.chain|
  {
    if exists t: nat, c: Choice :: ConsumerMoves(s, s', t, c) {
      var t: nat, c: Choice :| ConsumerMoves(s, s', t, c);
      ConsumerKeepsPlaces(s, t, c);
    } else if exists o: Other :: OthersMove(s, s', o) {
      var o: Other :| OthersMove(s, s', o);
      OthersFrame(s, o);
    }
  }
}
