/** The producer's steps keep the sub-queue's invariant. */
module SubQueueProducer {
  import opened Basics
  import opened BlockIndex
  import opened SubQueue

  // ---- Proof: steps that only touch the index -------------------------------------------

  /** The index moved on, but every header leads where it led. */
  ghost predicate IndexMoves(ix: Index, ix': Index) {
    && |ix.headers| <= |ix'.headers| <= |ix.headers| + 1
    && ix.high <= ix'.high
    && (forall r :: 0 <= r < |ix.headers| ==> SameWay(ix, ix', r))
    && (|ix'.headers| > |ix.headers| > 0 ==> Last(ix', |ix.headers| - 1) == ix.high - 1)
  }

  ghost predicate SameWay(ix: Index, ix': Index, r: nat)
    requires r < |ix.headers| <= |ix'.headers|
  {
    ix'.headers[r] == ix.headers[r].(tail := ix'.headers[r].tail)
  }

  lemma KnowsStays(ix: Index, ix': Index, r: nat, k: int)
    requires IndexMoves(ix, ix') && Knows(ix, r, k) && k < ix.high
    ensures Knows(ix', r, k)
  {
    assert SameWay(ix, ix', r);
    if r + 1 < |ix.headers| { assert SameWay(ix, ix', r + 1); }
  }

  lemma PathStays(ix: Index, ix': Index, p: Consumer)
    requires IndexMoves(ix, ix') && PathOk(ix, p)
    requires !p.Away? ==> 0 < p.end && (p.end - 1) / BLOCK_SIZE < ix.high
    ensures PathOk(ix', p)
  {
    if !p.Away? && !p.LoadHeader? {
      KnowsStays(ix, ix', p.r, if p.LoadKey? then p.m else (p.end - 1) / BLOCK_SIZE);
      assert SameWay(ix, ix', p.r);
    }
  }

  /** Everything but the index, the producer and perhaps the tail block is as it was. */
  ghost predicate OnlyIndex(s: State, s': State) {
    && s' == s.(ix := s'.ix, prod := s'.prod)
    && s'.ix.filled == s.ix.filled
    && (s.prod.Construct? ==> s.prod.j == 0)
    && (s'.prod.Construct? ==> s'.prod.j == 0)
    && IndexMoves(s.ix, s'.ix)
  }

  /** A consumer's blocks are published ones, so they are below the high mark. */
  lemma ClaimsBelowHigh(s: State, x: nat)
    requires CountOk(s) && s.ix.count <= s.ix.high && x < s.tail
    ensures x / BLOCK_SIZE < Blocks(s.tail) <= s.ix.high
  {
  }

  lemma PlaceStays(s: State, s': State, b: Block)
    requires OnlyIndex(s, s') && b < |s.mem| == |s.place| && PlaceInv(s, b)
    ensures PlaceInv(s', b)
  {
  }

  lemma BlockStays(s: State, s': State, k: nat)
    requires OnlyIndex(s, s') && k in s.ix.filled && BlockInv(s, k)
    ensures BlockInv(s', k)
  {
  }

  lemma IndexStays(s: State, s': State, x: nat)
    requires OnlyIndex(s, s') && |s.items| == s.tail && |s.owner| == s.head && x < s.tail && IndexInv(s, x)
    ensures IndexInv(s', x)
  {
  }

  lemma ClaimBelowHigh(s: State, t: nat)
    requires t < |s.pcs| && ClaimOk(s, t) && !s.pcs[t].Away?
    requires CountOk(s) && s.ix.count <= s.ix.high && s.head <= s.tail
    ensures 0 < s.pcs[t].end && (s.pcs[t].end - 1) / BLOCK_SIZE < s.ix.high
  {
    ClaimsBelowHigh(s, s.pcs[t].end - 1);
  }

  lemma ConsumerStays(s: State, s': State, t: nat)
    requires OnlyIndex(s, s') && t < |s.pcs| && ConsumerInv(s, t)
    requires CountOk(s) && s.ix.count <= s.ix.high && s.head <= s.tail
    ensures ConsumerInv(s', t)
  {
    if !s.pcs[t].Away? { ClaimBelowHigh(s, t); }
    PathStays(s.ix, s'.ix, s.pcs[t]);
    assert ClaimOk(s', t);
  }

  lemma OnlyIndexKeepsRest(s: State, s': State)
    requires SubQueue.Inv(s) && OnlyIndex(s, s')
    ensures Sizes(s')
    ensures forall b :: 0 <= b < |s'.mem| ==> PlaceInv(s', b)
    ensures forall k :: k in s'.ix.filled ==> BlockInv(s', k)
    ensures forall x :: 0 <= x < s'.tail ==> IndexInv(s', x)
    ensures forall t :: 0 <= t < |s'.pcs| ==> ConsumerInv(s', t)
  {
    forall b | 0 <= b < |s'.mem| ensures PlaceInv(s', b) { PlaceStays(s, s', b); }
    forall k | k in s'.ix.filled ensures BlockInv(s', k) { BlockStays(s, s', k); }
    forall x | 0 <= x < s'.tail ensures IndexInv(s', x) { IndexStays(s, s', x); }
    forall t | 0 <= t < |s'.pcs| ensures ConsumerInv(s', t) { ConsumerStays(s, s', t); }
  }

  /** The producer's blocks stay where they are while its chain and the contents of the index do. */
  lemma ProducerStays(s: State, s': State)
    requires OnlyIndex(s, s') && ProducerInv(s)
    requires CountOk(s') && s'.ix.headers != [] && Low(s'.ix) <= Blocks(s.tail)
    requires ChainOf(s'.prod) == ChainOf(s.prod) && FirstServing(s'.prod) == FirstServing(s.prod)
    requires FirstHeld(s'.prod) == FirstHeld(s.prod) && !s'.prod.ResetEmpty? && !s'.prod.StoreBlock?
    requires TestedOk(s')
    ensures ProducerInv(s')
  {
    var chain := ChainOf(s.prod);
    forall j | FirstServing(s'.prod) <= j < |chain| ensures ServesChain(s', j) { assert ServesChain(s, j); }
    forall j | FirstHeld(s'.prod) <= j < FirstServing(s'.prod) && j < |chain| ensures HasBlock(s', chain[j]) {
      assert HasBlock(s, chain[j]);
    }
  }

  lemma NextIsFree(s: State)
    requires ProducerInv(s) && (s.prod.TestEntry? || s.prod.GrowIndex? || s.prod.StoreKey?)
    ensures Settled(s.ix)
  {
  }

  lemma TailMoves(ix: Index, tail: nat, count: nat)
    requires ix.headers != []
    ensures IndexMoves(ix, WithTail(ix, tail).(count := count))
  {
    var ix' := WithTail(ix, tail).(count := count);
    forall r | 0 <= r < |ix.headers| ensures SameWay(ix, ix', r) { }
  }

  /** A step that only touches the index keeps the invariant if it keeps the index sound, the
      chain, and the count in line with the program counter. */
  lemma IndexStep(s: State, s': State)
    requires SubQueue.Inv(s) && OnlyIndex(s, s') && BlockIndex.Inv(s'.ix)
    requires CountOk(s') && Low(s'.ix) <= Blocks(s.tail)
    requires ChainOf(s'.prod) == ChainOf(s.prod) && FirstServing(s'.prod) == FirstServing(s.prod)
    requires FirstHeld(s'.prod) == FirstHeld(s.prod) && !s'.prod.ResetEmpty? && !s'.prod.StoreBlock?
    requires TestedOk(s')
    ensures SubQueue.Inv(s')
  {
    ProducerStays(s, s');
    OnlyIndexKeepsRest(s, s');
  }

  /** The oldest block the ring holds is never newer than the first unpublished one. */
  lemma LowStaysPublished(s: State, ix': Index)
    requires ProducerInv(s) && (s.prod.GrowIndex? || s.prod.StoreKey?)
    requires BlockIndex.Inv(ix') && ix'.filled == s.ix.filled && ix'.count == s.ix.count
    ensures Low(ix') <= Blocks(s.tail)
  {
    assert s.prod.chain != [] ==> ServesChain(s, 0);
  }

  lemma SameHeaders(ix: Index, ix': Index)
    requires ix'.headers == ix.headers && ix.high <= ix'.high
    ensures IndexMoves(ix, ix')
  {
    forall r | 0 <= r < |ix.headers| ensures SameWay(ix, ix', r) { }
  }

  lemma KeyStep(s: State, c: Choice)
    requires SubQueue.Inv(s) && ProducerEnabled(s, c) && s.prod.StoreKey?
    ensures SubQueue.Inv(ProducerStep(s, c))
  {
    var s' := ProducerStep(s, c);
    NextIsFree(s);
    WriteKeyKeepsInv(s.ix);
    LowStaysPublished(s, s'.ix);
    SameHeaders(s.ix, s'.ix);
    IndexStep(s, s');
  }

  lemma GrowStep(s: State, c: Choice)
    requires SubQueue.Inv(s) && ProducerEnabled(s, c) && s.prod.GrowIndex? && c.Extend?
    ensures SubQueue.Inv(ProducerStep(s, c))
  {
    var s' := ProducerStep(s, c);
    GrowKeepsInv(s.ix, c.junk);
    GrowMakesRoom(s.ix, c.junk);
    LowStaysPublished(s, s'.ix);
    assert IndexMoves(s.ix, s'.ix) by {
      forall r | 0 <= r < |s.ix.headers| ensures SameWay(s.ix, s'.ix, r) { }
    }
    IndexStep(s, s');
  }

  /** The full test never refuses: the head is not past the tail. */
  lemma NeverFull(s: State)
    requires Sizes(s) && CountOk(s) && s.prod.Allocate?
    ensures s.head < BLOCK_SIZE * s.ix.count + BLOCK_SIZE
  {
  }

  lemma TestStep(s: State, c: Choice)
    requires SubQueue.Inv(s) && ProducerEnabled(s, c) && s.prod.TestEntry?
    ensures SubQueue.Inv(ProducerStep(s, c))
  {
    var s' := ProducerStep(s, c);
    NextIsFree(s);
    if !HasRoom(s.ix) { NoRoomMeansFull(s.ix); }
    SameHeaders(s.ix, s'.ix);
    IndexStep(s, s');
  }

  lemma StoreTailStep(s: State, c: Choice)
    requires SubQueue.Inv(s) && ProducerEnabled(s, c) && s.prod.StoreTail?
    ensures SubQueue.Inv(ProducerStep(s, c))
  {
    var s' := ProducerStep(s, c);
    AdvanceTailKeepsInv(s.ix);
    TailMoves(s.ix, s'.ix.Current().tail, s'.ix.count);
    IndexStep(s, s');
  }

  lemma RewindStep(s: State, c: Choice)
    requires SubQueue.Inv(s) && ProducerEnabled(s, c) && s.prod.Rewind?
    ensures SubQueue.Inv(ProducerStep(s, c))
  {
    var s' := ProducerStep(s, c);
    RewindTailKeepsInv(s.ix);
    TailMoves(s.ix, s'.ix.Current().tail, s'.ix.count);
    IndexStep(s, s');
  }

  lemma UndoTailStep(s: State, c: Choice)
    requires SubQueue.Inv(s) && ProducerEnabled(s, c) && s.prod.UndoTail?
    ensures SubQueue.Inv(ProducerStep(s, c))
  {
    var s' := ProducerStep(s, c);
    RewindTailKeepsInv(s.ix);
    TailMoves(s.ix, s'.ix.Current().tail, s'.ix.count);
    IndexStep(s, s');
  }

  lemma ForgetStep(s: State, c: Choice)
    requires SubQueue.Inv(s) && ProducerEnabled(s, c) && s.prod.Forget?
    ensures SubQueue.Inv(ProducerStep(s, c))
  {
    var s' := ProducerStep(s, c);
    NextEntryIsSlot(s.ix);
    WriteValueKeepsInv(s.ix, s.ix.count, Null, s'.ix);
    SameHeaders(s.ix, s'.ix);
    IndexStep(s, s');
  }

  lemma AllocateStep(s: State, c: Choice)
    requires SubQueue.Inv(s) && ProducerEnabled(s, c) && s.prod.Allocate?
    ensures SubQueue.Inv(ProducerStep(s, c))
  {
    var s' := ProducerStep(s, c);
    SameHeaders(s.ix, s'.ix);
    IndexStep(s, s');
  }

  lemma GiveUpStep(s: State, c: Choice)
    requires SubQueue.Inv(s) && ProducerEnabled(s, c) && (s.prod.GrowIndex? || s.prod.Requisition?) && c.Fail?
    ensures SubQueue.Inv(ProducerStep(s, c))
  {
    var s' := ProducerStep(s, c);
    SameHeaders(s.ix, s'.ix);
    IndexStep(s, s');
  }

  /** Steps that only change the program counter. */
  lemma PlainStep(s: State, c: Choice)
    requires SubQueue.Inv(s) && ProducerEnabled(s, c)
    requires s.prod.Rest? || (s.prod.UndoValue? && s.prod.j == |s.prod.chain|)
    ensures SubQueue.Inv(ProducerStep(s, c))
  {
    var s' := ProducerStep(s, c);
    SameHeaders(s.ix, s'.ix);
    IndexStep(s, s');
  }

  lemma BackToRestStep(s: State, c: Choice)
    requires SubQueue.Inv(s) && ProducerEnabled(s, c)
    requires s.prod.ReturnBlocks? && s.prod.j == |s.prod.chain|
    ensures SubQueue.Inv(ProducerStep(s, c))
  {
    var s' := ProducerStep(s, c);
    SameHeaders(s.ix, s'.ix);
    OnlyIndexKeepsRest(s, s');
  }

  // ---- Proof: steps that move one idle block --------------------------------------------

  /** Only block `b`, which is not in the index and in no consumer's hands, changed. */
  ghost predicate OnlyBlock(s: State, s': State, b: Block) {
    && s' == s.(mem := s'.mem, pool := s'.pool, place := s'.place, prod := s'.prod)
    && b <= |s.mem| == |s.place| <= |s'.mem| == |s'.place| <= Max(|s.mem|, b + 1)
    && (forall x :: 0 <= x < |s.mem| && x != b ==> SameBlock(s, s', x))
    && (b < |s.place| ==> s.place[b].InPool? || s.place[b].WithProducer? || s.place[b].Elsewhere?)
    && (s'.prod == s.prod || (!s.prod.Construct? && !s'.prod.Construct?))
  }

  ghost predicate SameBlock(s: State, s': State, x: Block)
    requires x < |s.mem| == |s.place| <= |s'.mem| == |s'.place|
  {
    s'.mem[x] == s.mem[x] && s'.place[x] == s.place[x] && s'.pool[x] == s.pool[x]
  }

  lemma PlaceKept(s: State, s': State, b: Block, x: Block)
    requires OnlyBlock(s, s', b) && x < |s.mem| && x != b && PlaceInv(s, x)
    ensures PlaceInv(s', x)
  {
    assert SameBlock(s, s', x);
  }

  lemma BlockKept(s: State, s': State, b: Block, k: nat)
    requires OnlyBlock(s, s', b) && k in s.ix.filled && BlockInv(s, k)
    ensures BlockInv(s', k) && s.ix.filled[k] != b
  {
    assert SameBlock(s, s', s.ix.filled[k]);
  }

  lemma ConsumerKept(s: State, s': State, b: Block, t: nat)
    requires OnlyBlock(s, s', b) && t < |s.pcs| && ConsumerInv(s, t)
    ensures ConsumerInv(s', t)
  {
    var p := s.pcs[t];
    if p.Clear? || p.Free? { assert SameBlock(s, s', p.block); }
    assert ClaimOk(s', t);
  }

  lemma BlockStep(s: State, s': State, b: Block)
    requires SubQueue.Inv(s) && OnlyBlock(s, s', b)
    requires b < |s'.mem| && PlaceInv(s', b) && ProducerInv(s')
    requires forall x :: x in s'.pool ==> x < |s'.mem|
    ensures SubQueue.Inv(s')
  {
    forall x | 0 <= x < |s'.mem| ensures PlaceInv(s', x) { if x != b { PlaceKept(s, s', b, x); } }
    forall k | k in s'.ix.filled ensures BlockInv(s', k) { BlockKept(s, s', b, k); }
    forall x | 0 <= x < s'.tail ensures IndexInv(s', x) { assert IndexInv(s, x); }
    forall t | 0 <= t < |s'.pcs| ensures ConsumerInv(s', t) { ConsumerKept(s, s', b, t); }
  }

  lemma ProducerKept(s: State, s': State, b: Block)
    requires ProducerInv(s) && OnlyBlock(s, s', b) && CountOk(s')
    requires ChainOf(s'.prod) == ChainOf(s.prod) && FirstServing(s'.prod) == FirstServing(s.prod) == 0
    requires s'.prod.ResetEmpty? || s'.prod.StoreBlock? ==>
        HasBlock(s', s'.prod.block) && s'.prod.block !in ChainOf(s.prod)
    requires s'.prod.StoreBlock? ==> s'.mem[s'.prod.block].dequeued == 0
    requires !s'.prod.StoreKey? && !s'.prod.GrowIndex?
    ensures ProducerInv(s')
  {
    forall j | 0 <= j < |ChainOf(s.prod)| ensures ServesChain(s', j) { assert ServesChain(s, j); }
  }

  lemma ChainIsServing(s: State, b: Block)
    requires SubQueue.Inv(s) && b in ChainOf(s.prod) && FirstServing(s.prod) == 0
    ensures b < |s.place| && (s.place[b].Serving? || s.place[b].Clearing?)
  {
    var j :| 0 <= j < |ChainOf(s.prod)| && ChainOf(s.prod)[j] == b;
    assert ServesChain(s, j);
    assert BlockInv(s, Blocks(s.tail) + j);
  }

  ghost predicate Requisitions(s: State, s': State, b: Block) {
    && s.prod.Requisition? && OnlyBlock(s, s', b) && b < |s'.mem|
    && s'.prod == ResetEmpty(s.prod.xs, s.prod.chain, b) && s'.place[b] == WithProducer
    && s'.pool[b] == 0 && s'.pool <= s.pool && |s'.mem[b].cells| == BLOCK_SIZE && Clean(s'.mem[b])
  }

  lemma RequisitionMoves(s: State, c: Choice)
    requires ProducerEnabled(s, c) && s.prod.Requisition? && !c.Fail? && s.pool[|s.mem|] == 0
    requires c.Reuse? ==> PlaceInv(s, c.block)
    ensures Requisitions(s, ProducerStep(s, c), if c.Reuse? then c.block else |s.mem|)
  {
  }

  lemma RequisitionInv(s: State, s': State, b: Block)
    requires SubQueue.Inv(s) && Requisitions(s, s', b)
    ensures SubQueue.Inv(s')
  {
    assert ProducerInv(s') by {
      if b in ChainOf(s.prod) { ChainIsServing(s, b); }
      ProducerKept(s, s', b);
    }
    BlockStep(s, s', b);
  }

  lemma RequisitionStep(s: State, c: Choice)
    requires SubQueue.Inv(s) && ProducerEnabled(s, c) && s.prod.Requisition? && !c.Fail?
    ensures SubQueue.Inv(ProducerStep(s, c))
  {
    assert c.Reuse? ==> PlaceInv(s, c.block);
    assert |s.mem| !in s.pool;
    RequisitionMoves(s, c);
    RequisitionInv(s, ProducerStep(s, c), if c.Reuse? then c.block else |s.mem|);
  }

  lemma ResetEmptyStep(s: State, c: Choice)
    requires SubQueue.Inv(s) && ProducerEnabled(s, c) && s.prod.ResetEmpty?
    ensures SubQueue.Inv(ProducerStep(s, c))
  {
    var s' := ProducerStep(s, c);
    var b := s.prod.block;
    assert PlaceInv(s, b);
    ProducerKept(s, s', b);
    BlockStep(s, s', b);
  }

  lemma ReturnStep(s: State, c: Choice)
    requires SubQueue.Inv(s) && ProducerEnabled(s, c) && s.prod.ReturnBlocks? && s.prod.j < |s.prod.chain|
    ensures SubQueue.Inv(ProducerStep(s, c))
  {
    var s' := ProducerStep(s, c);
    var b := s.prod.chain[s.prod.j];
    assert HasBlock(s, b) && PlaceInv(s, b);
    assert ProducerInv(s') by { ReturnKeepsProducer(s, s'); }
    BlockStep(s, s', b);
  }

  lemma ReturnKeepsProducer(s: State, s': State)
    requires ProducerInv(s) && s.prod.ReturnBlocks? && s.prod.j < |s.prod.chain| && s.prod.chain[s.prod.j] < |s.place|
    requires s' == s.(place := s.place[s.prod.chain[s.prod.j] := InPool], pool := s'.pool,
                      prod := ReturnBlocks(s.prod.chain, s.prod.j + 1))
    ensures ProducerInv(s')
  {
    forall j | FirstHeld(s'.prod) <= j < |s.prod.chain| ensures HasBlock(s', s.prod.chain[j]) {
      assert HasBlock(s, s.prod.chain[j]);
    }
  }

  // ---- Proof: the other producers -------------------------------------------------------

  lemma OthersMove(s: State, o: Other)
    requires OtherEnabled(s, o) && |s.mem| !in s.pool
    ensures var b := if o.Makes? then |s.mem| else o.block;
      (o.Takes? ==> s.place[b].InPool?) ==> OnlyBlock(s, OtherStep(s, o), b)
  {
  }

  lemma OthersKeepProducer(s: State, s': State, b: Block)
    requires ProducerInv(s) && OnlyBlock(s, s', b) && s'.prod == s.prod
    requires b < |s.place| ==> !s.place[b].WithProducer?
    ensures ProducerInv(s')
  {
    var chain := ChainOf(s.prod);
    forall j | FirstServing(s.prod) <= j < |chain| ensures ServesChain(s', j) { assert ServesChain(s, j); }
    forall j | FirstHeld(s.prod) <= j < FirstServing(s.prod) && j < |chain| ensures HasBlock(s', chain[j]) {
      assert HasBlock(s, chain[j]);
      assert SameBlock(s, s', chain[j]);
    }
    if s.prod.ResetEmpty? || s.prod.StoreBlock? { assert SameBlock(s, s', s.prod.block); }
  }

  /** Whatever other producers do with blocks of the pool, this one's queue stays sound. */
  lemma OtherStepKeepsInv(s: State, o: Other)
    requires SubQueue.Inv(s) && OtherEnabled(s, o)
    ensures SubQueue.Inv(OtherStep(s, o))
  {
    var s' := OtherStep(s, o);
    var b := if o.Makes? then |s.mem| else o.block;
    assert b < |s.mem| ==> PlaceInv(s, b);
    OthersMove(s, o);
    OthersKeepProducer(s, s', b);
    BlockStep(s, s', b);
  }

  // ---- Proof: steps that put a block into the index or take it out ----------------------

  /** Block number `k`, which is not published, got block `b` or lost it; nothing else moved. */
  ghost predicate OnlyUnpublished(s: State, s': State, k: nat, b: Block) {
    && s' == s.(ix := s'.ix, place := s'.place, prod := s'.prod)
    && |s'.place| == |s.place| == |s.mem| && b < |s.mem|
    && s'.ix.headers == s.ix.headers && s'.ix.high == s.ix.high
    && s.tail <= BLOCK_SIZE * k
    && s'.ix.filled - {k} == s.ix.filled - {k}
    && (forall x :: 0 <= x < |s.mem| && x != b ==> s'.place[x] == s.place[x])
    && (s.place[b] == WithProducer || s.place[b] == Serving(k))
    && (s'.place[b] == WithProducer || s'.place[b] == Serving(k))
    && !s.prod.Construct? && !s'.prod.Construct?
  }

  lemma SameFilled(m: map<nat, Block>, m': map<nat, Block>, k: nat, x: nat)
    requires m' - {k} == m - {k} && x != k
    ensures x in m <==> x in m'
    ensures x in m ==> m[x] == m'[x]
  {
    assert x in m <==> x in m - {k};
    assert x in m' <==> x in m' - {k};
    assert x in m ==> (m - {k})[x] == (m' - {k})[x];
  }

  lemma UnpublishedKeepsPlace(s: State, s': State, k: nat, b: Block, x: Block)
    requires OnlyUnpublished(s, s', k, b) && x < |s.mem| && x != b && PlaceInv(s, x)
    requires k in s.ix.filled ==> s.ix.filled[k] == b
    ensures PlaceInv(s', x)
  {
    match s.place[x] {
      case Serving(j) => SameFilled(s.ix.filled, s'.ix.filled, k, j);
      case Clearing(j, _) => SameFilled(s.ix.filled, s'.ix.filled, k, j);
      case _ =>
    }
  }

  lemma UnpublishedKeepsBlock(s: State, s': State, k: nat, b: Block, j: nat)
    requires OnlyUnpublished(s, s', k, b) && j in s'.ix.filled && j != k
    requires j in s.ix.filled ==> BlockInv(s, j)
    ensures BlockInv(s', j)
  {
    SameFilled(s.ix.filled, s'.ix.filled, k, j);
  }

  lemma UnpublishedKeepsIndex(s: State, s': State, k: nat, b: Block, x: nat)
    requires OnlyUnpublished(s, s', k, b) && Sizes(s) && x < s.tail && IndexInv(s, x)
    ensures IndexInv(s', x)
  {
    SameFilled(s.ix.filled, s'.ix.filled, k, x / BLOCK_SIZE);
  }

  lemma UnpublishedKeepsConsumer(s: State, s': State, k: nat, b: Block, t: nat)
    requires OnlyUnpublished(s, s', k, b) && Sizes(s) && CountOk(s) && s.ix.count <= s.ix.high
    requires t < |s.pcs| && ConsumerInv(s, t)
    ensures ConsumerInv(s', t)
  {
    var p := s.pcs[t];
    if !p.Away? { ClaimBelowHigh(s, t); }
    SameHeaders(s.ix, s'.ix);
    PathStays(s.ix, s'.ix, p);
    if p.Move? { SameFilled(s.ix.filled, s'.ix.filled, k, p.start / BLOCK_SIZE); }
    assert ClaimOk(s', t);
  }

  lemma UnpublishedStep(s: State, s': State, k: nat, b: Block)
    requires SubQueue.Inv(s) && OnlyUnpublished(s, s', k, b)
    requires k in s.ix.filled ==> s.ix.filled[k] == b
    requires BlockIndex.Inv(s'.ix) && ProducerInv(s') && PlaceInv(s', b) && (k in s'.ix.filled ==> BlockInv(s', k))
    ensures SubQueue.Inv(s')
  {
    forall x | 0 <= x < |s'.mem| ensures PlaceInv(s', x) { if x != b { UnpublishedKeepsPlace(s, s', k, b, x); } }
    forall j | j in s'.ix.filled ensures BlockInv(s', j) { if j != k { UnpublishedKeepsBlock(s, s', k, b, j); } }
    forall x | 0 <= x < s'.tail ensures IndexInv(s', x) { UnpublishedKeepsIndex(s, s', k, b, x); }
    forall t | 0 <= t < |s'.pcs| ensures ConsumerInv(s', t) { UnpublishedKeepsConsumer(s, s', k, b, t); }
  }

  /** No index of an unpublished block is finished, and all its cells are expected raw. */
  lemma UnpublishedIsFresh(s: State, k: nat)
    requires Sizes(s) && s.tail <= BLOCK_SIZE * k && !s.prod.Construct?
    ensures DoneCount(s.done, BLOCK_SIZE * k, BLOCK_SIZE) == 0
    ensures forall i: nat :: s.tail <= i ==> Expected(s, i) == Raw
  {
    NoneDone(s.done, BLOCK_SIZE * k, BLOCK_SIZE);
  }

  lemma {:induction false} NoneDone(done: set<nat>, base: nat, n: nat)
    requires forall x :: x in done ==> x < base
    ensures DoneCount(done, base, n) == 0
  {
    if n > 0 { NoneDone(done, base, n - 1); }
  }

  lemma TailEntryIsSlot(ix: Index)
    requires BlockIndex.Inv(ix)
    ensures TailEntry(ix) == Slot(ix, ix.count - 1)
  {
  }

  lemma StoreBlockKeepsIndex(s: State, b: Block, ix': Index)
    requires SubQueue.Inv(s) && s.ix.open == s.ix.count - 1 && Blocks(s.tail) < s.ix.count
    requires ix' == WriteValue(s.ix, TailEntry(s.ix), To(b)).(filled := s.ix.filled[s.ix.count - 1 := b], open := -1)
    ensures BlockIndex.Inv(ix')
  {
    TailEntryIsSlot(s.ix);
    WriteValueKeepsInv(s.ix, s.ix.count - 1, To(b), ix');
  }

  lemma StoreBlockKeepsProducer(s: State, s': State)
    requires ProducerInv(s) && s.prod.StoreBlock? && OnlyUnpublished(s, s', s.ix.count - 1, s.prod.block)
    requires s'.prod == Allocate(s.prod.xs, s.prod.chain + [s.prod.block])
    requires s'.ix.filled == s.ix.filled[s.ix.count - 1 := s.prod.block]
    requires s'.ix.open < 0 && s'.ix.count == s.ix.count
    ensures ProducerInv(s')
  {
    var chain := s.prod.chain;
    forall j | 0 <= j < |chain| + 1 ensures ServesChain(s', j) {
      if j < |chain| { assert ServesChain(s, j); }
    }
  }

  lemma StoreBlockServes(s: State, s': State)
    requires s.prod.StoreBlock? && s.ix.count > 0 && OnlyUnpublished(s, s', s.ix.count - 1, s.prod.block) && Sizes(s')
    requires var k, b := s.ix.count - 1, s.prod.block;
      && k in s'.ix.filled && s'.ix.filled[k] == b && s'.place[b] == Serving(k)
      && PlaceInv(s, b) && s.place[b].WithProducer? && s.mem[b].dequeued == 0
    ensures PlaceInv(s', s.prod.block) && BlockInv(s', s.ix.count - 1)
  {
    UnpublishedIsFresh(s', s.ix.count - 1);
  }

  lemma StoreBlockMoves(s: State, c: Choice)
    requires ProducerEnabled(s, c) && s.prod.StoreBlock? && CountOk(s) && HasBlock(s, s.prod.block)
    ensures OnlyUnpublished(s, ProducerStep(s, c), s.ix.count - 1, s.prod.block)
    ensures var s' := ProducerStep(s, c); var k, b := s.ix.count - 1, s.prod.block;
      && s'.prod == Allocate(s.prod.xs, s.prod.chain + [b])
      && s'.ix == WriteValue(s.ix, TailEntry(s.ix), To(b)).(filled := s.ix.filled[k := b], open := -1)
      && s'.place[b] == Serving(k)
  {
    var k, b := s.ix.count - 1, s.prod.block;
    assert s.ix.filled[k := b] - {k} == s.ix.filled - {k};
  }

  lemma StoreBlockStep(s: State, c: Choice)
    requires SubQueue.Inv(s) && ProducerEnabled(s, c) && s.prod.StoreBlock?
    ensures SubQueue.Inv(ProducerStep(s, c))
  {
    var s' := ProducerStep(s, c);
    StoreBlockMoves(s, c);
    StoreBlockInv(s, s');
  }

  lemma StoreBlockInv(s: State, s': State)
    requires SubQueue.Inv(s) && s.prod.StoreBlock? && s.ix.count > 0
    requires OnlyUnpublished(s, s', s.ix.count - 1, s.prod.block)
    requires var k, b := s.ix.count - 1, s.prod.block;
      && s'.prod == Allocate(s.prod.xs, s.prod.chain + [b])
      && s'.ix == WriteValue(s.ix, TailEntry(s.ix), To(b)).(filled := s.ix.filled[k := b], open := -1)
      && s'.place[b] == Serving(k)
    ensures SubQueue.Inv(s')
  {
    var k, b := s.ix.count - 1, s.prod.block;
    assert PlaceInv(s', b) && BlockInv(s', k) by {
      assert PlaceInv(s, b);
      StoreBlockServes(s, s');
    }
    assert ProducerInv(s') by { StoreBlockKeepsProducer(s, s'); }
    StoreBlockKeepsIndex(s, b, s'.ix);
    UnpublishedStep(s, s', k, b);
  }

  lemma LookupEntryIsSlot(ix: Index, k: nat)
    requires BlockIndex.Inv(ix) && Low(ix) < ix.count
    ensures LookupEntry(ix, BLOCK_SIZE * k) == Slot(ix, k)
  {
    TailEntryIsSlot(ix);
    assert KeyOk(ix, ix.count - 1);
    assert (BLOCK_SIZE * k - BLOCK_SIZE * (ix.count - 1)) / BLOCK_SIZE == k - (ix.count - 1);
    PosFrom(ix.Current(), ix.count - 1, k);
  }

  lemma UndoValueKeepsIndex(s: State, k: nat, ix': Index)
    requires SubQueue.Inv(s) && Low(s.ix) < s.ix.count && k in s.ix.filled && s.ix.open < 0
    requires ix' == WriteValue(s.ix, LookupEntry(s.ix, BLOCK_SIZE * k), Null).(filled := s.ix.filled - {k})
    ensures BlockIndex.Inv(ix')
  {
    LookupEntryIsSlot(s.ix, k);
    WriteValueKeepsInv(s.ix, k, Null, ix');
  }

  lemma UndoValueKeepsProducer(s: State, s': State)
    requires ProducerInv(s) && s.prod.UndoValue? && s.prod.j < |s.prod.chain|
    requires OnlyUnpublished(s, s', Blocks(s.tail) + s.prod.j, s.prod.chain[s.prod.j])
    requires s'.prod == UndoTail(s.prod.chain, s.prod.j)
    requires s'.ix.filled == s.ix.filled - {Blocks(s.tail) + s.prod.j}
    requires s'.place[s.prod.chain[s.prod.j]] == WithProducer
    requires s'.ix.open == s.ix.open && s'.ix.count == s.ix.count
    ensures ProducerInv(s')
  {
    var chain, j0 := s.prod.chain, s.prod.j;
    forall j | j0 + 1 <= j < |chain| ensures ServesChain(s', j) { assert ServesChain(s, j); }
    forall j | 0 <= j < j0 + 1 ensures HasBlock(s', chain[j]) { if j < j0 { assert HasBlock(s, chain[j]); } }
  }

  lemma UndoValueFrees(s: State, s': State)
    requires s.prod.UndoValue? && s.prod.j < |s.prod.chain| && Sizes(s)
    requires OnlyUnpublished(s, s', Blocks(s.tail) + s.prod.j, s.prod.chain[s.prod.j])
    requires ServesChain(s, s.prod.j) && BlockInv(s, Blocks(s.tail) + s.prod.j) && PlaceInv(s, s.prod.chain[s.prod.j])
    requires s'.place[s.prod.chain[s.prod.j]] == WithProducer
    ensures PlaceInv(s', s.prod.chain[s.prod.j])
  {
    var k, b := Blocks(s.tail) + s.prod.j, s.prod.chain[s.prod.j];
    UnpublishedIsFresh(s, k);
    forall o | 0 <= o < BLOCK_SIZE ensures s.mem[b].cells[o] == Raw {
      assert s.mem[b].cells[o] == Expected(s, BLOCK_SIZE * k + o);
    }
  }

  /** The `j`-th block of the chain is taken out of the index again. */
  ghost predicate UndoesValue(s: State, s': State) {
    && s.prod.UndoValue? && s.prod.j < |s.prod.chain| && Shaped(s.ix)
    && var k, b := Blocks(s.tail) + s.prod.j, s.prod.chain[s.prod.j];
    && OnlyUnpublished(s, s', k, b)
    && s'.prod == UndoTail(s.prod.chain, s.prod.j)
    && s'.ix == WriteValue(s.ix, LookupEntry(s.ix, BLOCK_SIZE * k), Null).(filled := s.ix.filled - {k})
    && s'.place[b] == WithProducer
  }

  lemma UndoValueMoves(s: State, c: Choice)
    requires ProducerEnabled(s, c) && s.prod.UndoValue? && s.prod.j < |s.prod.chain|
    requires s.place[s.prod.chain[s.prod.j]] == Serving(Blocks(s.tail) + s.prod.j)
    ensures UndoesValue(s, ProducerStep(s, c))
  {
    var k := Blocks(s.tail) + s.prod.j;
    assert (s.ix.filled - {k}) - {k} == s.ix.filled - {k};
  }

  ghost predicate ChainServesAt(s: State, j: nat) {
    && j < |ChainOf(s.prod)|
    && var k, b := Blocks(s.tail) + j, ChainOf(s.prod)[j];
    && ServesChain(s, j) && BlockInv(s, k)
    && b < |s.mem| == |s.place| && s.place[b] == Serving(k) && PlaceInv(s, b)
  }

  /** A block in the chain is still serving: nothing of it has been finished. */
  lemma ChainBlockServes(s: State, j: nat)
    requires SubQueue.Inv(s) && FirstServing(s.prod) <= j < |ChainOf(s.prod)| && !s.prod.Construct?
    ensures ChainServesAt(s, j)
  {
    var k, b := Blocks(s.tail) + j, ChainOf(s.prod)[j];
    assert ServesChain(s, j);
    assert BlockInv(s, k);
    UnpublishedIsFresh(s, k);
    assert PlaceInv(s, b);
  }

  lemma UndoValueKeepsParts(s: State, s': State)
    requires SubQueue.Inv(s) && UndoesValue(s, s') && ChainServesAt(s, s.prod.j)
    ensures PlaceInv(s', s.prod.chain[s.prod.j]) && ProducerInv(s') && BlockIndex.Inv(s'.ix)
  {
    UndoValueFrees(s, s');
    UndoValueKeepsProducer(s, s');
    UndoValueKeepsIndex(s, Blocks(s.tail) + s.prod.j, s'.ix);
  }

  lemma UndoValueInv(s: State, s': State)
    requires SubQueue.Inv(s) && UndoesValue(s, s') && ChainServesAt(s, s.prod.j)
    ensures SubQueue.Inv(s')
  {
    UndoValueKeepsParts(s, s');
    UnpublishedStep(s, s', Blocks(s.tail) + s.prod.j, s.prod.chain[s.prod.j]);
  }

  lemma UndoValueStep(s: State, c: Choice)
    requires SubQueue.Inv(s) && ProducerEnabled(s, c) && s.prod.UndoValue? && s.prod.j < |s.prod.chain|
    ensures SubQueue.Inv(ProducerStep(s, c))
  {
    ChainBlockServes(s, s.prod.j);
    UndoValueMoves(s, c);
    UndoValueInv(s, ProducerStep(s, c));
  }

  // ---- Proof: writing and publishing elements -------------------------------------------

  lemma {:induction false} SomeNotDone(done: set<nat>, base: nat, n: nat, x: nat)
    requires base <= x < base + n && x !in done
    ensures DoneCount(done, base, n) < n
  {
    if x < base + n - 1 {
      SomeNotDone(done, base, n - 1, x);
    } else {
      DoneCountBound(done, base, n - 1);
    }
  }

  lemma {:induction false} DoneCountBound(done: set<nat>, base: nat, n: nat)
    ensures DoneCount(done, base, n) <= n
  {
    if n > 0 { DoneCountBound(done, base, n - 1); }
  }

  /** Every new element goes to the block that the index has for its index. */
  lemma TargetServes(s: State)
    requires ProducerInv(s) && s.prod.Construct? && s.prod.j < |s.prod.xs|
    ensures var k := (s.tail + s.prod.j) / BLOCK_SIZE;
      k in s.ix.filled && Target(s, s.prod.chain, s.prod.j) == To(s.ix.filled[k])
  {
    var f, k := Blocks(s.tail), (s.tail + s.prod.j) / BLOCK_SIZE;
    if k >= f { assert ServesChain(s, k - f); }
  }

  /** Two block numbers are never served by the same block. */
  lemma BlocksDiffer(s: State, k: nat, j: nat)
    requires k in s.ix.filled && j in s.ix.filled && k != j && BlockInv(s, k) && BlockInv(s, j)
    ensures s.ix.filled[k] != s.ix.filled[j]
  {
  }

  /** A block with an unfinished index is still serving. */
  lemma UnfinishedServes(s: State, x: nat)
    requires x / BLOCK_SIZE in s.ix.filled && BlockInv(s, x / BLOCK_SIZE) && x !in s.done
    ensures s.place[s.ix.filled[x / BLOCK_SIZE]] == Serving(x / BLOCK_SIZE)
  {
    SomeNotDone(s.done, BLOCK_SIZE * (x / BLOCK_SIZE), BLOCK_SIZE, x);
  }

  ghost predicate Writes(s: State, s': State) {
    && s.prod.Construct? && s.prod.j < |s.prod.xs|
    && var k := (s.tail + s.prod.j) / BLOCK_SIZE;
    && k in s.ix.filled && s.ix.filled[k] < |s.mem| && |s.mem[s.ix.filled[k]].cells| == BLOCK_SIZE
    && var b := s.ix.filled[k];
    var o := (s.tail + s.prod.j) % BLOCK_SIZE;
    s' == s.(mem := s.mem[b := s.mem[b].(cells := s.mem[b].cells[o := Holds(s.prod.xs[s.prod.j])])],
             prod := Construct(s.prod.xs, s.prod.chain, s.prod.j + 1))
  }

  lemma WriteKeepsBlock(s: State, s': State, k: nat)
    requires Writes(s, s') && |s.items| == s.tail && k in s.ix.filled && BlockInv(s, k)
    requires BlockInv(s, (s.tail + s.prod.j) / BLOCK_SIZE)
    ensures BlockInv(s', k)
  {
    var x := s.tail + s.prod.j;
    if k != x / BLOCK_SIZE { BlocksDiffer(s, k, x / BLOCK_SIZE); }
    forall o | 0 <= o < BLOCK_SIZE
      ensures s'.mem[s.ix.filled[k]].cells[o] == Expected(s', BLOCK_SIZE * k + o)
    {
      assert s.mem[s.ix.filled[k]].cells[o] == Expected(s, BLOCK_SIZE * k + o);
    }
  }

  lemma WriteKeepsProducer(s: State, s': State)
    requires Writes(s, s') && ProducerInv(s)
    ensures ProducerInv(s')
  {
    forall j | 0 <= j < |s.prod.chain| ensures ServesChain(s', j) { assert ServesChain(s, j); }
  }

  lemma WriteKeepsOthers(s: State, s': State)
    requires SubQueue.Inv(s) && Writes(s, s')
    ensures forall y :: 0 <= y < s'.tail ==> IndexInv(s', y)
    ensures forall t :: 0 <= t < |s'.pcs| ==> ConsumerInv(s', t)
  {
    forall y | 0 <= y < s'.tail ensures IndexInv(s', y) { assert IndexInv(s, y); }
    forall t | 0 <= t < |s'.pcs| ensures ConsumerInv(s', t) { SameClaim(s, s', t); }
  }

  /** A consumer's facts do not depend on memory, on what is published, or on the producer. */
  lemma SameClaim(s: State, s': State, t: nat)
    requires t < |s.pcs| && ConsumerInv(s, t)
    requires s' == s.(mem := s'.mem, prod := s'.prod, tail := s'.tail, items := s'.items, tailBlock := s'.tailBlock)
    ensures ConsumerInv(s', t)
  {
    assert ClaimOk(s', t);
  }

  lemma WriteKeepsPlace(s: State, s': State, b: Block)
    requires Writes(s, s') && b < |s.mem| == |s.place| && PlaceInv(s, b)
    requires s.place[s.ix.filled[(s.tail + s.prod.j) / BLOCK_SIZE]] == Serving((s.tail + s.prod.j) / BLOCK_SIZE)
    ensures PlaceInv(s', b)
  {
  }

  lemma WriteStep(s: State, s': State)
    requires SubQueue.Inv(s) && Writes(s, s')
    ensures SubQueue.Inv(s')
  {
    var x := s.tail + s.prod.j;
    assert BlockInv(s, x / BLOCK_SIZE);
    UnfinishedServes(s, x);
    WriteKeepsProducer(s, s');
    WriteKeepsOthers(s, s');
    forall b | 0 <= b < |s'.mem| ensures PlaceInv(s', b) { WriteKeepsPlace(s, s', b); }
    forall k | k in s'.ix.filled ensures BlockInv(s', k) { WriteKeepsBlock(s, s', k); }
  }

  ghost predicate Publishes(s: State, s': State) {
    && s.prod.Construct? && s.prod.j == |s.prod.xs|
    && s' == s.(tail := s.tail + |s.prod.xs|, items := s.items + s.prod.xs, prod := Rest,
                tailBlock := if s.prod.chain == [] then s.tailBlock else To(s.prod.chain[|s.prod.chain| - 1]))
  }

  lemma PublishKeepsBlock(s: State, s': State, k: nat)
    requires Publishes(s, s') && Sizes(s) && k in s.ix.filled && BlockInv(s, k)
    ensures BlockInv(s', k)
  {
    forall o | 0 <= o < BLOCK_SIZE
      ensures s'.mem[s.ix.filled[k]].cells[o] == Expected(s', BLOCK_SIZE * k + o)
    {
      assert s.mem[s.ix.filled[k]].cells[o] == Expected(s, BLOCK_SIZE * k + o);
    }
  }

  lemma PublishKeepsIndex(s: State, s': State, x: nat)
    requires Publishes(s, s') && Sizes(s) && ProducerInv(s) && x < s'.tail
    requires x < s.tail ==> IndexInv(s, x)
    ensures IndexInv(s', x)
  {
    var f, k := Blocks(s.tail), x / BLOCK_SIZE;
    if x >= s.tail && k >= f { assert ServesChain(s, k - f); }
  }

  lemma PublishKeepsProducer(s: State, s': State)
    requires Publishes(s, s') && ProducerInv(s)
    ensures ProducerInv(s')
  {
    var n := |s.prod.chain|;
    if n > 0 { assert ServesChain(s, n - 1); }
  }

  lemma PublishKeepsPlace(s: State, s': State, b: Block)
    requires Publishes(s, s') && b < |s.mem| == |s.place| && PlaceInv(s, b)
    ensures PlaceInv(s', b)
  {
  }

  lemma PublishStep(s: State, s': State)
    requires SubQueue.Inv(s) && Publishes(s, s')
    ensures SubQueue.Inv(s')
  {
    PublishKeepsProducer(s, s');
    forall b | 0 <= b < |s'.mem| ensures PlaceInv(s', b) { PublishKeepsPlace(s, s', b); }
    forall k | k in s'.ix.filled ensures BlockInv(s', k) { PublishKeepsBlock(s, s', k); }
    forall x | 0 <= x < s'.tail ensures IndexInv(s', x) { PublishKeepsIndex(s, s', x); }
    forall t | 0 <= t < |s'.pcs| ensures ConsumerInv(s', t) { SameClaim(s, s', t); }
  }

  lemma ConstructStep(s: State, c: Choice)
    requires SubQueue.Inv(s) && ProducerEnabled(s, c) && s.prod.Construct?
    ensures SubQueue.Inv(ProducerStep(s, c))
  {
    var s' := ProducerStep(s, c);
    if s.prod.j < |s.prod.xs| {
      TargetServes(s);
      WriteStep(s, s');
    } else {
      PublishStep(s, s');
    }
  }

  /** Every step of the producer keeps the invariant. */
  lemma ProducerStepKeepsInv(s: State, c: Choice)
    requires SubQueue.Inv(s) && ProducerEnabled(s, c)
    ensures SubQueue.Inv(ProducerStep(s, c))
  {
    match s.prod {
      case Rest => PlainStep(s, c);
      case Allocate(_, _) => AllocateStep(s, c);
      case TestEntry(_, _) => TestStep(s, c);
      case GrowIndex(_, _) => if c.Fail? { GiveUpStep(s, c); } else { GrowStep(s, c); }
      case StoreKey(_, _) => KeyStep(s, c);
      case StoreTail(_, _) => StoreTailStep(s, c);
      case Requisition(_, _) => if c.Fail? { GiveUpStep(s, c); } else { RequisitionStep(s, c); }
      case ResetEmpty(_, _, _) => ResetEmptyStep(s, c);
      case StoreBlock(_, _, _) => StoreBlockStep(s, c);
      case Rewind(_) => RewindStep(s, c);
      case Forget(_) => ForgetStep(s, c);
      case UndoValue(chain, j) => if j < |chain| { UndoValueStep(s, c); } else { PlainStep(s, c); }
      case UndoTail(_, _) => UndoTailStep(s, c);
      case ReturnBlocks(chain, j) => if j < |chain| { ReturnStep(s, c); } else { BackToRestStep(s, c); }
      case Construct(_, _, _) => ConstructStep(s, c);
    }
  }
}
