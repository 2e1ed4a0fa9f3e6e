/** The consumers' steps keep the sub-queue's invariant. */
module SubQueueConsumers {
  import opened Basics
  import opened BlockIndex
  import opened SubQueue
  import opened SubQueueProducer

  // ---- Proof: consumers on their way to a block -----------------------------------------

  /** Only thread `t` moved, and neither before nor after does it hold a block. */
  ghost predicate OnlyWalks(s: State, s': State, t: nat) {
    && t < |s.pcs| == |s'.pcs|
    && s' == s.(pcs := s.pcs[t := s'.pcs[t]])
    && !s.pcs[t].Clear? && !s.pcs[t].Free? && !s'.pcs[t].Clear? && !s'.pcs[t].Free?
    && forall x :: Pending(s.pcs[t], x) ==> Pending(s'.pcs[t], x)
  }

  lemma WalkKeepsPlace(s: State, s': State, t: nat, b: Block)
    requires OnlyWalks(s, s', t) && b < |s.mem| == |s.place| && PlaceInv(s, b)
    ensures PlaceInv(s', b)
  {
  }

  lemma WalkKeepsProducer(s: State, s': State)
    requires ProducerInv(s) && s' == s.(pcs := s'.pcs, head := s'.head, owner := s'.owner)
    ensures ProducerInv(s')
  {
    var chain := ChainOf(s.prod);
    forall j | FirstServing(s.prod) <= j < |chain| ensures ServesChain(s', j) { assert ServesChain(s, j); }
    forall j | FirstHeld(s.prod) <= j < FirstServing(s.prod) && j < |chain| ensures HasBlock(s', chain[j]) {
      assert HasBlock(s, chain[j]);
    }
  }

  lemma WalkKeepsBlock(s: State, s': State, t: nat, k: nat)
    requires OnlyWalks(s, s', t) && k in s.ix.filled && BlockInv(s, k)
    ensures BlockInv(s', k)
  {
  }

  lemma WalkKeepsIndex(s: State, s': State, t: nat, x: nat)
    requires OnlyWalks(s, s', t) && Sizes(s) && x < s.tail && IndexInv(s, x)
    ensures IndexInv(s', x)
  {
  }

  lemma WalkKeepsConsumer(s: State, s': State, t: nat, u: nat)
    requires OnlyWalks(s, s', t) && u < |s.pcs| && u != t && ConsumerInv(s, u)
    ensures ConsumerInv(s', u)
  {
    assert ClaimOk(s', u);
  }

  lemma WalkStep(s: State, s': State, t: nat)
    requires SubQueue.Inv(s) && OnlyWalks(s, s', t) && ConsumerInv(s', t)
    ensures SubQueue.Inv(s')
  {
    WalkKeepsProducer(s, s');
    forall b | 0 <= b < |s'.mem| ensures PlaceInv(s', b) { WalkKeepsPlace(s, s', t, b); }
    forall k | k in s'.ix.filled ensures BlockInv(s', k) { WalkKeepsBlock(s, s', t, k); }
    forall x | 0 <= x < s'.tail ensures IndexInv(s', x) { WalkKeepsIndex(s, s', t, x); }
    forall u | 0 <= u < |s'.pcs| ensures ConsumerInv(s', u) {
      if u != t { WalkKeepsConsumer(s, s', t, u); }
    }
  }

  /** The block of an unfinished claimed index is in the index, and any header that knows it
      leads to its entry. */
  lemma ClaimedBlock(s: State, x: nat, r: nat)
    requires SubQueue.Inv(s) && x < s.tail && x !in s.done && Knows(s.ix, r, x / BLOCK_SIZE)
    ensures var k := x / BLOCK_SIZE;
      && k in s.ix.filled && k != s.ix.open && Low(s.ix) <= k < s.ix.high && k < s.ix.count
      && SameEntry(s.ix, r, k) && ValueOk(s.ix, k)
  {
    assert IndexInv(s, x);
    HeaderSees(s.ix, r, x / BLOCK_SIZE);
  }

  lemma TailFits(s: State, t: nat)
    requires SubQueue.Inv(s) && t < |s.pcs| && s.pcs[t].LoadTail?
    ensures var p := s.pcs[t]; var m := if p.r + 1 < |s.ix.headers| then Last(s.ix, p.r) else s.ix.count - 1;
      p.r < |s.ix.headers| && PathOk(s.ix, LoadKey(p.i, p.end, p.r, s.ix.headers[p.r].tail, m))
  {
    var p := s.pcs[t];
    assert ConsumerInv(s, t);
    TailOfHeader(s.ix, p.r);
    ClaimedBlock(s, p.end - 1, p.r);
  }

  /** The lookup lands on the position of the claimed block. */
  lemma LookupLands(s: State, t: nat)
    requires SubQueue.Inv(s) && t < |s.pcs| && s.pcs[t].LoadKey?
    ensures var p := s.pcs[t];
      && p.r < |s.ix.headers| && p.tail < s.ix.headers[p.r].capacity
      && LookupPos(s.ix.headers[p.r], p.tail, EntryAt(s, p.r, p.tail).key, p.i / BLOCK_SIZE * BLOCK_SIZE)
         == Pos(s.ix.headers[p.r], p.i / BLOCK_SIZE)
      && Knows(s.ix, p.r, (p.end - 1) / BLOCK_SIZE)
  {
    var p := s.pcs[t];
    var k := p.i / BLOCK_SIZE;
    assert CanSee(s.ix, p.r, k, p.m) && k in s.ix.filled && k != s.ix.open && At(s.ix, p.r, p.tail, p.m)
           && Knows(s.ix, p.r, (p.end - 1) / BLOCK_SIZE) by {
      assert ConsumerInv(s, t);
      ClaimedBlock(s, p.i, p.r);
    }
    LookupAt(s.ix, p.r, k, p.m, p.tail);
  }

  lemma LookupAt(ix: Index, r: nat, k: nat, m: int, tail: nat)
    requires BlockIndex.Inv(ix) && CanSee(ix, r, k, m) && k in ix.filled && k != ix.open && At(ix, r, tail, m)
    ensures var h := ix.headers[r];
      && |h.index| == h.capacity && tail < h.capacity && h.index[tail] < |ix.entries|
      && LookupPos(h, tail, ix.entries[h.index[tail]].key, BLOCK_SIZE * k) == Pos(h, k)
  {
    LookupFinds(ix, r, k, m);
  }

  /** The entry found there holds the block that serves the claimed index. */
  lemma FoundBlock(s: State, t: nat)
    requires SubQueue.Inv(s) && t < |s.pcs| && s.pcs[t].LoadBlock?
    ensures var p := s.pcs[t]; var k := p.i / BLOCK_SIZE;
      && p.r < |s.ix.headers| && p.pos < s.ix.headers[p.r].capacity
      && k in s.ix.filled && EntryAt(s, p.r, p.pos).value == To(s.ix.filled[k])
  {
    var p := s.pcs[t];
    assert ConsumerInv(s, t);
    ClaimedBlock(s, p.i, p.r);
  }

  lemma LoadHeaderStep(s: State, t: nat, c: Choice)
    requires SubQueue.Inv(s) && ConsumerEnabled(s, t, c) && s.pcs[t].LoadHeader?
    ensures SubQueue.Inv(ConsumerStep(s, t, c))
  {
    var s' := ConsumerStep(s, t, c);
    assert ConsumerInv(s, t);
    assert ClaimOk(s', t);
    WalkStep(s, s', t);
  }

  lemma LoadTailLands(s: State, t: nat, c: Choice)
    requires ConsumerEnabled(s, t, c) && s.pcs[t].LoadTail? && ConsumerInv(s, t)
    requires var p := s.pcs[t]; var m := if p.r + 1 < |s.ix.headers| then Last(s.ix, p.r) else s.ix.count - 1;
      PathOk(s.ix, LoadKey(p.i, p.end, p.r, s.ix.headers[p.r].tail, m))
    ensures OnlyWalks(s, ConsumerStep(s, t, c), t) && ConsumerInv(ConsumerStep(s, t, c), t)
  {
    assert ClaimOk(ConsumerStep(s, t, c), t);
  }

  lemma LoadTailStep(s: State, t: nat, c: Choice)
    requires SubQueue.Inv(s) && ConsumerEnabled(s, t, c) && s.pcs[t].LoadTail?
    ensures SubQueue.Inv(ConsumerStep(s, t, c))
  {
    TailFits(s, t);
    assert ConsumerInv(s, t);
    LoadTailLands(s, t, c);
    WalkStep(s, ConsumerStep(s, t, c), t);
  }

  lemma LoadKeyStep(s: State, t: nat, c: Choice)
    requires SubQueue.Inv(s) && ConsumerEnabled(s, t, c) && s.pcs[t].LoadKey?
    ensures SubQueue.Inv(ConsumerStep(s, t, c))
  {
    var s' := ConsumerStep(s, t, c);
    LookupLands(s, t);
    assert ConsumerInv(s, t);
    assert ClaimOk(s', t);
    WalkStep(s, s', t);
  }

  lemma LoadBlockLands(s: State, t: nat, c: Choice)
    requires ConsumerEnabled(s, t, c) && s.pcs[t].LoadBlock? && ConsumerInv(s, t)
    requires var p := s.pcs[t]; var k := p.i / BLOCK_SIZE;
      k in s.ix.filled && EntryAt(s, p.r, p.pos).value == To(s.ix.filled[k])
    ensures OnlyWalks(s, ConsumerStep(s, t, c), t) && ConsumerInv(ConsumerStep(s, t, c), t)
  {
    assert ClaimOk(ConsumerStep(s, t, c), t);
  }

  lemma LoadBlockStep(s: State, t: nat, c: Choice)
    requires SubQueue.Inv(s) && ConsumerEnabled(s, t, c) && s.pcs[t].LoadBlock?
    ensures SubQueue.Inv(ConsumerStep(s, t, c))
  {
    FoundBlock(s, t);
    assert ConsumerInv(s, t);
    LoadBlockLands(s, t, c);
    WalkStep(s, ConsumerStep(s, t, c), t);
  }

  // ---- Proof: claiming, moving elements out ----------------------------------------------

  ghost predicate Claims(s: State, s': State, t: nat, n: nat) {
    && t < |s.pcs| && s.pcs[t].Away? && n > 0 && s.head + n <= s.tail
    && s' == s.(pcs := s.pcs[t := LoadHeader(s.head, s.head + n)], head := s.head + n,
                owner := s.owner + seq(n, _ => t))
  }

  lemma ClaimKeepsConsumer(s: State, s': State, t: nat, n: nat, u: nat)
    requires Claims(s, s', t, n) && Sizes(s) && u < |s.pcs| && ConsumerInv(s, u)
    ensures ConsumerInv(s', u)
  {
    assert ClaimOk(s', u);
  }

  lemma ClaimKeepsPlace(s: State, s': State, t: nat, n: nat, b: Block)
    requires Claims(s, s', t, n) && b < |s.mem| == |s.place| && PlaceInv(s, b)
    ensures PlaceInv(s', b)
  {
  }

  lemma ClaimKeepsIndex(s: State, s': State, t: nat, n: nat, x: nat)
    requires Claims(s, s', t, n) && Sizes(s) && x < s.tail && IndexInv(s, x)
    ensures IndexInv(s', x)
  {
  }

  lemma ClaimInv(s: State, s': State, t: nat, n: nat)
    requires SubQueue.Inv(s) && Claims(s, s', t, n)
    ensures SubQueue.Inv(s')
  {
    WalkKeepsProducer(s, s');
    forall b | 0 <= b < |s'.mem| ensures PlaceInv(s', b) { ClaimKeepsPlace(s, s', t, n, b); }
    forall k | k in s'.ix.filled ensures BlockInv(s', k) { ClaimKeepsBlock(s, s', t, n, k); }
    forall x | 0 <= x < s'.tail ensures IndexInv(s', x) { ClaimKeepsIndex(s, s', t, n, x); }
    forall u | 0 <= u < |s'.pcs| ensures ConsumerInv(s', u) { ClaimKeepsConsumer(s, s', t, n, u); }
  }

  lemma ClaimKeepsBlock(s: State, s': State, t: nat, n: nat, k: nat)
    requires Claims(s, s', t, n) && k in s.ix.filled && BlockInv(s, k)
    ensures BlockInv(s', k)
  {
  }

  lemma ClaimStep(s: State, t: nat, c: Choice)
    requires SubQueue.Inv(s) && ConsumerEnabled(s, t, c) && s.pcs[t].Away?
    ensures SubQueue.Inv(ConsumerStep(s, t, c))
  {
    ClaimInv(s, ConsumerStep(s, t, c), t, c.count);
  }

  /** Thread `t` moved the element of index `x` out of block `b`. */
  ghost predicate MovesOut(s: State, s': State, t: nat, x: nat, b: Block) {
    && t < |s.pcs| && s.pcs[t].Move? && x == s.pcs[t].i < s.pcs[t].stop && b == s.pcs[t].block
    && b < |s.mem| && |s.mem[b].cells| == BLOCK_SIZE && s.mem[b].cells[x % BLOCK_SIZE].Holds?
    && var p := s.pcs[t];
    s' == s.(pcs := s.pcs[t := Move(x + 1, p.start, p.stop, p.end, p.r, p.pos, b)],
             mem := s.mem[b := s.mem[b].(cells := s.mem[b].cells[x % BLOCK_SIZE := Raw])],
             out := s.out[x := s.mem[b].cells[x % BLOCK_SIZE].item])
  }

  lemma MoveKeepsPlace(s: State, s': State, t: nat, x: nat, b: Block, y: Block)
    requires MovesOut(s, s', t, x, b) && y < |s.mem| == |s.place| && PlaceInv(s, y)
    ensures PlaceInv(s', y)
  {
  }

  lemma MoveKeepsBlock(s: State, s': State, t: nat, x: nat, b: Block, k: nat)
    requires MovesOut(s, s', t, x, b) && x < |s.items| == s.tail && k in s.ix.filled && BlockInv(s, k)
    requires x / BLOCK_SIZE in s.ix.filled && s.ix.filled[x / BLOCK_SIZE] == b && BlockInv(s, x / BLOCK_SIZE)
    ensures BlockInv(s', k)
  {
    if k != x / BLOCK_SIZE { BlocksDiffer(s, k, x / BLOCK_SIZE); }
    forall o | 0 <= o < BLOCK_SIZE
      ensures s'.mem[s.ix.filled[k]].cells[o] == Expected(s', BLOCK_SIZE * k + o)
    {
      assert s.mem[s.ix.filled[k]].cells[o] == Expected(s, BLOCK_SIZE * k + o);
    }
  }

  /** What is about to be moved out is the element that was enqueued at that index. */
  lemma MovedItem(s: State, t: nat)
    requires SubQueue.Inv(s) && t < |s.pcs| && s.pcs[t].Move? && s.pcs[t].i < s.pcs[t].stop
    ensures var p := s.pcs[t];
      && p.i < s.head <= s.tail && p.i !in s.out && p.i !in s.done && s.owner[p.i] == t
      && p.i / BLOCK_SIZE in s.ix.filled && s.ix.filled[p.i / BLOCK_SIZE] == p.block
      && p.block < |s.mem| && |s.mem[p.block].cells| == BLOCK_SIZE
      && s.mem[p.block].cells[p.i % BLOCK_SIZE] == Holds(s.items[p.i])
  {
    var p := s.pcs[t];
    assert ConsumerInv(s, t);
    var k := p.i / BLOCK_SIZE;
    assert k == p.start / BLOCK_SIZE;
    assert BlockInv(s, k);
    assert s.mem[p.block].cells[p.i % BLOCK_SIZE] == Expected(s, BLOCK_SIZE * k + p.i % BLOCK_SIZE);
  }

  lemma MoveKeepsIndex(s: State, s': State, t: nat, x: nat, b: Block, y: nat)
    requires MovesOut(s, s', t, x, b) && Sizes(s) && y < s.tail && IndexInv(s, y)
    requires x < s.head && s.mem[b].cells[x % BLOCK_SIZE] == Holds(s.items[x])
    ensures IndexInv(s', y)
  {
  }

  lemma MoverKeepsClaim(s: State, s': State, t: nat, x: nat, b: Block)
    requires MovesOut(s, s', t, x, b) && ConsumerInv(s, t)
    ensures ConsumerInv(s', t)
  {
    assert ClaimOk(s', t);
  }

  lemma MoveKeepsConsumer(s: State, s': State, t: nat, x: nat, b: Block, u: nat)
    requires MovesOut(s, s', t, x, b) && u < |s.pcs| && u != t && ConsumerInv(s, u)
    requires x < |s.owner| && s.owner[x] == t
    ensures ConsumerInv(s', u)
  {
    assert ClaimOk(s', u);
  }

  lemma MoveStep(s: State, s': State, t: nat)
    requires SubQueue.Inv(s) && t < |s.pcs| && s.pcs[t].Move? && MovesOut(s, s', t, s.pcs[t].i, s.pcs[t].block)
    ensures SubQueue.Inv(s')
  {
    var x, b := s.pcs[t].i, s.pcs[t].block;
    MovedItem(s, t);
    MoveKeepsProducer(s, s');
    forall y | 0 <= y < |s'.mem| ensures PlaceInv(s', y) { MoveKeepsPlace(s, s', t, x, b, y); }
    forall k | k in s'.ix.filled ensures BlockInv(s', k) {
      assert BlockInv(s, x / BLOCK_SIZE);
      MoveKeepsBlock(s, s', t, x, b, k);
    }
    forall y | 0 <= y < s'.tail ensures IndexInv(s', y) { MoveKeepsIndex(s, s', t, x, b, y); }
    forall u | 0 <= u < |s'.pcs| ensures ConsumerInv(s', u) {
      if u == t {
        assert ConsumerInv(s, t);
        MoverKeepsClaim(s, s', t, x, b);
      } else {
        MoveKeepsConsumer(s, s', t, x, b, u);
      }
    }
  }

  /** The producer's facts need its own blocks' memory only for the block it is about to store. */
  lemma MoveKeepsProducer(s: State, s': State)
    requires ProducerInv(s) && s' == s.(pcs := s'.pcs, mem := s'.mem, out := s'.out, done := s'.done, place := s'.place)
    requires |s'.mem| == |s.mem| == |s.place| == |s'.place|
    requires forall b :: 0 <= b < |s.mem| && s.place[b] == WithProducer ==>
        s'.place[b] == WithProducer && s'.mem[b].dequeued == s.mem[b].dequeued
    ensures ProducerInv(s')
  {
    var chain := ChainOf(s.prod);
    forall j | FirstServing(s.prod) <= j < |chain| ensures ServesChain(s', j) { assert ServesChain(s, j); }
    forall j | FirstHeld(s.prod) <= j < FirstServing(s.prod) && j < |chain| ensures HasBlock(s', chain[j]) {
      assert HasBlock(s, chain[j]);
    }
  }

  // ---- Proof: finishing a chunk ----------------------------------------------------------

  lemma {:induction false} AddDone(done: set<nat>, lo: nat, hi: nat, base: nat, n: nat)
    requires base <= lo <= hi <= base + n
    requires forall x :: lo <= x < hi ==> x !in done
    ensures DoneCount(done + Range(lo, hi), base, n) == DoneCount(done, base, n) + (hi - lo)
  {
    if n > 0 {
      if hi == base + n && lo < hi {
        AddDone(done, lo, hi - 1, base, n - 1);
        SameDone(done + Range(lo, hi), done + Range(lo, hi - 1), base, n - 1);
      } else if hi < base + n {
        AddDone(done, lo, hi, base, n - 1);
      } else {
        SameDone(done + Range(lo, hi), done, base, n);
      }
    }
  }

  /** The count looks at nothing outside its range. */
  lemma {:induction false} SameDone(a: set<nat>, b: set<nat>, base: nat, n: nat)
    requires forall x :: base <= x < base + n ==> (x in a <==> x in b)
    ensures DoneCount(a, base, n) == DoneCount(b, base, n)
  {
    if n > 0 { SameDone(a, b, base, n - 1); }
  }

  lemma {:induction false} AllDone(done: set<nat>, base: nat, n: nat, x: nat)
    requires DoneCount(done, base, n) == n && base <= x < base + n
    ensures x in done
  {
    DoneCountBound(done, base, n - 1);
    if x < base + n - 1 { AllDone(done, base, n - 1, x); }
  }

  /** Thread `t` reports its chunk `[start, stop)` of block `b` empty. */
  ghost predicate Finishes(s: State, s': State, t: nat, b: Block) {
    && t < |s.pcs| == |s'.pcs| && s.pcs[t].Move? && s.pcs[t].i == s.pcs[t].stop && b == s.pcs[t].block
    && b < |s.mem| == |s.place| && s.pcs[t].start <= s.pcs[t].stop
    && var p := s.pcs[t];
    var n := s.mem[b].dequeued + (p.stop - p.start);
    && s' == s.(pcs := s.pcs[t := s'.pcs[t]],
                mem := s.mem[b := s.mem[b].(dequeued := n)],
                done := s.done + Range(p.start, p.stop),
                place := if n == BLOCK_SIZE then s.place[b := Clearing(p.start / BLOCK_SIZE, t)] else s.place)
    && (if n == BLOCK_SIZE then s'.pcs[t] == Clear(p.i, p.end, p.r, p.pos, b)
        else !s'.pcs[t].Clear? && !s'.pcs[t].Free?)
    && forall x :: p.stop <= x < p.end ==> Pending(s'.pcs[t], x)
  }

  lemma ChunkFacts(s: State, t: nat)
    requires SubQueue.Inv(s) && t < |s.pcs| && s.pcs[t].Move?
    ensures var p := s.pcs[t]; var k := p.start / BLOCK_SIZE;
      && k in s.ix.filled && s.ix.filled[k] == p.block && BlockInv(s, k) && PlaceInv(s, p.block)
      && s.place[p.block] == Serving(k)
      && BLOCK_SIZE * k <= p.start < p.stop <= BLOCK_SIZE * k + BLOCK_SIZE
      && p.stop <= p.end <= s.head
      && (forall x :: p.start <= x < p.end ==> s.owner[x] == t && x !in s.done)
  {
    var p := s.pcs[t];
    assert ConsumerInv(s, t);
    assert BlockInv(s, p.start / BLOCK_SIZE);
    UnfinishedServes(s, p.start);
    assert PlaceInv(s, p.block);
  }

  lemma FinishKeepsBlock(s: State, s': State, t: nat, b: Block, k: nat)
    requires Finishes(s, s', t, b) && k in s.ix.filled && BlockInv(s, k)
    requires var p := s.pcs[t]; var j := p.start / BLOCK_SIZE;
      && j in s.ix.filled && s.ix.filled[j] == b && BlockInv(s, j) && s.place[b] == Serving(j)
      && BLOCK_SIZE * j <= p.start < p.stop <= BLOCK_SIZE * j + BLOCK_SIZE
      && (forall x :: p.start <= x < p.stop ==> x !in s.done)
    ensures BlockInv(s', k)
  {
    var p := s.pcs[t];
    var j := p.start / BLOCK_SIZE;
    if k == j {
      AddDone(s.done, p.start, p.stop, BLOCK_SIZE * k, BLOCK_SIZE);
      DoneCountBound(s'.done, BLOCK_SIZE * k, BLOCK_SIZE);
    } else {
      BlocksDiffer(s, k, j);
      SameDone(s'.done, s.done, BLOCK_SIZE * k, BLOCK_SIZE);
    }
    forall o | 0 <= o < BLOCK_SIZE
      ensures s'.mem[s.ix.filled[k]].cells[o] == Expected(s', BLOCK_SIZE * k + o)
    {
      assert s.mem[s.ix.filled[k]].cells[o] == Expected(s, BLOCK_SIZE * k + o);
    }
  }

  lemma FinishKeepsOtherPlaces(s: State, s': State, t: nat, b: Block, y: Block)
    requires Finishes(s, s', t, b) && y < |s.mem| && PlaceInv(s, y) && (y != b || s'.place[b] == s.place[b])
    requires s.place[b].Serving?
    ensures PlaceInv(s', y)
  {
  }

  lemma FinishKeepsIndex(s: State, s': State, t: nat, b: Block, x: nat)
    requires Finishes(s, s', t, b) && Sizes(s) && x < s.tail && IndexInv(s, x)
    requires s.pcs[t].start <= x < s.pcs[t].stop ==> x in s.out
    ensures IndexInv(s', x)
  {
  }

  lemma FinishKeepsConsumer(s: State, s': State, t: nat, b: Block, u: nat)
    requires Finishes(s, s', t, b) && u < |s.pcs| && u != t && ConsumerInv(s, u)
    requires s.place[b].Serving? && s.pcs[t].stop <= |s.owner|
    requires forall x :: s.pcs[t].start <= x < s.pcs[t].stop ==> s.owner[x] == t
    ensures ConsumerInv(s', u)
  {
    assert forall x: nat :: x < |s.owner| && s.owner[x] == u ==> (x in s'.done <==> x in s.done);
    if s.pcs[u].Move? {
      FinishKeepsMover(s, s', u);
    } else {
      FinishKeepsLooker(s, s', u, b);
    }
  }

  /** A consumer's claim depends on what is finished among its own indices only. */
  lemma FinishKeepsMover(s: State, s': State, u: nat)
    requires u < |s.pcs| == |s'.pcs| && s'.pcs[u] == s.pcs[u] && s.pcs[u].Move? && ClaimOk(s, u)
    requires s' == s.(pcs := s'.pcs, mem := s'.mem, done := s'.done, place := s'.place)
    requires forall x: nat :: x < |s.owner| && s.owner[x] == u ==> (x in s'.done <==> x in s.done)
    ensures ClaimOk(s', u)
  {
  }

  lemma FinishKeepsLooker(s: State, s': State, u: nat, b: Block)
    requires u < |s.pcs| == |s'.pcs| && s'.pcs[u] == s.pcs[u] && !s.pcs[u].Move? && ClaimOk(s, u)
    requires s' == s.(pcs := s'.pcs, mem := s'.mem, done := s'.done, place := s'.place)
    requires |s'.place| == |s.place| && b < |s.place| && s.place[b].Serving?
    requires forall y :: 0 <= y < |s.place| && y != b ==> s'.place[y] == s.place[y]
    requires forall x: nat :: x < |s.owner| && s.owner[x] == u ==> (x in s'.done <==> x in s.done)
    ensures ClaimOk(s', u)
  {
  }

  /** A block whose count is full holds nothing any more. */
  lemma FullCountIsClean(s: State, k: nat)
    requires Sizes(s) && k in s.ix.filled && BlockInv(s, k) && s.mem[s.ix.filled[k]].dequeued == BLOCK_SIZE
    requires forall x :: 0 <= x < s.tail ==> IndexInv(s, x)
    ensures Clean(s.mem[s.ix.filled[k]]) && BLOCK_SIZE * k + BLOCK_SIZE <= s.head
    ensures forall x :: BLOCK_SIZE * k <= x < BLOCK_SIZE * k + BLOCK_SIZE ==> x in s.done
  {
    var b := s.ix.filled[k];
    forall x | BLOCK_SIZE * k <= x < BLOCK_SIZE * k + BLOCK_SIZE ensures x in s.done && x < s.head && x in s.out {
      AllDone(s.done, BLOCK_SIZE * k, BLOCK_SIZE, x);
      assert IndexInv(s, x);
    }
    forall o | 0 <= o < BLOCK_SIZE ensures s.mem[b].cells[o] == Raw {
      assert s.mem[b].cells[o] == Expected(s, BLOCK_SIZE * k + o);
    }
  }

  lemma FinishKeepsOthers(s: State, s': State, t: nat)
    requires SubQueue.Inv(s) && t < |s.pcs| && s.pcs[t].Move? && Finishes(s, s', t, s.pcs[t].block)
    ensures forall x :: 0 <= x < s'.tail ==> IndexInv(s', x)
    ensures forall u :: 0 <= u < |s'.pcs| && u != t ==> ConsumerInv(s', u)
  {
    var p := s.pcs[t];
    ChunkFacts(s, t);
    assert ConsumerInv(s, t);
    forall x | 0 <= x < s'.tail ensures IndexInv(s', x) { FinishKeepsIndex(s, s', t, p.block, x); }
    forall u | 0 <= u < |s'.pcs| && u != t ensures ConsumerInv(s', u) { FinishKeepsConsumer(s, s', t, p.block, u); }
  }

  lemma FinishKeepsBase(s: State, s': State, t: nat)
    requires SubQueue.Inv(s) && t < |s.pcs| && s.pcs[t].Move? && Finishes(s, s', t, s.pcs[t].block)
    ensures Sizes(s') && ProducerInv(s')
    ensures forall k :: k in s'.ix.filled ==> BlockInv(s', k)
  {
    var p := s.pcs[t];
    ChunkFacts(s, t);
    MoveKeepsProducer(s, s');
    forall k | k in s'.ix.filled ensures BlockInv(s', k) { FinishKeepsBlock(s, s', t, p.block, k); }
  }

  lemma FinishStep(s: State, s': State, t: nat)
    requires SubQueue.Inv(s) && t < |s.pcs| && s.pcs[t].Move? && Finishes(s, s', t, s.pcs[t].block)
    requires ConsumerInv(s', t)
    ensures SubQueue.Inv(s')
  {
    var p := s.pcs[t];
    var k := p.start / BLOCK_SIZE;
    ChunkFacts(s, t);
    FinishKeepsBase(s, s', t);
    FinishKeepsOthers(s, s', t);
    assert BlockInv(s', k);
    forall y | 0 <= y < |s'.mem| ensures PlaceInv(s', y) {
      assert PlaceInv(s, y);
      if y == p.block && s'.pcs[t].Clear? {
        FullCountIsClean(s', k);
      } else {
        FinishKeepsOtherPlaces(s, s', t, p.block, y);
      }
    }
  }

  /** After a chunk the next position is the next block's. */
  lemma ProceedFits(s: State, s': State, t: nat, i: nat, end: nat, r: nat, pos: nat)
    requires Shaped(s.ix) && r < |s.ix.headers|
    requires t < |s'.pcs| && s'.ix == s.ix && s'.pcs[t] == Proceed(s, i, end, r, pos)
    requires 0 < i <= end && Untouched(s', t, i, end) && (i < end ==> i % BLOCK_SIZE == 0)
    requires Knows(s.ix, r, (end - 1) / BLOCK_SIZE) && At(s.ix, r, pos, (i - 1) / BLOCK_SIZE)
    ensures ConsumerInv(s', t) && forall x :: i <= x < end ==> Pending(s'.pcs[t], x)
    ensures !s'.pcs[t].Clear? && !s'.pcs[t].Free?
  {
    PosNext(s.ix.headers[r], (i - 1) / BLOCK_SIZE);
    assert i < end ==> (i - 1) / BLOCK_SIZE + 1 == i / BLOCK_SIZE;
    assert ClaimOk(s', t);
  }

  ghost function Finished(s: State, t: nat): Consumer
    requires Shaped(s.ix) && t < |s.pcs| && s.pcs[t].Move? && s.pcs[t].r < |s.ix.headers|
    requires s.pcs[t].block < |s.mem| && s.pcs[t].start <= s.pcs[t].stop
  {
    var p := s.pcs[t];
    if s.mem[p.block].dequeued + (p.stop - p.start) == BLOCK_SIZE then Clear(p.i, p.end, p.r, p.pos, p.block)
    else Proceed(s, p.i, p.end, p.r, p.pos)
  }

  ghost predicate Reports(s: State, s': State, t: nat) {
    && Shaped(s.ix) && |s.place| == |s.mem| && t < |s.pcs| && s.pcs[t].Move? && s.pcs[t].i == s.pcs[t].stop
    && s.pcs[t].r < |s.ix.headers| && s.pcs[t].block < |s.mem| && s.pcs[t].start <= s.pcs[t].stop
    && var p := s.pcs[t];
    var n := s.mem[p.block].dequeued + (p.stop - p.start);
    s' == s.(pcs := s.pcs[t := Finished(s, t)],
             mem := s.mem[p.block := s.mem[p.block].(dequeued := n)],
             done := s.done + Range(p.start, p.stop),
             place := if n == BLOCK_SIZE then s.place[p.block := Clearing(p.start / BLOCK_SIZE, t)] else s.place)
  }

  lemma FinishLands(s: State, s': State, t: nat)
    requires Reports(s, s', t) && ConsumerInv(s, t)
    ensures ConsumerInv(s', t) && Finishes(s, s', t, s.pcs[t].block)
  {
    var p := s.pcs[t];
    assert Untouched(s', t, p.i, p.end);
    assert (p.i - 1) / BLOCK_SIZE == p.start / BLOCK_SIZE;
    if s'.pcs[t].Clear? {
      assert ClaimOk(s', t);
    } else {
      ProceedFits(s, s', t, p.i, p.end, p.r, p.pos);
    }
  }

  lemma ReportStep(s: State, s': State, t: nat)
    requires SubQueue.Inv(s) && Reports(s, s', t)
    ensures SubQueue.Inv(s')
  {
    assert ConsumerInv(s, t);
    FinishLands(s, s', t);
    FinishStep(s, s', t);
  }

  lemma MoveOrFinishStep(s: State, t: nat, c: Choice)
    requires SubQueue.Inv(s) && ConsumerEnabled(s, t, c) && s.pcs[t].Move?
    ensures SubQueue.Inv(ConsumerStep(s, t, c))
  {
    var s' := ConsumerStep(s, t, c);
    if s.pcs[t].i < s.pcs[t].stop {
      MoveStep(s, s', t);
    } else {
      assert s.pcs[t].i == s.pcs[t].stop by { assert ConsumerInv(s, t); }
      ReportStep(s, s', t);
    }
  }

  // ---- Proof: giving an emptied block back ------------------------------------------------

  ghost predicate Clears(s: State, s': State, t: nat, k: nat, b: Block) {
    && t < |s.pcs| && s.pcs[t].Clear? && 0 < s.pcs[t].i && k == (s.pcs[t].i - 1) / BLOCK_SIZE && b == s.pcs[t].block
    && b < |s.mem| == |s.place|
    && var p := s.pcs[t];
    && s' == s.(pcs := s.pcs[t := Free(p.i, p.end, p.r, p.pos, b)], place := s.place[b := Held(t)], ix := s'.ix)
    && s'.ix.filled == s.ix.filled - {k}
    && s'.ix.headers == s.ix.headers && s'.ix.high == s.ix.high && s'.ix.count == s.ix.count && s'.ix.open == s.ix.open
  }

  /** A block about to be cleared is full and every index of it is finished. */
  lemma ClearFacts(s: State, t: nat)
    requires SubQueue.Inv(s) && t < |s.pcs| && s.pcs[t].Clear?
    ensures var p := s.pcs[t]; 0 < p.i && var k, b := (p.i - 1) / BLOCK_SIZE, p.block;
      && b < |s.mem| && s.place[b] == Clearing(k, t) && PlaceInv(s, b)
      && k in s.ix.filled && s.ix.filled[k] == b && BlockInv(s, k)
      && BLOCK_SIZE * k + BLOCK_SIZE <= s.head
      && (forall x :: BLOCK_SIZE * k <= x < BLOCK_SIZE * k + BLOCK_SIZE ==> x in s.done)
  {
    var p := s.pcs[t];
    assert ConsumerInv(s, t);
    assert PlaceInv(s, p.block);
    var k := (p.i - 1) / BLOCK_SIZE;
    assert BlockInv(s, k);
    FullCountIsClean(s, k);
  }

  /** Emptying the entry of a block, through whichever header, keeps the index sound. */
  lemma EmptyEntry(ix: Index, r: nat, pos: nat, k: nat, ix': Index)
    requires BlockIndex.Inv(ix) && k in ix.filled && Knows(ix, r, k) && At(ix, r, pos, k)
    requires pos < |ix.headers[r].index| && ix.headers[r].index[pos] < |ix.entries|
    requires ix' == WriteValue(ix, ix.headers[r].index[pos], Null).(filled := ix.filled - {k})
    ensures BlockIndex.Inv(ix')
  {
    HeaderSees(ix, r, k);
    WriteValueKeepsInv(ix, k, Null, ix');
  }

  lemma ClearKeepsIndexTable(s: State, s': State, t: nat)
    requires BlockIndex.Inv(s.ix) && t < |s.pcs| && s.pcs[t].Clear? && PathOk(s.ix, s.pcs[t])
    requires var p := s.pcs[t];
      && p.i <= p.end && p.pos < s.ix.headers[p.r].capacity && (p.i - 1) / BLOCK_SIZE in s.ix.filled
      && s'.ix == WriteValue(s.ix, EntryIdAt(s, p.r, p.pos), Null).(filled := s.ix.filled - {(p.i - 1) / BLOCK_SIZE})
    ensures BlockIndex.Inv(s'.ix)
  {
    var p := s.pcs[t];
    assert ShapedHeader(s.ix, p.r);
    EmptyEntry(s.ix, p.r, p.pos, (p.i - 1) / BLOCK_SIZE, s'.ix);
  }

  lemma ClearKeepsPlace(s: State, s': State, t: nat, k: nat, b: Block, y: Block)
    requires Clears(s, s', t, k, b) && y < |s.mem| && PlaceInv(s, y) && PlaceInv(s, b)
    requires s.place[b] == Clearing(k, t) && s.ix.filled[k] == b
    ensures PlaceInv(s', y)
  {
  }

  lemma ClearKeepsConsumer(s: State, s': State, t: nat, k: nat, b: Block, u: nat)
    requires Clears(s, s', t, k, b) && u < |s.pcs| && ConsumerInv(s, u)
    requires s.place[b] == Clearing(k, t)
    requires forall x :: BLOCK_SIZE * k <= x < BLOCK_SIZE * k + BLOCK_SIZE ==> x in s.done
    requires !s.pcs[u].Away? ==> 0 < s.pcs[u].end && (s.pcs[u].end - 1) / BLOCK_SIZE < s.ix.high
    ensures ConsumerInv(s', u)
  {
    var p := s.pcs[u];
    assert PathOk(s'.ix, s.pcs[u]) by {
      SameHeaders(s.ix, s'.ix);
      PathStays(s.ix, s'.ix, s.pcs[u]);
    }
    if p.Move? {
      assert p.start !in s.done;
    }
    assert ClaimOk(s', u);
  }

  lemma ClearKeepsProducer(s: State, s': State, t: nat, k: nat, b: Block)
    requires Clears(s, s', t, k, b) && ProducerInv(s)
    requires s.place[b] == Clearing(k, t) && BLOCK_SIZE * k + BLOCK_SIZE <= s.tail && TestedOk(s')
    ensures ProducerInv(s')
  {
    var chain := ChainOf(s.prod);
    forall j | FirstServing(s.prod) <= j < |chain| ensures ServesChain(s', j) { assert ServesChain(s, j); }
    forall j | FirstHeld(s.prod) <= j < FirstServing(s.prod) && j < |chain| ensures HasBlock(s', chain[j]) {
      assert HasBlock(s, chain[j]);
    }
  }

  lemma ClearKeepsBlock(s: State, s': State, t: nat, k: nat, b: Block, j: nat)
    requires Clears(s, s', t, k, b) && j in s'.ix.filled && BlockInv(s, j) && s.place[b] == Clearing(k, t)
    ensures BlockInv(s', j)
  {
  }

  lemma ClearKeepsIndex(s: State, s': State, t: nat, k: nat, b: Block, x: nat)
    requires Clears(s, s', t, k, b) && Sizes(s) && x < s.tail && IndexInv(s, x)
    requires forall y :: BLOCK_SIZE * k <= y < BLOCK_SIZE * k + BLOCK_SIZE ==> y in s.done
    ensures IndexInv(s', x)
  {
  }

  lemma ClearInv(s: State, s': State, t: nat, k: nat, b: Block)
    requires SubQueue.Inv(s) && Clears(s, s', t, k, b) && BlockIndex.Inv(s'.ix) && TestedOk(s')
    ensures SubQueue.Inv(s')
  {
    ClearFacts(s, t);
    ClearKeepsProducer(s, s', t, k, b);
    forall y | 0 <= y < |s'.mem| ensures PlaceInv(s', y) { ClearKeepsPlace(s, s', t, k, b, y); }
    forall j | j in s'.ix.filled ensures BlockInv(s', j) { ClearKeepsBlock(s, s', t, k, b, j); }
    forall x | 0 <= x < s'.tail ensures IndexInv(s', x) { ClearKeepsIndex(s, s', t, k, b, x); }
    forall u | 0 <= u < |s'.pcs| ensures ConsumerInv(s', u) {
      assert ConsumerInv(s, u);
      if !s.pcs[u].Away? { ClaimBelowHigh(s, u); }
      ClearKeepsConsumer(s, s', t, k, b, u);
    }
  }

  lemma ClearStep(s: State, t: nat, c: Choice)
    requires SubQueue.Inv(s) && ConsumerEnabled(s, t, c) && s.pcs[t].Clear?
    ensures SubQueue.Inv(ConsumerStep(s, t, c))
  {
    var s' := ConsumerStep(s, t, c);
    var p := s.pcs[t];
    assert BlockIndex.Inv(s'.ix) by {
      ClearFacts(s, t);
      assert ConsumerInv(s, t);
      ClearKeepsIndexTable(s, s', t);
    }
    assert TestedOk(s') by { RoomStays(s.ix, EntryIdAt(s, p.r, p.pos), s'.ix.filled); }
    ClearInv(s, s', t, (p.i - 1) / BLOCK_SIZE, p.block);
  }

  ghost predicate Frees(s: State, s': State, t: nat, b: Block) {
    && t < |s.pcs| == |s'.pcs| && s.pcs[t].Free? && b == s.pcs[t].block && b < |s.mem| == |s.place|
    && s' == s.(pcs := s.pcs[t := s'.pcs[t]], place := s.place[b := InPool], pool := s.pool + multiset{b})
    && !s'.pcs[t].Clear? && !s'.pcs[t].Free?
    && s.place[b] == Held(t)
    && forall x :: Pending(s.pcs[t], x) ==> Pending(s'.pcs[t], x)
  }

  lemma FreeKeepsPlace(s: State, s': State, t: nat, b: Block, y: Block)
    requires Frees(s, s', t, b) && y < |s.mem| && PlaceInv(s, y)
    ensures PlaceInv(s', y)
  {
  }

  lemma FreeKeepsBlock(s: State, s': State, t: nat, b: Block, k: nat)
    requires Frees(s, s', t, b) && k in s.ix.filled && BlockInv(s, k)
    ensures BlockInv(s', k)
  {
  }

  lemma FreeKeepsConsumer(s: State, s': State, t: nat, b: Block, u: nat)
    requires Frees(s, s', t, b) && u < |s.pcs| && u != t && ConsumerInv(s, u)
    ensures ConsumerInv(s', u)
  {
    assert ClaimOk(s', u);
  }

  lemma FreeKeepsProducer(s: State, s': State, t: nat, b: Block)
    requires Frees(s, s', t, b) && ProducerInv(s)
    ensures ProducerInv(s')
  {
    var chain := ChainOf(s.prod);
    forall j | FirstServing(s.prod) <= j < |chain| ensures ServesChain(s', j) { assert ServesChain(s, j); }
    forall j | FirstHeld(s.prod) <= j < FirstServing(s.prod) && j < |chain| ensures HasBlock(s', chain[j]) {
      assert HasBlock(s, chain[j]);
    }
  }

  lemma FreeInv(s: State, s': State, t: nat, b: Block)
    requires SubQueue.Inv(s) && Frees(s, s', t, b) && ConsumerInv(s', t)
    ensures SubQueue.Inv(s')
  {
    FreeKeepsProducer(s, s', t, b);
    forall y | 0 <= y < |s'.mem| ensures PlaceInv(s', y) { FreeKeepsPlace(s, s', t, b, y); }
    forall k | k in s'.ix.filled ensures BlockInv(s', k) { FreeKeepsBlock(s, s', t, b, k); }
    forall x | 0 <= x < s'.tail ensures IndexInv(s', x) { assert IndexInv(s, x); }
    forall u | 0 <= u < |s'.pcs| ensures ConsumerInv(s', u) { if u != t { FreeKeepsConsumer(s, s', t, b, u); } }
  }

  lemma FreeStep(s: State, t: nat, c: Choice)
    requires SubQueue.Inv(s) && ConsumerEnabled(s, t, c) && s.pcs[t].Free?
    ensures SubQueue.Inv(ConsumerStep(s, t, c))
  {
    var s' := ConsumerStep(s, t, c);
    var p := s.pcs[t];
    assert ConsumerInv(s, t);
    ProceedFits(s, s', t, p.i, p.end, p.r, p.pos);
    FreeInv(s, s', t, p.block);
  }

  /** Every step of every consumer keeps the invariant. */
  lemma ConsumerStepKeepsInv(s: State, t: nat, c: Choice)
    requires SubQueue.Inv(s) && ConsumerEnabled(s, t, c)
    ensures SubQueue.Inv(ConsumerStep(s, t, c))
  {
    match s.pcs[t] {
      case Away => ClaimStep(s, t, c);
      case LoadHeader(_, _) => LoadHeaderStep(s, t, c);
      case LoadTail(_, _, _) => LoadTailStep(s, t, c);
      case LoadKey(_, _, _, _, _) => LoadKeyStep(s, t, c);
      case LoadBlock(_, _, _, _) => LoadBlockStep(s, t, c);
      case Move(_, _, _, _, _, _, _) => MoveOrFinishStep(s, t, c);
      case Clear(_, _, _, _, _) => ClearStep(s, t, c);
      case Free(_, _, _, _, _) => FreeStep(s, t, c);
    }
  }
}
