/** The sub-queue's calls end, within a number of their own steps that depends on nothing but the
    number of elements, and deliver what was asked for. */
module SubQueueProgress {
  import opened Basics
  import opened BlockIndex
  import opened SubQueue
  import SubQueueProducer
  import opened SubQueueConsumers
  import opened SubQueueRuns

  // ---- The producer -------------------------------------------------------------------------

  /** An upper bound on the producer's own steps until its operation returns, if the operation
      needs `need` blocks. */
  ghost function Work(p: Producer, need: nat): int {
    match p
    case Rest => 0
    case Allocate(xs, chain) => 11 * need - 8 * |chain| + |xs| + 2
    case TestEntry(xs, chain) => 11 * need - 8 * |chain| + |xs| + 1
    case GrowIndex(xs, chain) => 11 * need - 8 * |chain| + |xs|
    case StoreKey(xs, chain) => 11 * need - 8 * |chain| + |xs| - 1
    case StoreTail(xs, chain) => 11 * need - 8 * |chain| + |xs| - 2
    case Requisition(xs, chain) => 11 * need - 8 * |chain| + |xs| - 3
    case ResetEmpty(xs, chain, _) => 11 * need - 8 * |chain| + |xs| - 4
    case StoreBlock(xs, chain, _) => 11 * need - 8 * |chain| + |xs| - 5
    case Rewind(chain) => 3 * |chain| + 4
    case Forget(chain) => 3 * |chain| + 3
    case UndoValue(chain, j) => 3 * |chain| - 2 * j + 2
    case UndoTail(chain, j) => 3 * |chain| - 2 * j + 1
    case ReturnBlocks(chain, j) => |chain| - j + 1
    case Construct(xs, _, j) => |xs| - j + 1
  }

  /** An operation never has more blocks than it needs. */
  ghost predicate Within(p: Producer, need: nat) {
    match p
    case Rest => true
    case Allocate(_, chain) => |chain| <= need
    case Construct(xs, _, j) => j <= |xs|
    case UndoValue(chain, j) => j <= |chain|
    case UndoTail(chain, j) => j < |chain|
    case ReturnBlocks(chain, j) => j <= |chain|
    case Rewind(_) => true
    case Forget(_) => true
    case _ => |p.chain| < need
  }

  lemma WorkIsBound(p: Producer, need: nat)
    requires Within(p, need) && !p.Rest?
    ensures Work(p, need) > 0
  {
  }

  /** How one step takes an operation on. */
  ghost predicate Onward(p: Producer, p': Producer) {
    match p
    case Rest => false
    case Allocate(xs, chain) => p' == Construct(xs, chain, 0) || p' == TestEntry(xs, chain)
    case TestEntry(xs, chain) => p' == StoreKey(xs, chain) || p' == GrowIndex(xs, chain)
    case GrowIndex(xs, chain) => p' == StoreKey(xs, chain) || p' == UndoValue(chain, 0)
    case StoreKey(xs, chain) => p' == StoreTail(xs, chain)
    case StoreTail(xs, chain) => p' == Requisition(xs, chain)
    case Requisition(xs, chain) => p' == Rewind(chain) || (p'.ResetEmpty? && p'.xs == xs && p'.chain == chain)
    case ResetEmpty(xs, chain, b) => p' == StoreBlock(xs, chain, b)
    case StoreBlock(xs, chain, b) => p' == Allocate(xs, chain + [b])
    case Rewind(chain) => p' == Forget(chain)
    case Forget(chain) => p' == UndoValue(chain, 0)
    case UndoValue(chain, j) => p' == if j < |chain| then UndoTail(chain, j) else ReturnBlocks(chain, 0)
    case UndoTail(chain, j) => p' == UndoValue(chain, j + 1)
    case ReturnBlocks(chain, j) => p' == if j < |chain| then ReturnBlocks(chain, j + 1) else Rest
    case Construct(xs, chain, j) => p' == if j < |xs| then Construct(xs, chain, j + 1) else Rest
  }

  lemma ProducerOnward(s: State, c: Choice)
    requires ProducerEnabled(s, c) && !s.prod.Rest?
    requires s.prod.Allocate? ==> s.head < BLOCK_SIZE * s.ix.count + BLOCK_SIZE
    ensures Onward(s.prod, ProducerStep(s, c).prod)
  {
  }

  ghost predicate Spends(p: Producer, p': Producer, need: nat) {
    0 <= Work(p', need) < Work(p, need)
  }

  ghost predicate Lasts(p: Producer, need: nat, steps: int) {
    0 <= Work(p, need) <= steps
  }

  lemma OnwardWorks(p: Producer, p': Producer, need: nat)
    requires Onward(p, p') && Within(p, need) && Within(p', need)
    ensures Spends(p, p', need)
  {
  }

  /** The blocks that an operation with `n` elements needs beyond the published ones. */
  ghost function NewBlocks(tail: nat, n: nat): nat {
    Max(0, Blocks(tail + n) - Blocks(tail))
  }

  lemma EnqueuesWithin(s: State, xs: seq<Item>)
    requires CountOk(s) && Enqueues(s.prod, xs)
    ensures Within(s.prod, NewBlocks(s.tail, |xs|))
  {
  }

  /** The producer takes this step. */
  ghost predicate Produces(s: State, s': State) {
    exists c: Choice :: ProducerMoves(s, s', c)
  }

  /** How many of the steps from `r[lo]` to `r[hi]` are the producer's. */
  ghost function ProducerSteps(r: seq<State>, lo: nat, hi: nat): nat
    requires lo <= hi < |r|
  {
    if lo == hi then 0
    else ProducerSteps(r, lo, hi - 1) + (if Produces(r[hi - 1], r[hi]) then 1 else 0)
  }

  lemma OthersLeaveProducer(s: State, s': State)
    requires Next(s, s') && !Produces(s, s')
    ensures s'.prod == s.prod
  {
    if exists t: nat, c: Choice :: ConsumerMoves(s, s', t, c) {
      var t: nat, c: Choice :| ConsumerMoves(s, s', t, c);
      ConsumerKeepsPlaces(s, t, c);
    } else {
      var o: Other :| OthersMove(s, s', o);
      OthersFrame(s, o);
    }
  }

  lemma OnwardAt(r: seq<State>, i: nat)
    requires Run(r) && 0 < i < |r| && !r[i - 1].prod.Rest?
    ensures if Produces(r[i - 1], r[i]) then Onward(r[i - 1].prod, r[i].prod) else r[i].prod == r[i - 1].prod
  {
    if Produces(r[i - 1], r[i]) {
      var c: Choice :| ProducerMoves(r[i - 1], r[i], c);
      if r[i - 1].prod.Allocate? {
        RunInv(r, i - 1);
        SubQueueProducer.NeverFull(r[i - 1]);
      }
      ProducerOnward(r[i - 1], c);
    } else {
      assert StepAt(r, i);
      OthersLeaveProducer(r[i - 1], r[i]);
    }
  }

  /** An operation with the elements `xs`, at `s` since it was called at tail `tail`. */
  ghost predicate Busy(s: State, xs: seq<Item>, tail: nat) {
    CountOk(s) && s.tail == tail && Enqueues(s.prod, xs)
  }

  lemma BusyAt(r: seq<State>, i: nat, xs: seq<Item>, tail: nat)
    requires Run(r) && 0 < i < |r| && Busy(r[i - 1], xs, tail)
    ensures r[i].prod.Rest? || Busy(r[i], xs, tail)
  {
    OnTaskAt(r, i, xs);
    CountOkAt(r, i);
  }

  lemma BusyWorks(s: State, s': State, xs: seq<Item>)
    requires Busy(s, xs, s.tail) && (s'.prod.Rest? || Busy(s', xs, s.tail)) && Onward(s.prod, s'.prod)
    ensures Spends(s.prod, s'.prod, NewBlocks(s.tail, |xs|))
  {
    EnqueuesWithin(s, xs);
    if !s'.prod.Rest? { EnqueuesWithin(s', xs); }
    OnwardWorks(s.prod, s'.prod, NewBlocks(s.tail, |xs|));
  }

  /** From the call with the elements `xs` at `i`, still going on before `j`. */
  ghost predicate Underway(r: seq<State>, i: nat, j: nat, xs: seq<Item>) {
    i < j < |r| && Calls(r[i], r[i + 1], xs) && forall m :: i < m < j ==> r[m].prod != Rest
  }

  lemma StartsBusy(r: seq<State>, i: nat, xs: seq<Item>)
    requires Run(r) && i + 1 < |r| && Calls(r[i], r[i + 1], xs)
    ensures Busy(r[i + 1], xs, r[i].tail)
    ensures Lasts(r[i + 1].prod, NewBlocks(r[i].tail, |xs|), 11 * NewBlocks(r[i].tail, |xs|) + |xs| + 2)
  {
    CallEnters(r[i], r[i + 1], xs);
    CountOkAt(r, i + 1);
  }

  lemma {:induction false} WorkLeft(r: seq<State>, i: nat, j: nat, xs: seq<Item>)
    requires Run(r) && Underway(r, i, j, xs)
    ensures r[j].prod.Rest? || Busy(r[j], xs, r[i].tail)
    ensures var need := NewBlocks(r[i].tail, |xs|);
      Lasts(r[j].prod, need, 11 * need + |xs| + 2 - ProducerSteps(r, i + 1, j))
    decreases j
  {
    if j == i + 1 {
      StartsBusy(r, i, xs);
    } else {
      WorkLeft(r, i, j - 1, xs);
      BusyAt(r, j, xs, r[i].tail);
      OnwardAt(r, j);
      if Produces(r[j - 1], r[j]) { BusyWorks(r[j - 1], r[j], xs); }
    }
  }

  /** An enqueue is wait-free: whatever the consumers and the other producers do meanwhile, it
      returns after at most so many steps of its own. */
  lemma EnqueueIsWaitFree(r: seq<State>, i: nat, j: nat, xs: seq<Item>)
    requires Run(r) && Underway(r, i, j, xs)
    ensures ProducerSteps(r, i + 1, j) <= 11 * NewBlocks(r[i].tail, |xs|) + |xs| + 2
  {
    WorkLeft(r, i, j, xs);
  }

  /** What the environment answers if no allocation fails. */
  ghost function Grant(s: State): Choice
    requires s.ix.headers != []
  {
    match s.prod
    case GrowIndex(_, _) => Extend(seq(s.ix.Current().capacity, _ => Null))
    case Requisition(_, _) => Create
    case _ => Go
  }

  ghost predicate Granted(s: State, s': State) {
    s.ix.headers != [] && !s.prod.Rest? && ProducerMoves(s, s', Grant(s))
  }

  lemma ConstructGoesOn(s: State)
    requires SubQueue.Inv(s) && s.prod.Construct?
    ensures ProducerEnabled(s, Go)
  {
    if s.prod.j < |s.prod.xs| {
      SubQueueProducer.TargetServes(s);
      assert BlockInv(s, (s.tail + s.prod.j) / BLOCK_SIZE);
    }
  }

  lemma GrantPossible(s: State)
    requires SubQueue.Inv(s) && !s.prod.Rest? && !Undoing(s.prod)
    ensures s.ix.headers != [] && ProducerEnabled(s, Grant(s))
  {
    if s.prod.Construct? {
      ConstructGoesOn(s);
    } else if s.prod.ResetEmpty? || s.prod.StoreBlock? {
      assert HasBlock(s, s.prod.block);
    }
  }

  lemma GrantedIsNotUndone(s: State, s': State)
    requires Granted(s, s') && !Undoing(s.prod)
    requires s.prod.Allocate? ==> s.head < BLOCK_SIZE * s.ix.count + BLOCK_SIZE
    ensures !Undoing(s'.prod) && Onward(s.prod, s'.prod) && (s'.prod.Rest? ==> s.prod.Construct?)
  {
    ProducerOnward(s, Grant(s));
  }

  /** One more step of an operation that gets what it asks for. */
  lemma GrantedStep(s: State, xs: seq<Item>) returns (s': State)
    requires SubQueue.Inv(s) && Enqueues(s.prod, xs) && !Undoing(s.prod)
    ensures Granted(s, s') && SubQueue.Inv(s') && OnTask(s, s', xs)
    ensures !Undoing(s'.prod) && Onward(s.prod, s'.prod) && (s'.prod.Rest? ==> s.prod.Construct?)
  {
    GrantPossible(s);
    s' := ProducerStep(s, Grant(s));
    SubQueueProducer.ProducerStepKeepsInv(s, Grant(s));
    if s.prod.Allocate? { SubQueueProducer.NeverFull(s); }
    GrantedIsNotUndone(s, s');
    assert Next(s, s') by { assert ProducerMoves(s, s', Grant(s)); }
    OneStepOnTask(s, s', xs);
  }

  lemma {:induction false} Finish(s: State, xs: seq<Item>, tail: nat) returns (a: seq<State>)
    requires SubQueue.Inv(s) && Busy(s, xs, tail) && !Undoing(s.prod)
    ensures a != [] && a[0] == s && (forall m :: 0 < m < |a| ==> Granted(a[m - 1], a[m]))
    ensures a[|a| - 1].prod == Rest && a[|a| - 1].items == s.items + xs
    decreases Work(s.prod, NewBlocks(tail, |xs|))
  {
    var s' := GrantedStep(s, xs);
    if s'.prod.Rest? {
      a := [s, s'];
    } else {
      BusyWorks(s, s', xs);
      var b := Finish(s', xs, tail);
      a := [s] + b;
    }
  }

  /** Called on its own, with no allocation refused, an enqueue returns and has appended its elements. */
  lemma LoneEnqueueAppends(s: State, xs: seq<Item>) returns (a: seq<State>)
    requires SubQueue.Inv(s) && s.prod == Rest
    ensures |a| > 1 && a[0] == s && Calls(a[0], a[1], xs)
    ensures forall m :: 1 < m < |a| ==> Granted(a[m - 1], a[m])
    ensures a[|a| - 1].prod == Rest && a[|a| - 1].items == s.items + xs
  {
    var s' := ProducerStep(s, Enqueue(xs));
    SubQueueProducer.ProducerStepKeepsInv(s, Enqueue(xs));
    CallEnters(s, s', xs);
    var b := Finish(s', xs, s.tail);
    a := [s] + b;
  }

  // ---- The consumers ------------------------------------------------------------------------

  /** An upper bound on a consumer's own steps until it has delivered its whole claim. */
  ghost function Left(p: Consumer): int {
    match p
    case Away => 0
    case LoadHeader(i, end) => 5 * (end - i) + 3
    case LoadTail(i, end, _) => 5 * (end - i) + 2
    case LoadKey(i, end, _, _, _) => 5 * (end - i) + 1
    case LoadBlock(i, end, _, _) => 5 * (end - i)
    case Move(i, start, _, end, _, _, _) => if i == start then 5 * (end - i) - 1 else 5 * (end - i) + 3
    case Clear(i, end, _, _, _) => 5 * (end - i) + 2
    case Free(i, end, _, _, _) => 5 * (end - i) + 1
  }

  ghost predicate InClaim(p: Consumer) {
    match p
    case Away => true
    case Move(i, start, stop, end, _, _, _) => start <= i <= stop <= end && start < stop
    case Clear(i, end, _, _, _) => i <= end
    case Free(i, end, _, _, _) => i <= end
    case _ => p.i < p.end
  }

  /** On to the next block of the claim, or done. */
  ghost predicate Proceeds(p': Consumer, i: nat, end: nat) {
    if i == end then p' == Away else p'.LoadBlock? && p'.i == i && p'.end == end
  }

  /** How one step takes a consumer on. */
  ghost predicate Advances(p: Consumer, p': Consumer) {
    match p
    case Away => false
    case LoadHeader(i, end) => p'.LoadTail? && p'.i == i && p'.end == end
    case LoadTail(i, end, _) => p'.LoadKey? && p'.i == i && p'.end == end
    case LoadKey(i, end, _, _, _) => p'.LoadBlock? && p'.i == i && p'.end == end
    case LoadBlock(i, end, _, _) => p'.Move? && p'.i == p'.start == i && p'.end == end
    case Move(i, start, stop, end, _, _, _) =>
      if i < stop then p'.Move? && p'.i == i + 1 && p'.start == start && p'.end == end
      else Proceeds(p', i, end) || (p'.Clear? && p'.i == i && p'.end == end)
    case Clear(i, end, _, _, _) => p'.Free? && p'.i == i && p'.end == end
    case Free(i, end, _, _, _) => Proceeds(p', i, end)
  }

  lemma ConsumerAdvances(s: State, t: nat, c: Choice)
    requires ConsumerEnabled(s, t, c) && !s.pcs[t].Away?
    ensures |ConsumerStep(s, t, c).pcs| == |s.pcs| && Advances(s.pcs[t], ConsumerStep(s, t, c).pcs[t])
  {
  }

  lemma AdvanceSpends(p: Consumer, p': Consumer)
    requires Advances(p, p') && InClaim(p)
    ensures 0 <= Left(p') < Left(p)
  {
  }

  lemma ClaimsWithin(s: State, t: nat)
    requires t < |s.pcs| && ClaimOk(s, t)
    ensures InClaim(s.pcs[t])
  {
  }

  /** What everyone else does to a consumer: nothing. */
  lemma OthersLeaveConsumer(s: State, s': State, t: nat)
    requires Next(s, s') && t < |s.pcs| && !MovesConsumer(s, s', t)
    ensures |s'.pcs| == |s.pcs| && s'.pcs[t] == s.pcs[t]
  {
    if exists c: Choice :: ProducerMoves(s, s', c) {
      var c: Choice :| ProducerMoves(s, s', c);
      ProducerLeavesConsumers(s, c);
    } else if exists u: nat, c: Choice :: ConsumerMoves(s, s', u, c) {
      var u: nat, c: Choice :| ConsumerMoves(s, s', u, c);
      ConsumerLeavesOthers(s, u, c, t);
    } else {
      var o: Other :| OthersMove(s, s', o);
      OthersFrame(s, o);
    }
  }

  lemma ProducerLeavesConsumers(s: State, c: Choice)
    requires ProducerEnabled(s, c)
    ensures var s' := ProducerStep(s, c); s'.pcs == s.pcs && s'.owner == s.owner && s.items <= s'.items
  {
  }

  lemma ConsumerLeavesOthers(s: State, u: nat, c: Choice, t: nat)
    requires ConsumerEnabled(s, u, c) && t < |s.pcs| && t != u
    ensures |ConsumerStep(s, u, c).pcs| == |s.pcs| && ConsumerStep(s, u, c).pcs[t] == s.pcs[t]
  {
  }

  /** How many of the steps from `r[lo]` to `r[hi]` are those of consumer `t`. */
  ghost function ConsumerSteps(r: seq<State>, t: nat, lo: nat, hi: nat): nat
    requires lo <= hi < |r|
  {
    if lo == hi then 0
    else ConsumerSteps(r, t, lo, hi - 1) + (if MovesConsumer(r[hi - 1], r[hi], t) then 1 else 0)
  }

  /** Consumer `t` claims the next `n` elements. */
  ghost predicate Claims(s: State, s': State, t: nat, n: nat) {
    t < |s.pcs| && s.pcs[t].Away? && ConsumerMoves(s, s', t, Claim(n))
  }

  lemma ClaimEnters(s: State, s': State, t: nat, n: nat)
    requires Claims(s, s', t, n)
    ensures |s'.pcs| == |s.pcs| && s'.pcs[t] == LoadHeader(s.head, s.head + n)
    ensures n > 0 && s.head + n <= s.tail && s'.head == s.head + n
    ensures s'.owner == s.owner + seq(n, _ => t) && s'.items == s.items
  {
  }

  /** From the claim at `i`, still being delivered before `j`. */
  ghost predicate Delivers(r: seq<State>, i: nat, j: nat, t: nat, n: nat) {
    && i < j < |r| && Claims(r[i], r[i + 1], t, n)
    && (forall m :: i < m < j ==> t < |r[m].pcs| && !r[m].pcs[t].Away?)
  }

  lemma AdvancesAt(r: seq<State>, i: nat, t: nat)
    requires Run(r) && 0 < i < |r| && t < |r[i - 1].pcs| && !r[i - 1].pcs[t].Away?
    ensures |r[i].pcs| == |r[i - 1].pcs|
    ensures if MovesConsumer(r[i - 1], r[i], t) then Advances(r[i - 1].pcs[t], r[i].pcs[t])
            else r[i].pcs[t] == r[i - 1].pcs[t]
  {
    if MovesConsumer(r[i - 1], r[i], t) {
      var c: Choice :| ConsumerMoves(r[i - 1], r[i], t, c);
      ConsumerAdvances(r[i - 1], t, c);
    } else {
      assert StepAt(r, i);
      OthersLeaveConsumer(r[i - 1], r[i], t);
    }
  }

  lemma ClaimAt(r: seq<State>, i: nat, t: nat)
    requires Run(r) && i < |r| && t < |r[i].pcs|
    ensures InClaim(r[i].pcs[t])
  {
    RunInv(r, i);
    assert ConsumerInv(r[i], t);
    ClaimsWithin(r[i], t);
  }

  lemma {:induction false} DeliveryLeft(r: seq<State>, i: nat, j: nat, t: nat, n: nat)
    requires Run(r) && Delivers(r, i, j, t, n)
    ensures t < |r[j].pcs| && 0 <= Left(r[j].pcs[t]) <= 5 * n + 3 - ConsumerSteps(r, t, i + 1, j)
    decreases j
  {
    if j == i + 1 {
      ClaimEnters(r[i], r[j], t, n);
    } else {
      DeliveryLeft(r, i, j - 1, t, n);
      AdvancesAt(r, j, t);
      ClaimAt(r, j - 1, t);
      if MovesConsumer(r[j - 1], r[j], t) { AdvanceSpends(r[j - 1].pcs[t], r[j].pcs[t]); }
    }
  }

  /** Once it has its claim, a dequeue is wait-free: whatever anyone else does meanwhile, it has
      delivered its `n` elements after at most so many steps of its own. */
  lemma DequeueIsWaitFree(r: seq<State>, i: nat, j: nat, t: nat, n: nat)
    requires Run(r) && Delivers(r, i, j, t, n)
    ensures ConsumerSteps(r, t, i + 1, j) <= 5 * n + 3
  {
    DeliveryLeft(r, i, j, t, n);
  }

  /** History only grows. */
  ghost predicate Grows(s: State, s': State) {
    s.items <= s'.items && s.owner <= s'.owner
  }

  lemma StepGrows(s: State, s': State)
    requires Next(s, s')
    ensures Grows(s, s')
  {
    if exists c: Choice :: ProducerMoves(s, s', c) {
      var c: Choice :| ProducerMoves(s, s', c);
      ProducerLeavesConsumers(s, c);
    } else if exists t: nat, c: Choice :: ConsumerMoves(s, s', t, c) {
      var t: nat, c: Choice :| ConsumerMoves(s, s', t, c);
      ConsumerGrows(s, t, c);
    } else {
      var o: Other :| OthersMove(s, s', o);
      OthersFrame(s, o);
    }
  }

  lemma ConsumerGrows(s: State, t: nat, c: Choice)
    requires ConsumerEnabled(s, t, c)
    ensures Grows(s, ConsumerStep(s, t, c))
  {
  }

  lemma {:induction false} RunGrows(r: seq<State>, i: nat, j: nat)
    requires Run(r) && i <= j < |r|
    ensures Grows(r[i], r[j])
    decreases j
  {
    if i < j {
      RunGrows(r, i, j - 1);
      GrowsStepAt(r, j);
    }
  }

  lemma GrowsStepAt(r: seq<State>, i: nat)
    requires Run(r) && 0 < i < |r|
    ensures Grows(r[i - 1], r[i])
  {
    assert StepAt(r, i);
    StepGrows(r[i - 1], r[i]);
  }

  /** A consumer that is through has delivered everything it ever claimed. */
  lemma AllDelivered(s: State, t: nat, x: nat)
    requires SubQueue.Inv(s) && t < |s.pcs| && s.pcs[t].Away? && x < |s.owner| && s.owner[x] == t
    ensures x in s.out && x < |s.items| && s.out[x] == s.items[x]
  {
    assert IndexInv(s, x);
  }

  /** A dequeue of `n` delivers exactly the `n` elements that were at the front of the queue when
      it claimed them. */
  lemma DequeueDelivers(r: seq<State>, i: nat, j: nat, t: nat, n: nat, x: nat)
    requires Run(r) && i < j < |r| && Claims(r[i], r[i + 1], t, n)
    requires t < |r[j].pcs| && r[j].pcs[t].Away?
    requires r[i].head <= x < r[i].head + n
    ensures x < |r[i].items| && x !in r[i].out && x in r[j].out && r[j].out[x] == r[i].items[x]
  {
    ClaimEnters(r[i], r[i + 1], t, n);
    assert |r[i].items| == r[i].tail && |r[i].owner| == r[i].head && x !in r[i].out by { RunInv(r, i); }
    RunGrows(r, i + 1, j);
    assert r[j].owner[x] == t;
    RunInv(r, j);
    AllDelivered(r[j], t, x);
  }

  lemma ConsumerSpends(s: State, t: nat)
    requires SubQueue.Inv(s) && ConsumerEnabled(s, t, Go) && !s.pcs[t].Away?
    ensures var s' := ConsumerStep(s, t, Go); |s'.pcs| == |s.pcs| && 0 <= Left(s'.pcs[t]) < Left(s.pcs[t])
  {
    ConsumerAdvances(s, t, Go);
    assert ConsumerInv(s, t);
    ClaimsWithin(s, t);
    AdvanceSpends(s.pcs[t], ConsumerStep(s, t, Go).pcs[t]);
  }

  lemma AdvanceStep(s: State, t: nat) returns (s': State)
    requires SubQueue.Inv(s) && t < |s.pcs| && !s.pcs[t].Away?
    ensures ConsumerMoves(s, s', t, Go) && SubQueue.Inv(s') && Grows(s, s') && s'.head == s.head
    ensures |s'.pcs| == |s.pcs| && 0 <= Left(s'.pcs[t]) < Left(s.pcs[t])
  {
    ConsumerGoesOn(s, t);
    s' := ConsumerStep(s, t, Go);
    ConsumerStepKeepsInv(s, t, Go);
    ConsumerGrows(s, t, Go);
    ConsumerSpends(s, t);
  }

  lemma {:induction false} Deliver(s: State, t: nat) returns (a: seq<State>)
    requires SubQueue.Inv(s) && t < |s.pcs|
    ensures a != [] && a[0] == s && (forall m :: 0 < m < |a| ==> ConsumerMoves(a[m - 1], a[m], t, Go))
    ensures var s' := a[|a| - 1];
      SubQueue.Inv(s') && Grows(s, s') && s'.head == s.head && t < |s'.pcs| && s'.pcs[t].Away?
    decreases Left(s.pcs[t])
  {
    if s.pcs[t].Away? {
      a := [s];
    } else {
      var s' := AdvanceStep(s, t);
      var b := Deliver(s', t);
      a := [s] + b;
    }
  }

  lemma ClaimStep(s: State, t: nat, n: nat) returns (s': State)
    requires SubQueue.Inv(s) && t < |s.pcs| && s.pcs[t].Away? && 0 < n <= s.tail - s.head
    ensures Claims(s, s', t, n) && SubQueue.Inv(s') && t < |s'.pcs| && s'.head == s.head + n
    ensures s.head == |s.owner| && s.tail == |s.items| && s'.items == s.items && s'.owner == s.owner + seq(n, _ => t)
  {
    s' := ConsumerStep(s, t, Claim(n));
    ConsumerStepKeepsInv(s, t, Claim(n));
    ClaimEnters(s, s', t, n);
  }

  lemma ClaimDelivered(s: State, s1: State, s': State, t: nat, n: nat)
    requires s.head == |s.owner| && s.head + n <= |s.items|
    requires s1.items == s.items && s1.owner == s.owner + seq(n, _ => t)
    requires Grows(s1, s') && SubQueue.Inv(s') && t < |s'.pcs| && s'.pcs[t].Away?
    ensures forall x :: s.head <= x < s.head + n ==> x in s'.out && s'.out[x] == s.items[x]
  {
    forall x | s.head <= x < s.head + n ensures x in s'.out && s'.out[x] == s.items[x] {
      assert s'.owner[x] == t;
      AllDelivered(s', t, x);
    }
  }

  /** On its own, from any state, a consumer that claims `n` elements gets through, with the `n`
      elements at the front of the queue. */
  lemma LoneDequeueDelivers(s: State, t: nat, n: nat) returns (a: seq<State>)
    requires SubQueue.Inv(s) && t < |s.pcs| && s.pcs[t].Away? && 0 < n <= s.tail - s.head
    ensures |a| > 1 && a[0] == s && Claims(a[0], a[1], t, n)
    ensures forall m :: 1 < m < |a| ==> ConsumerMoves(a[m - 1], a[m], t, Go)
    ensures var s' := a[|a| - 1];
      && t < |s'.pcs| && s'.pcs[t].Away? && s'.head == s.head + n <= |s.items|
      && forall x :: s.head <= x < s.head + n ==> x in s'.out && s'.out[x] == s.items[x]
  {
    var s1 := ClaimStep(s, t, n);
    var b := Deliver(s1, t);
    a := [s] + b;
    ClaimDelivered(s, s1, b[|b| - 1], t, n);
  }
}
