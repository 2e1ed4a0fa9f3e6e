/** What the endpoint's operations do, from call to return, whatever runs beside them. */
module EndpointCalls {
  import opened Basics
  import opened Tally
  import Q = BlockingQueue
  import QC = BlockingQueueCalls
  import Sem = Semaphore
  import opened Endpoint

  /** Thread `t` starts on `c` at `i` and is back at `j`. */
  ghost predicate Call(r: seq<State>, i: nat, j: nat, t: nat, c: Choice) {
    && i + 1 < j < |r|
    && (forall m :: i <= m <= j ==> Placed(r[m], t))
    && r[i].pcs[t].Idle? && StepBy(r[i], r[i + 1], t, c) && r[j].pcs[t].Idle?
    && (forall m :: i < m < j ==> !r[m].pcs[t].Idle?)
  }

  ghost predicate Placed(s: State, t: nat) {
    Q.Sized(s.q) && |s.pcs| == |s.q.pcs| && t < |s.pcs|
  }

  lemma OthersLeave(s: State, s': State, u: nat, c: Choice, t: nat)
    requires StepBy(s, s', u, c) && Placed(s, t) && t != u
    ensures Placed(s', t) && s'.pcs[t] == s.pcs[t] && s'.q.pcs[t] == s.q.pcs[t] && s'.q.put[t] == s.q.put[t]
    ensures s'.q.sem.pcs[t] == s.q.sem.pcs[t]
  {
    StepUsesQueue(s, u, c);
    var use := UseOf(s, u, c);
    if use.Use? { QC.OthersLeave(s.q, s'.q, u, use.choice, t); }
  }

  // ---- A packet arrives -----------------------------------------------------------------

  /** The inner enqueue is refused in this step. */
  ghost predicate Refused(s: State, s': State, t: nat) {
    t < |s.pcs| && s.pcs[t].InEnqueue? && QC.Refused(s.q, s'.q, t)
  }

  /** Thread `t` writes its byte to the pipe in this step, which a full pipe ignores. */
  ghost predicate Writes(s: State, s': State, t: nat) {
    && t < |s.pcs| == |s'.pcs| && s.pcs[t].WritePipe? && s'.pcs[t] != s.pcs[t]
    && s'.pipe == Min(s.pipe + 1, s.capacity)
  }

  /** How far a packet thread past the limit check has come with packet `x`, since what it had
      put was `was`. */
  ghost predicate Putting(s: State, t: nat, x: Q.Item, was: seq<Q.Item>, refused: bool, wrote: bool) {
    && Placed(s, t)
    && match s.pcs[t]
       case InEnqueue =>
         && !refused && !wrote && !s.q.pcs[t].Idle?
         && QC.Enqueuing(s.q, t, [x], was, false, s.q.pcs[t].InSignal?)
       case WritePipe => !wrote && s.q.put[t] == was + (if refused then [] else [x])
       case Idle => wrote && s.q.put[t] == was + (if refused then [] else [x])
       case _ => false
  }

  lemma EnqueueStep(s: State, s': State, t: nat, c: Choice, x: Q.Item, was: seq<Q.Item>)
    requires Inv(s) && StepBy(s, s', t, c) && s.pcs[t].InEnqueue? && Putting(s, t, x, was, false, false)
    ensures Putting(s', t, x, was, Refused(s, s', t), false)
  {
    QC.OwnStepEnqueues(s.q, s'.q, t, c.choice, [x], was, s.q.pcs[t].InSignal?);
    assert was + [] == was;
  }

  lemma OwnStepPuts(s: State, s': State, t: nat, c: Choice, x: Q.Item, was: seq<Q.Item>, refused: bool)
    requires Inv(s) && StepBy(s, s', t, c) && !s.pcs[t].Idle? && Putting(s, t, x, was, refused, false)
    ensures Putting(s', t, x, was, refused || Refused(s, s', t), Writes(s, s', t))
  {
    if s.pcs[t].InEnqueue? { EnqueueStep(s, s', t, c, x, was); }
  }

  lemma RefusedMoves(s: State, s': State, t: nat)
    requires Refused(s, s', t)
    ensures t < |s'.q.pcs| && s'.q.pcs[t].Idle? && s.q.pcs[t].Put?
  {
    QC.RefusedMoves(s.q, s'.q, t);
  }

  lemma StepPuts(r: seq<State>, i: nat, t: nat, x: Q.Item, was: seq<Q.Item>, refused: bool)
    requires Run(r) && 0 < i < |r| && Putting(r[i - 1], t, x, was, refused, false) && !r[i - 1].pcs[t].Idle?
    ensures Putting(r[i], t, x, was, refused || Refused(r[i - 1], r[i], t), Writes(r[i - 1], r[i], t))
  {
    var s, s' := r[i - 1], r[i];
    RunInv(r, i - 1);
    assert StepAt(r, i);
    var u: nat, c: Choice :| StepBy(s, s', u, c);
    if u == t {
      OwnStepPuts(s, s', t, c, x, was, refused);
    } else {
      OthersLeave(s, s', u, c, t);
      if Refused(s, s', t) { RefusedMoves(s, s', t); }
    }
  }

  ghost predicate RefusedAt(r: seq<State>, n: nat, t: nat) {
    n + 1 < |r| && Refused(r[n], r[n + 1], t)
  }

  ghost predicate WritesAt(r: seq<State>, n: nat, t: nat) {
    n + 1 < |r| && Writes(r[n], r[n + 1], t)
  }

  ghost predicate RefusedIn(r: seq<State>, i: nat, j: nat, t: nat) {
    exists n :: i < n < j && RefusedAt(r, n, t)
  }

  ghost predicate WritesIn(r: seq<State>, i: nat, j: nat, t: nat) {
    exists n :: i < n < j && WritesAt(r, n, t)
  }

  lemma OneMore(r: seq<State>, i: nat, m: nat, t: nat)
    requires i + 1 < m < |r|
    ensures RefusedIn(r, i, m, t) <==> RefusedIn(r, i, m - 1, t) || Refused(r[m - 1], r[m], t)
    ensures WritesIn(r, i, m, t) <==> WritesIn(r, i, m - 1, t) || Writes(r[m - 1], r[m], t)
  {
    if Refused(r[m - 1], r[m], t) { assert RefusedAt(r, m - 1, t); }
    if Writes(r[m - 1], r[m], t) { assert WritesAt(r, m - 1, t); }
  }

  /** Up to `m` the packet `x` of thread `t` waits for its limit check. */
  ghost predicate Unchecked(r: seq<State>, i: nat, m: nat, t: nat, x: Q.Item)
    requires i < m < |r|
  {
    && (forall n :: i <= n <= m ==> Placed(r[n], t))
    && (forall n :: i < n <= m ==> r[n].pcs[t] == Check(x))
    && r[m].q.put[t] == r[i].q.put[t]
  }

  lemma ArriveEnters(s: State, s': State, t: nat, x: Q.Item)
    requires Placed(s, t) && t > 0 && s.pcs[t].Idle? && StepBy(s, s', t, Arrive(x))
    ensures Placed(s', t) && s'.pcs[t] == Check(x) && s'.q == s.q && s'.pipe == s.pipe
  {
  }

  /** The limit check, with the number in it: a queue that is reported to hold more than 128
      packets takes no more. */
  lemma CheckStep(s: State, s': State, t: nat, c: Choice, x: Q.Item)
    requires Placed(s, t) && StepBy(s, s', t, c) && s.pcs[t] == Check(x)
    ensures if s.q.sem.count > 128 then s' == s.(pcs := s.pcs[t := Idle])
            else Putting(s', t, x, s.q.put[t], false, false)
    ensures Placed(s', t) && s'.pcs[t] != s.pcs[t] && !Refused(s, s', t) && !Writes(s, s', t)
  {
  }

  lemma CheckAt(r: seq<State>, i: nat, t: nat, x: Q.Item)
    requires Run(r) && i + 1 < |r| && Placed(r[i], t) && r[i].pcs[t] == Check(x)
    ensures Placed(r[i + 1], t) && r[i + 1].q.put[t] == r[i].q.put[t]
    ensures !Refused(r[i], r[i + 1], t) && !Writes(r[i], r[i + 1], t)
    ensures || r[i + 1].pcs[t] == Check(x)
            || (if r[i].q.sem.count > 128 then r[i + 1] == r[i].(pcs := r[i].pcs[t := Idle])
                else Putting(r[i + 1], t, x, r[i].q.put[t], false, false) && !r[i + 1].pcs[t].Idle?)
  {
    assert StepAt(r, i + 1);
    var u: nat, c: Choice :| StepBy(r[i], r[i + 1], u, c);
    if u == t { CheckStep(r[i], r[i + 1], t, c, x); } else { OthersLeave(r[i], r[i + 1], u, c, t); }
  }

  /** When the check is made. */
  lemma {:induction false} FindCheck(r: seq<State>, i: nat, j: nat, t: nat, x: Q.Item, n: nat) returns (m: nat)
    requires Run(r) && Call(r, i, j, t, Arrive(x)) && i < n < j && Unchecked(r, i, n, t, x)
    ensures n <= m < j && Unchecked(r, i, m, t, x) && r[m + 1].pcs[t] != Check(x)
    decreases j - n
  {
    CheckAt(r, n, t, x);
    if r[n + 1].pcs[t] == Check(x) { m := FindCheck(r, i, j, t, x, n + 1); } else { m := n; }
  }

  lemma {:induction false} NothingBefore(r: seq<State>, i: nat, m: nat, t: nat, x: Q.Item)
    requires Run(r) && i < m && m + 1 < |r| && Unchecked(r, i, m, t, x)
    ensures !RefusedIn(r, i, m + 1, t) && !WritesIn(r, i, m + 1, t)
  {
    forall n | i < n < m + 1 ensures !RefusedAt(r, n, t) && !WritesAt(r, n, t) { CheckAt(r, n, t, x); }
  }

  lemma {:induction false} PuttingAt(r: seq<State>, i: nat, j: nat, t: nat, x: Q.Item, m: nat, n: nat)
    requires Run(r) && Call(r, i, j, t, Arrive(x)) && i < m < n <= j && Unchecked(r, i, m, t, x)
    requires r[m + 1].pcs[t] != Check(x) && r[m].q.sem.count <= 128
    ensures Putting(r[n], t, x, r[i].q.put[t], RefusedIn(r, i, n, t), WritesIn(r, i, n, t))
    decreases n
  {
    if n == m + 1 {
      CheckAt(r, m, t, x);
      NothingBefore(r, i, m, t, x);
    } else {
      PuttingAt(r, i, j, t, x, m, n - 1);
      assert !WritesIn(r, i, n - 1, t);
      StepPuts(r, n, t, x, r[i].q.put[t], RefusedIn(r, i, n - 1, t));
      OneMore(r, i, n, t);
    }
  }

  /** What `putToRecvQ` does with the packet `x` that arrives: exactly if the count it reads at
      the check exceeds 128 it drops the packet, returns at once and writes nothing; otherwise
      it writes its byte, having put exactly `x` unless the allocation in the queue failed. */
  lemma PutOutcome(r: seq<State>, i: nat, j: nat, t: nat, x: Q.Item) returns (m: nat)
    requires Run(r) && t > 0 && Call(r, i, j, t, Arrive(x))
    ensures i < m < j && r[m].pcs[t] == Check(x) && r[m + 1].pcs[t] != Check(x)
    ensures if r[m].q.sem.count > 128 then
              j == m + 1 && r[j].q.put[t] == r[i].q.put[t] && !WritesIn(r, i, j, t)
            else
              r[j].q.put[t] == r[i].q.put[t] + (if RefusedIn(r, i, j, t) then [] else [x]) && WritesIn(r, i, j, t)
  {
    ArriveEnters(r[i], r[i + 1], t, x);
    m := FindCheck(r, i, j, t, x, i + 1);
    CheckAt(r, m, t, x);
    if r[m].q.sem.count > 128 {
      NothingBefore(r, i, m, t, x);
    } else {
      PuttingAt(r, i, j, t, x, m, j);
    }
  }

  // ---- The event loop serves a receive request --------------------------------------------

  /** How many packets the event loop takes in this step. */
  ghost function Gain(s: State, s': State): int {
    QC.Gain(s.q, s'.q, 0)
  }

  /** How many packets the event loop takes from `r[lo]` to `r[hi]`. */
  ghost function Gains(r: seq<State>, lo: nat, hi: nat): int
    requires lo <= hi < |r|
  {
    if lo == hi then 0 else Gains(r, lo, hi - 1) + Gain(r[hi - 1], r[hi])
  }

  /** At some moment after `i`, up to `j`, the queue has no permit. */
  ghost predicate NonePermitted(r: seq<State>, i: nat, j: nat)
    requires j < |r|
  {
    exists n :: i < n <= j && r[n].q.sem.count <= 0
  }

  lemma PacketThreadLeavesLoop(s: State, s': State, u: nat, c: Choice)
    requires StepBy(s, s', u, c) && Placed(s, 0) && u > 0
    requires ThreadInv(u, s.pcs[u], s.q.pcs[u], s.q.sem.pcs[u])
    ensures Placed(s', 0) && s'.pcs[0] == s.pcs[0] && s'.waiting == s.waiting && Gain(s, s') == 0
    ensures s'.q.pcs[0] == s.q.pcs[0] && s'.q.sem.pcs[0] == s.q.sem.pcs[0]
  {
    OthersLeave(s, s', u, c, 0);
  }

  /** How far a receive request has come that has taken `gained` packets, since `waiting` was `was`. */
  ghost predicate Receiving(s: State, blocking: bool, was: bool, gained: int, short: bool) {
    && Placed(s, 0)
    && match s.pcs[0]
       case Trying(b) =>
         && b == blocking && s.waiting == was
         && !s.q.pcs[0].Idle? && QC.Dequeuing(s.q, 0, 1, Sem.Try, gained, short)
       case SetWaiting => blocking && s.waiting == was && gained == 0 && short
       case Idle =>
         || (gained == 1 && s.waiting == was)
         || (gained == 0 && short && s.waiting == (was || blocking))
       case _ => false
  }

  lemma ReceiveEnters(s: State, s': State, blocking: bool)
    requires Placed(s, 0) && s.pcs[0].Idle? && s.q.pcs[0].Idle? && StepBy(s, s', 0, Receive(blocking))
    ensures Receiving(s', blocking, s.waiting, 0, false)
  {
    QC.DequeueEnters(s.q, s'.q, 0, 1, Sem.Try);
  }

  lemma QueueStepTakes(q: Q.State, q': Q.State, c: Q.Choice, kind: Sem.Kind, gained: int, short: bool)
    requires Q.Inv(q) && Q.StepBy(q, q', 0, c) && !q.pcs[0].Idle? && QC.Dequeuing(q, 0, 1, kind, gained, short)
    ensures QC.Dequeuing(q', 0, 1, kind, gained + QC.Gain(q, q', 0), short || q.sem.count <= 0 || q'.sem.count <= 0)
    ensures q'.pcs[0].Idle? ==> gained + QC.Gain(q, q', 0) == (if q.pcs[0].Retry? then 1 else 0)
  {
    if q.pcs[0].InWait? {
      QC.WaitStepDequeues(q, q', 0, c, 1, kind, short);
    } else {
      QC.TakeStepDequeues(q, q', 0, c, 1, kind, gained, short);
    }
  }

  lemma LoopReceives(s: State, s': State, c: Choice, blocking: bool, was: bool, gained: int, short: bool)
    requires Inv(s) && StepBy(s, s', 0, c) && !s.pcs[0].Idle? && Receiving(s, blocking, was, gained, short)
    ensures Receiving(s', blocking, was, gained + Gain(s, s'), short || s.q.sem.count <= 0 || s'.q.sem.count <= 0)
  {
    if s.pcs[0].Trying? {
      QueueStepTakes(s.q, s'.q, c.choice, Sem.Try, gained, short);
    }
  }

  lemma StepReceives(r: seq<State>, i: nat, blocking: bool, was: bool, gained: int, short: bool)
    requires Run(r) && 0 < i < |r| && Receiving(r[i - 1], blocking, was, gained, short) && !r[i - 1].pcs[0].Idle?
    ensures Receiving(r[i], blocking, was, gained + Gain(r[i - 1], r[i]),
                      short || r[i - 1].q.sem.count <= 0 || r[i].q.sem.count <= 0)
  {
    RunInv(r, i - 1);
    assert StepAt(r, i);
    var u: nat, c: Choice :| StepBy(r[i - 1], r[i], u, c);
    if u == 0 {
      LoopReceives(r[i - 1], r[i], c, blocking, was, gained, short);
    } else {
      OthersReceive(r[i - 1], r[i], u, c, blocking, was, gained, short);
    }
  }

  lemma ReceivingWeakens(s: State, blocking: bool, was: bool, gained: int, short: bool, more: bool)
    requires Receiving(s, blocking, was, gained, short)
    ensures Receiving(s, blocking, was, gained, short || more)
  {
  }

  lemma OthersReceive(s: State, s': State, u: nat, c: Choice, blocking: bool, was: bool, gained: int, short: bool)
    requires Threads(s) && StepBy(s, s', u, c) && u > 0 && Receiving(s, blocking, was, gained, short)
    ensures Receiving(s', blocking, was, gained + Gain(s, s'), short || s.q.sem.count <= 0 || s'.q.sem.count <= 0)
  {
    assert ThreadInv(u, s.pcs[u], s.q.pcs[u], s.q.sem.pcs[u]);
    PacketThreadLeavesLoop(s, s', u, c);
    assert Receiving(s', blocking, was, gained, short);
    ReceivingWeakens(s', blocking, was, gained, short, s.q.sem.count <= 0 || s'.q.sem.count <= 0);
  }

  lemma IdleAt(r: seq<State>, i: nat)
    requires Run(r) && i < |r| && Placed(r[i], 0) && r[i].pcs[0].Idle?
    ensures r[i].q.pcs[0].Idle?
  {
    RunInv(r, i);
    assert ThreadInv(0, r[i].pcs[0], r[i].q.pcs[0], r[i].q.sem.pcs[0]);
  }

  lemma {:induction false} ReceivingAt(r: seq<State>, i: nat, j: nat, blocking: bool, m: nat)
    requires Run(r) && Call(r, i, j, 0, Receive(blocking)) && i < m <= j
    ensures Receiving(r[m], blocking, r[i].waiting, Gains(r, i + 1, m), NonePermitted(r, i, m))
    decreases m
  {
    if m == i + 1 {
      IdleAt(r, i);
      ReceiveEnters(r[i], r[m], blocking);
    } else {
      ReceivingAt(r, i, j, blocking, m - 1);
      StepReceives(r, m, blocking, r[i].waiting, Gains(r, i + 1, m - 1), NonePermitted(r, i, m - 1));
      assert NonePermitted(r, i, m - 1) || r[m - 1].q.sem.count <= 0 || r[m].q.sem.count <= 0
             ==> NonePermitted(r, i, m);
    }
  }

  /** What a receive request does: it takes one packet and leaves `waiting` alone, or there was a
      moment without a permit, it takes none, and sets `waiting` exactly if it is to block. */
  lemma ReceiveOutcome(r: seq<State>, i: nat, j: nat, blocking: bool)
    requires Run(r) && Call(r, i, j, 0, Receive(blocking))
    ensures || (Gains(r, i + 1, j) == 1 && r[j].waiting == r[i].waiting)
            || (Gains(r, i + 1, j) == 0 && NonePermitted(r, i, j) && r[j].waiting == (r[i].waiting || blocking))
  {
    ReceivingAt(r, i, j, blocking, j);
  }

  // ---- The event loop runs its callback ---------------------------------------------------

  /** The channel that asked is found gone in this step. */
  ghost predicate FindsGone(s: State, s': State) {
    |s.pcs| > 0 && s.pcs[0].Notify? && StepBy(s, s', 0, Go(true))
  }

  ghost predicate GoneAt(r: seq<State>, n: nat) {
    n + 1 < |r| && FindsGone(r[n], r[n + 1])
  }

  ghost predicate GoneIn(r: seq<State>, i: nat, j: nat) {
    exists n :: i < n < j && GoneAt(r, n)
  }

  ghost predicate DrainedIn(r: seq<State>, i: nat, j: nat)
    requires j <= |r|
  {
    exists n :: i < n < j && r[n].pipe == 0
  }

  /** How far the callback has come that has taken `gained` packets, since `waiting` was `was`;
      `gone` says that the channel was found gone, `drained` that the pipe was seen empty. */
  ghost predicate CallingBack(s: State, was: bool, gained: int, gone: bool, drained: bool) {
    && Placed(s, 0)
    && match s.pcs[0]
       case Drain => s.waiting == was && gained == 0 && !gone
       case TestWaiting => s.waiting == was && gained == 0 && !gone && drained
       case Notify => was && gained == 0 && !gone && drained
       case Taking =>
         was && !gone && drained && !s.q.pcs[0].Idle?
         && (QC.Dequeuing(s.q, 0, 1, Sem.Forever, gained, true))
       case ClearWaiting => was && drained && gained == (if gone then 0 else 1)
       case Idle => !s.waiting && drained && gained == (if was && !gone then 1 else 0)
       case _ => false
  }

  lemma ReadableEnters(s: State, s': State)
    requires Placed(s, 0) && s.pcs[0].Idle? && StepBy(s, s', 0, Readable)
    ensures CallingBack(s', s.waiting, 0, false, false)
  {
  }

  lemma DequeuingWeakens(q: Q.State, kind: Sem.Kind, gained: int, short: bool)
    requires QC.Dequeuing(q, 0, 1, kind, gained, short)
    ensures QC.Dequeuing(q, 0, 1, kind, gained, true)
  {
  }

  lemma LoopTakesOn(s: State, s': State, c: Choice, was: bool, gained: int)
    requires Inv(s) && StepBy(s, s', 0, c) && s.pcs[0].Taking? && CallingBack(s, was, gained, false, true)
    ensures CallingBack(s', was, gained + Gain(s, s'), false, true)
  {
    QueueStepTakes(s.q, s'.q, c.choice, Sem.Forever, gained, true);
    var gained' := gained + Gain(s, s');
    assert QC.Dequeuing(s'.q, 0, 1, Sem.Forever, gained', true);
  }

  lemma LoopCallsBack(s: State, s': State, c: Choice, was: bool, gained: int, gone: bool, drained: bool)
    requires Inv(s) && StepBy(s, s', 0, c) && !s.pcs[0].Idle? && CallingBack(s, was, gained, gone, drained)
    ensures CallingBack(s', was, gained + Gain(s, s'), gone || FindsGone(s, s'), drained || s.pipe == 0)
  {
    if s.pcs[0].Taking? {
      LoopTakesOn(s, s', c, was, gained);
    } else if s.pcs[0].Notify? {
      assert ThreadInv(0, s.pcs[0], s.q.pcs[0], s.q.sem.pcs[0]);
      if !c.gone {
        QC.DequeueEnters(s.q, s'.q, 0, 1, Sem.Forever);
        DequeuingWeakens(s'.q, Sem.Forever, 0, false);
      }
    }
  }

  lemma GoneMoves(s: State, s': State)
    requires FindsGone(s, s')
    ensures |s'.pcs| == |s.pcs| && s'.pcs[0].ClearWaiting?
  {
  }

  lemma StepCallsBack(r: seq<State>, i: nat, was: bool, gained: int, gone: bool, drained: bool)
    requires Run(r) && 0 < i < |r| && CallingBack(r[i - 1], was, gained, gone, drained) && !r[i - 1].pcs[0].Idle?
    ensures CallingBack(r[i], was, gained + Gain(r[i - 1], r[i]), gone || FindsGone(r[i - 1], r[i]),
                        drained || r[i - 1].pipe == 0)
  {
    var s, s' := r[i - 1], r[i];
    RunInv(r, i - 1);
    assert StepAt(r, i);
    var u: nat, c: Choice :| StepBy(s, s', u, c);
    if u == 0 {
      LoopCallsBack(s, s', c, was, gained, gone, drained);
    } else {
      assert ThreadInv(u, s.pcs[u], s.q.pcs[u], s.q.sem.pcs[u]);
      PacketThreadLeavesLoop(s, s', u, c);
      if FindsGone(s, s') { GoneMoves(s, s'); }
    }
  }

  lemma {:induction false} CallingBackAt(r: seq<State>, i: nat, j: nat, m: nat)
    requires Run(r) && Call(r, i, j, 0, Readable) && i < m <= j
    ensures CallingBack(r[m], r[i].waiting, Gains(r, i + 1, m), GoneIn(r, i, m), DrainedIn(r, i, m))
    decreases m
  {
    if m == i + 1 {
      ReadableEnters(r[i], r[m]);
    } else {
      CallingBackAt(r, i, j, m - 1);
      StepCallsBack(r, m, r[i].waiting, Gains(r, i + 1, m - 1), GoneIn(r, i, m - 1), DrainedIn(r, i, m - 1));
      OneMoreGone(r, i, m);
    }
  }

  lemma OneMoreGone(r: seq<State>, i: nat, m: nat)
    requires i + 1 < m < |r|
    ensures GoneIn(r, i, m) <==> GoneIn(r, i, m - 1) || FindsGone(r[m - 1], r[m])
    ensures DrainedIn(r, i, m) <==> DrainedIn(r, i, m - 1) || r[m - 1].pipe == 0
  {
    if FindsGone(r[m - 1], r[m]) { assert GoneAt(r, m - 1); }
  }

  /** What the callback does: it reads the pipe until it is empty, takes exactly one packet if
      somebody waits and is still there, none otherwise, and nobody waits afterwards. */
  lemma CallbackOutcome(r: seq<State>, i: nat, j: nat)
    requires Run(r) && Call(r, i, j, 0, Readable)
    ensures DrainedIn(r, i, j) && !r[j].waiting
    ensures Gains(r, i + 1, j) == (if r[i].waiting && !GoneIn(r, i, j) then 1 else 0)
  {
    CallingBackAt(r, i, j, j);
  }
}
