/** An endpoint's receive path. Packet threads put packets into the receive queue and a byte
    into the notify pipe; the event loop, thread 0, takes packets, sets `waiting` when it finds
    none, and drains the pipe in its callback. The queue is the blocking queue, step by step. */
module Endpoint {
  import opened Basics
  import opened Tally
  import Q = BlockingQueue
  import Sem = Semaphore

  /** The receive queue's soft limit and the size of the callback's read buffer. */
  const LIMIT: nat := 128
  const READ_SIZE: nat := 8

  /** Program counters. `InEnqueue`, `Trying` and `Taking` are inside a call of the queue. */
  datatype Pc =
    | Idle
    // packet threads
    | Check(packet: Q.Item)
    | InEnqueue
    | WritePipe
    // the event loop serving a receive request
    | Trying(blocking: bool)
    | SetWaiting
    // the event loop in its callback
    | Drain
    | TestWaiting
    | Notify
    | Taking
    | ClearWaiting

  /** `clean` is history: nothing happened since `waiting` was last set, nor was there anything
      left over at that time, that could leave a byte in the pipe without a packet. */
  datatype State = State(
    q: Q.State,
    pipe: nat,
    capacity: nat,
    waiting: bool,
    pcs: seq<Pc>,
    clean: bool)

  /** What the environment decides: a packet arrives, a receive request arrives, the pipe is
      reported readable, the requesting channel is gone, or the choice inside the queue. */
  datatype Choice =
    | Arrive(packet: Q.Item)
    | Receive(blocking: bool)
    | Readable
    | Go(gone: bool)
    | Queue(choice: Q.Choice)

  ghost predicate Init(s: State) {
    && Q.Init(s.q)
    && s.capacity > 0 && s.pipe == 0 && !s.waiting && !s.clean
    && |s.pcs| == |s.q.pcs| > 0
    && forall t :: 0 <= t < |s.pcs| ==> s.pcs[t] == Idle
  }

  ghost predicate Enabled(s: State, t: nat, c: Choice) {
    && |s.pcs| == |s.q.pcs| && t < |s.pcs|
    && match s.pcs[t]
       case Idle =>
         if t > 0 then c.Arrive?
         else (c.Receive? && Q.Enabled(s.q, 0, Q.Dequeue(1, Sem.Try))) || (c.Readable? && s.pipe > 0)
       case Check(x) => Q.Enabled(s.q, t, Q.Enqueue([x]))
       case InEnqueue => c.Queue? && Q.Enabled(s.q, t, c.choice)
       case Trying(_) => c.Queue? && Q.Enabled(s.q, t, c.choice)
       case Taking => c.Queue? && Q.Enabled(s.q, t, c.choice)
       case Notify => c.Go? && Q.Enabled(s.q, t, Q.Dequeue(1, Sem.Forever))
       case _ => c.Go?
  }

  ghost function Goto(s: State, t: nat, p: Pc): State
    requires t < |s.pcs|
  {
    s.(pcs := s.pcs[t := p])
  }

  /** Some packet thread is between its enqueue and its write to the pipe. */
  ghost predicate Midway(s: State, t: nat)
    requires |s.pcs| == |s.q.pcs| && t < |s.pcs|
  {
    s.pcs[t].WritePipe? || (s.pcs[t].InEnqueue? && !s.q.pcs[t].Put?)
  }

  ghost predicate SomeMidway(s: State)
    requires |s.pcs| == |s.q.pcs|
  {
    exists t :: 0 <= t < |s.pcs| && Midway(s, t)
  }

  /** One atomic operation of thread `t`. The result of an enqueue is not looked at. */
  ghost function Step(s: State, t: nat, c: Choice): State
    requires Enabled(s, t, c)
  {
    match s.pcs[t]
    case Idle =>
      if t > 0 then Goto(s, t, Check(c.packet))
      else if c.Readable? then Goto(s, t, Drain)
      else Goto(s.(q := Q.Step(s.q, t, Q.Dequeue(1, Sem.Try))), t, Trying(c.blocking))
    case Check(x) =>
      if Max(0, s.q.sem.count) > LIMIT then Goto(s, t, Idle)
      else Goto(s.(q := Q.Step(s.q, t, Q.Enqueue([x]))), t, InEnqueue)
    case InEnqueue =>
      var q' := Q.Step(s.q, t, c.choice);
      var failed := s.q.pcs[t].Put? && q'.pcs[t].Idle?;
      Goto(s.(q := q', clean := s.clean && !failed), t, if q'.pcs[t].Idle? then WritePipe else InEnqueue)
    case WritePipe => Goto(s.(pipe := Min(s.pipe + 1, s.capacity)), t, Idle)
    case Trying(blocking) =>
      var q' := Q.Step(s.q, t, c.choice);
      var taken := s.q.pcs[t].Retry?;
      Goto(s.(q := q', clean := s.clean && !taken), t,
           if !q'.pcs[t].Idle? then Trying(blocking) else if taken || !blocking then Idle else SetWaiting)
    case SetWaiting => Goto(s.(waiting := true, clean := s.pipe == 0 && !SomeMidway(s)), t, Idle)
    case Drain =>
      if s.pipe > 0 then s.(pipe := s.pipe - Min(s.pipe, READ_SIZE)) else Goto(s, t, TestWaiting)
    case TestWaiting => Goto(s, t, if s.waiting then Notify else Idle)
    case Notify =>
      if c.gone then Goto(s, t, ClearWaiting)
      else Goto(s.(q := Q.Step(s.q, t, Q.Dequeue(1, Sem.Forever))), t, Taking)
    case Taking =>
      var q' := Q.Step(s.q, t, c.choice);
      Goto(s.(q := q'), t, if q'.pcs[t].Idle? then ClearWaiting else Taking)
    case ClearWaiting => Goto(s.(waiting := false), t, Idle)
  }

  // ---- The invariant ------------------------------------------------------------------

  /** The event loop inside a call that takes one packet. */
  ghost predicate Consuming(qp: Q.Pc, sp: Sem.Pc, kind: Sem.Kind) {
    || (qp.InWait? && Q.Waiting(sp) && sp.ask.max + sp.ask.got == 1 && sp.ask.kind == kind)
    || (qp.Retry? && qp.left == 1)
  }

  ghost predicate Producing(qp: Q.Pc) {
    (qp.Put? && |qp.xs| == 1) || (qp.SignalDue? && qp.n == 1) || qp.InSignal?
  }

  ghost predicate ThreadInv(t: nat, p: Pc, qp: Q.Pc, sp: Sem.Pc) {
    match p
    case Idle => qp.Idle?
    case Check(_) => t > 0 && qp.Idle?
    case InEnqueue => t > 0 && Producing(qp)
    case WritePipe => t > 0 && qp.Idle?
    case Trying(_) => t == 0 && Consuming(qp, sp, Sem.Try)
    case Taking => t == 0 && Consuming(qp, sp, Sem.Forever)
    case _ => t == 0 && qp.Idle?
  }

  ghost predicate Threads(s: State) {
    && |s.pcs| == |s.q.pcs| > 0
    && Q.Inv(s.q)
    && forall t :: 0 <= t < |s.pcs| ==> ThreadInv(t, s.pcs[t], s.q.pcs[t], s.q.sem.pcs[t])
  }

  ghost predicate InCallback(p: Pc) {
    p.Drain? || p.TestWaiting? || p.Notify? || p.Taking? || p.ClearWaiting?
  }

  /** The event loop has seen an empty queue and relies on being told about the next packet. */
  ghost predicate Relies(s: State)
    requires Threads(s)
  {
    || (s.waiting && !InCallback(s.pcs[0]))
    || s.pcs[0].SetWaiting?
    || Failed(s)
  }

  /** Its attempt to take a packet has found none. */
  ghost predicate Failed(s: State)
    requires Threads(s)
  {
    s.pcs[0].Trying? && s.q.pcs[0].InWait? && s.q.sem.pcs[0].Returned? && s.q.sem.pcs[0].ask.got == 0
  }

  /** It will be told. */
  ghost predicate Notified(s: State)
    requires Threads(s)
  {
    s.pipe > 0 || SomeMidway(s)
  }

  /** Packet threads past the limit check that have not signalled yet. */
  ghost function Pasts(): Q.Pc -> nat { (p: Q.Pc) => if p.Put? || p.SignalDue? then 1 else 0 }
  ghost function Past(s: State): nat { Total(s.q.pcs, Pasts()) }

  ghost predicate Limited(s: State) {
    s.q.sem.count + Past(s) <= LIMIT + |s.pcs| - 1
  }

  /** The event loop was woken by a packet that is still there. */
  ghost predicate Fresh(s: State)
    requires Threads(s)
  {
    s.clean && s.waiting && !s.pcs[0].ClearWaiting?
    && (s.pipe > 0 || SomeMidway(s) || InCallback(s.pcs[0]))
    ==> Q.Items(s.q) > 0
  }

  /** The event loop asks for a packet only while it waits for one. */
  ghost predicate TakesForWaiter(s: State)
    requires Threads(s)
  {
    s.pcs[0].Notify? || s.pcs[0].Taking? ==> s.waiting
  }

  ghost predicate Inv(s: State) {
    && Threads(s)
    && s.capacity > 0
    && TakesForWaiter(s)
    && (Relies(s) && Q.Items(s.q) > 0 ==> Notified(s))
    && Limited(s)
    && Fresh(s)
  }

  lemma InitInv(s: State)
    requires Init(s)
    ensures Inv(s)
  {
    Q.InitInv(s.q);
    TotalNone(s.q.pcs, Pasts());
  }

  // ---- Threads ------------------------------------------------------------------------

  /** A step of the queue moves one thread; only publishing and taking change the elements. */
  lemma QueueFrame(q: Q.State, t: nat, c: Q.Choice)
    requires Q.Inv(q) && Q.Enabled(q, t, c)
    ensures var q' := Q.Step(q, t, c);
      && |q'.pcs| == |q.pcs| && q'.pcs == q.pcs[t := q'.pcs[t]]
      && |q'.sem.pcs| == |q.sem.pcs| && q'.sem.pcs == q.sem.pcs[t := q'.sem.pcs[t]]
  {
    Q.SemStep(q.sem, t, Q.SemChoice(q.pcs[t], c));
  }

  /** What a step does to the number of undelivered elements. */
  lemma QueueItems(q: Q.State, t: nat, c: Q.Choice)
    requires Q.Inv(q) && Q.Enabled(q, t, c)
    ensures var q' := Q.Step(q, t, c);
      Q.Items(q') == Q.Items(q)
        + (if q.pcs[t].Put? && !c.flag then |q.pcs[t].xs| else 0)
        - (if q.pcs[t].Retry? then c.k else 0)
  {
    var q' := Q.Step(q, t, c);
    if q.pcs[t].Put? {
      TotalUpdate(q.subs, Q.Lengths(), t, q'.subs[t]);
    } else if q.pcs[t].Retry? {
      TotalUpdate(q.subs, Q.Lengths(), c.q, q'.subs[c.q]);
    }
  }

  lemma ProducingStays(q: Q.State, t: nat, c: Q.Choice)
    requires Q.Enabled(q, t, c)
    requires Producing(q.pcs[t]) || (q.pcs[t].Idle? && c.Enqueue? && |c.xs| == 1)
    ensures var p' := Q.Step(q, t, c).pcs[t];
      && (p'.Idle? || Producing(p'))
      && (p'.Put? <==> q.pcs[t].Idle?)
      && (q.pcs[t].Put? && p'.Idle? <==> q.pcs[t].Put? && c.flag)
  {
  }

  lemma ConsumingStays(q: Q.State, t: nat, c: Q.Choice, kind: Sem.Kind)
    requires Q.Inv(q) && Q.Enabled(q, t, c)
    requires Consuming(q.pcs[t], q.sem.pcs[t], kind) || (q.pcs[t].Idle? && c == Q.Dequeue(1, kind))
    ensures var q' := Q.Step(q, t, c); q'.pcs[t].Idle? || Consuming(q'.pcs[t], q'.sem.pcs[t], kind)
  {
    assert Q.ThreadInv(q.pcs[t], q.sem.pcs[t]);
    if q.pcs[t].InWait? && !q.sem.pcs[t].Returned? {
      WaitingStays(q, t, c, kind);
    }
  }

  lemma WaitingStays(q: Q.State, t: nat, c: Q.Choice, kind: Sem.Kind)
    requires Q.Enabled(q, t, c) && q.pcs[t].InWait? && Consuming(q.pcs[t], q.sem.pcs[t], kind)
    requires !q.sem.pcs[t].Returned?
    ensures var q' := Q.Step(q, t, c); Consuming(q'.pcs[t], q'.sem.pcs[t], kind)
  {
    var sc := Q.SemChoice(Q.InWait, c);
    Sem.ActKeepsAsk(q.sem.pcs[t], q.sem.count, q.sem.kernel, sc);
    WaitingPlaces(q, t, c);
  }

  lemma WaitingPlaces(q: Q.State, t: nat, c: Q.Choice)
    requires Q.Enabled(q, t, c) && q.pcs[t].InWait? && !q.sem.pcs[t].Returned?
    ensures var q' := Q.Step(q, t, c);
      && |q'.pcs| == |q.pcs| == |q'.sem.pcs| == |q.sem.pcs| && q'.pcs[t] == Q.InWait
      && q'.sem.pcs[t] == Sem.Act(q.sem.pcs[t], q.sem.count, q.sem.kernel, Q.SemChoice(Q.InWait, c)).pc
  {
  }

  ghost predicate Lands(s: State, t: nat, c: Choice)
    requires Enabled(s, t, c)
  {
    var s' := Step(s, t, c);
    && |s'.q.pcs| == |s'.pcs| == |s.pcs| == |s'.q.sem.pcs|
    && ThreadInv(t, s'.pcs[t], s'.q.pcs[t], s'.q.sem.pcs[t])
  }

  lemma PacketThreadLands(s: State, t: nat, c: Choice)
    requires Threads(s) && Enabled(s, t, c) && t > 0
    ensures Lands(s, t, c)
  {
    assert ThreadInv(t, s.pcs[t], s.q.pcs[t], s.q.sem.pcs[t]);
    if s.pcs[t].Check? {
      ProducingStays(s.q, t, Q.Enqueue([s.pcs[t].packet]));
      QueueFrame(s.q, t, Q.Enqueue([s.pcs[t].packet]));
    } else if s.pcs[t].InEnqueue? {
      ProducingStays(s.q, t, c.choice);
      QueueFrame(s.q, t, c.choice);
    }
  }

  lemma LoopTakes(s: State, c: Choice)
    requires Threads(s) && Enabled(s, 0, c) && (s.pcs[0].Trying? || s.pcs[0].Taking?)
    ensures Lands(s, 0, c)
  {
    ConsumingStays(s.q, 0, c.choice, if s.pcs[0].Trying? then Sem.Try else Sem.Forever);
    QueueFrame(s.q, 0, c.choice);
  }

  lemma LoopStarts(s: State, c: Choice)
    requires Threads(s) && Enabled(s, 0, c) && (s.pcs[0].Idle? || s.pcs[0].Notify?)
    ensures Lands(s, 0, c)
  {
    var kind := if s.pcs[0].Idle? then Sem.Try else Sem.Forever;
    if Q.Enabled(s.q, 0, Q.Dequeue(1, kind)) {
      ConsumingStays(s.q, 0, Q.Dequeue(1, kind), kind);
      QueueFrame(s.q, 0, Q.Dequeue(1, kind));
    }
  }

  lemma StepLands(s: State, t: nat, c: Choice)
    requires Threads(s) && Enabled(s, t, c)
    ensures Lands(s, t, c)
  {
    assert ThreadInv(t, s.pcs[t], s.q.pcs[t], s.q.sem.pcs[t]);
    if t > 0 {
      PacketThreadLands(s, t, c);
    } else if s.pcs[t].Trying? || s.pcs[t].Taking? {
      LoopTakes(s, c);
    } else if s.pcs[t].Idle? || s.pcs[t].Notify? {
      LoopStarts(s, c);
    }
  }

  /** The call or choice that a step makes of the queue, if it makes one. */
  datatype QueueUse = NoUse | Use(choice: Q.Choice)

  ghost function UseOf(s: State, t: nat, c: Choice): QueueUse
    requires Enabled(s, t, c)
  {
    match s.pcs[t]
    case Idle => if t == 0 && c.Receive? then Use(Q.Dequeue(1, Sem.Try)) else NoUse
    case Check(x) => if Max(0, s.q.sem.count) > LIMIT then NoUse else Use(Q.Enqueue([x]))
    case InEnqueue => Use(c.choice)
    case Trying(_) => Use(c.choice)
    case Notify => if c.gone then NoUse else Use(Q.Dequeue(1, Sem.Forever))
    case Taking => Use(c.choice)
    case _ => NoUse
  }

  lemma StepUsesQueue(s: State, t: nat, c: Choice)
    requires Enabled(s, t, c)
    ensures var s' := Step(s, t, c); var u := UseOf(s, t, c);
      && (u.Use? ==> Q.Enabled(s.q, t, u.choice))
      && s'.q == (if u.Use? then Q.Step(s.q, t, u.choice) else s.q)
      && |s'.pcs| == |s.pcs| && s'.pcs == s.pcs[t := s'.pcs[t]] && s'.capacity == s.capacity
  {
  }

  lemma StepKeepsThreads(s: State, t: nat, c: Choice)
    requires Threads(s) && Enabled(s, t, c)
    ensures Threads(Step(s, t, c))
  {
    var s' := Step(s, t, c);
    var u := UseOf(s, t, c);
    StepLands(s, t, c);
    StepUsesQueue(s, t, c);
    if u.Use? {
      Q.StepKeepsInv(s.q, t, u.choice);
      QueueFrame(s.q, t, u.choice);
    }
    forall v | 0 <= v < |s'.pcs| ensures ThreadInv(v, s'.pcs[v], s'.q.pcs[v], s'.q.sem.pcs[v]) {
      assert ThreadInv(v, s.pcs[v], s.q.pcs[v], s.q.sem.pcs[v]);
    }
  }

  // ---- Notification -------------------------------------------------------------------

  /** The threads other than the event loop neither wait in the semaphore nor take elements. */
  lemma OnlyLoopConsumes(s: State)
    requires Threads(s)
    ensures Sem.Waiters(s.q.sem) == Sem.Waits()(s.q.sem.pcs[0])
    ensures Sem.Held(s.q.sem) == Sem.Holds()(s.q.sem.pcs[0])
    ensures Q.Outstanding(s.q) == Q.Lefts()(s.q.pcs[0])
  {
    forall t | 0 < t < |s.pcs|
      ensures !Q.Waiting(s.q.sem.pcs[t]) && !s.q.pcs[t].Retry?
    {
      assert ThreadInv(t, s.pcs[t], s.q.pcs[t], s.q.sem.pcs[t]);
      assert Q.ThreadInv(s.q.pcs[t], s.q.sem.pcs[t]);
    }
    TotalOnly(s.q.sem.pcs, Sem.Waits(), 0);
    TotalOnly(s.q.sem.pcs, Sem.Holds(), 0);
    TotalOnly(s.q.pcs, Q.Lefts(), 0);
  }

  /** An attempt that sees no permit sees the truth: every element left is still to be signalled. */
  lemma EmptySeen(s: State)
    requires Threads(s) && s.pcs[0].Trying? && s.q.pcs[0].InWait?
    requires s.q.sem.pcs[0].TryLoad? || s.q.sem.pcs[0].TryCas?
    requires s.q.sem.pcs[0].ask.got == 0 && s.q.sem.count <= 0
    ensures Q.Items(s.q) == Q.Due(s.q)
  {
    OnlyLoopConsumes(s);
    Q.ElementsAccounted(s.q);
  }

  /** A signal that is still due belongs to a packet thread on its way to the pipe. */
  lemma DueIsMidway(s: State)
    requires Threads(s) && Q.Due(s.q) > 0
    ensures SomeMidway(s)
  {
    var t := TotalWitness(s.q.pcs, Q.Dues());
    assert ThreadInv(t, s.pcs[t], s.q.pcs[t], s.q.sem.pcs[t]);
    assert Midway(s, t);
  }

  /** How an attempt comes to fail. */
  lemma FailsOnNoPermit(s: State, c: Choice)
    requires Threads(s) && Enabled(s, 0, c) && s.pcs[0].Trying? && !Failed(s)
    requires Threads(Step(s, 0, c)) && Failed(Step(s, 0, c))
    ensures s.q.pcs[0].InWait? && (s.q.sem.pcs[0].TryLoad? || s.q.sem.pcs[0].TryCas?)
    ensures s.q.sem.pcs[0].ask.got == 0 && s.q.sem.count <= 0
  {
    assert ThreadInv(0, s.pcs[0], s.q.pcs[0], s.q.sem.pcs[0]);
    assert Sem.ThreadInv(s.q.sem.pcs[0]);
  }

  /** What a packet thread's step can do to the others' view of the queue and the pipe. */
  lemma PacketThreadEffect(s: State, t: nat, c: Choice)
    requires Inv(s) && Enabled(s, t, c) && t > 0 && Threads(Step(s, t, c))
    ensures var s' := Step(s, t, c);
      && s'.waiting == s.waiting && s'.pcs[0] == s.pcs[0]
      && s'.q.pcs[0] == s.q.pcs[0] && s'.q.sem.pcs[0] == s.q.sem.pcs[0]
      && (forall w :: 0 <= w < |s.pcs| && w != t ==> (Midway(s', w) <==> Midway(s, w)))
      && (s.pipe > 0 ==> s'.pipe > 0)
      && (s'.pipe > 0 ==> s.pipe > 0 || Midway(s, t))
      && (Midway(s, t) ==> Midway(s', t) || s'.pipe > 0)
      && Q.Items(s.q) <= Q.Items(s'.q)
      && (s'.clean ==> s.clean)
      && (Q.Items(s.q) < Q.Items(s'.q) ==> Midway(s', t))
      && (Midway(s', t) && s'.clean ==> Midway(s, t) || Q.Items(s.q) < Q.Items(s'.q))
  {
    var u := UseOf(s, t, c);
    StepUsesQueue(s, t, c);
    assert ThreadInv(t, s.pcs[t], s.q.pcs[t], s.q.sem.pcs[t]);
    if u.Use? {
      QueueFrame(s.q, t, u.choice);
      QueueItems(s.q, t, u.choice);
      ProducingStays(s.q, t, u.choice);
    }
  }

  /** Packet threads only ever add notice, and a packet comes with each. */
  lemma PacketThreadKeepsNotice(s: State, t: nat, c: Choice)
    requires Inv(s) && Enabled(s, t, c) && t > 0 && Threads(Step(s, t, c))
    ensures var s' := Step(s, t, c);
      (Relies(s') && Q.Items(s'.q) > 0 ==> Notified(s')) && Fresh(s') && TakesForWaiter(s')
  {
    var s' := Step(s, t, c);
    PacketThreadEffect(s, t, c);
    if SomeMidway(s) {
      var w :| 0 <= w < |s.pcs| && Midway(s, w);
      assert Midway(s', w) || s'.pipe > 0;
    }
    if SomeMidway(s') {
      var w :| 0 <= w < |s.pcs| && Midway(s', w);
      assert Midway(s, w) || (w == t && !Midway(s, t));
    }
  }

  lemma LoopKeepsFresh(s: State, c: Choice)
    requires Inv(s) && Enabled(s, 0, c) && Threads(Step(s, 0, c))
    ensures Fresh(Step(s, 0, c)) && TakesForWaiter(Step(s, 0, c))
  {
    LoopKeepsMidway(s, c);
    assert ThreadInv(0, s.pcs[0], s.q.pcs[0], s.q.sem.pcs[0]);
  }

  /** The event loop relies on notice only after it has seen an empty queue. */
  lemma LoopKeepsNotice(s: State, c: Choice)
    requires Inv(s) && Enabled(s, 0, c) && Threads(Step(s, 0, c))
    ensures var s' := Step(s, 0, c); Relies(s') && Q.Items(s'.q) > 0 ==> Notified(s')
  {
    var s' := Step(s, 0, c);
    LoopKeepsMidway(s, c);
    if Relies(s') && Q.Items(s'.q) > 0 && !Relies(s) {
      assert s.pcs[0].Trying? && Failed(s');
      FailsOnNoPermit(s, c);
      EmptySeen(s);
      DueIsMidway(s);
    }
  }

  lemma LoopKeepsMidway(s: State, c: Choice)
    requires Inv(s) && Enabled(s, 0, c) && Threads(Step(s, 0, c))
    ensures var s' := Step(s, 0, c);
      && (SomeMidway(s') <==> SomeMidway(s))
      && (s'.pipe == s.pipe || s.pcs[0].Drain?)
      && var u := UseOf(s, 0, c);
      Q.Items(s'.q) == Q.Items(s.q) - if u.Use? && s.q.pcs[0].Retry? then u.choice.k else 0
  {
    var s' := Step(s, 0, c);
    var u := UseOf(s, 0, c);
    StepUsesQueue(s, 0, c);
    assert ThreadInv(0, s.pcs[0], s.q.pcs[0], s.q.sem.pcs[0]);
    assert ThreadInv(0, s'.pcs[0], s'.q.pcs[0], s'.q.sem.pcs[0]);
    if u.Use? {
      QueueFrame(s.q, 0, u.choice);
      QueueItems(s.q, 0, u.choice);
    }
    forall w | 0 <= w < |s.pcs| ensures Midway(s', w) <==> Midway(s, w) { }
  }

  // ---- The limit ----------------------------------------------------------------------

  /** The event loop never waits for a limited time, so its steps only lower the count. */
  lemma TakingLowersCount(q: Q.State, t: nat, c: Q.Choice, kind: Sem.Kind)
    requires Q.Inv(q) && Q.Enabled(q, t, c) && kind != Sem.Timed
    requires Consuming(q.pcs[t], q.sem.pcs[t], kind) || (q.pcs[t].Idle? && c == Q.Dequeue(1, kind))
    ensures var q' := Q.Step(q, t, c);
      && q'.sem.count <= q.sem.count
      && Pasts()(q'.pcs[t]) == Pasts()(q.pcs[t]) == 0
  {
    assert Q.ThreadInv(q.pcs[t], q.sem.pcs[t]);
    assert Sem.ThreadInv(q.sem.pcs[t]);
  }

  lemma PuttingBalances(q: Q.State, t: nat, c: Q.Choice)
    requires Q.Enabled(q, t, c) && Producing(q.pcs[t])
    ensures var q' := Q.Step(q, t, c);
      q'.sem.count + Pasts()(q'.pcs[t]) <= q.sem.count + Pasts()(q.pcs[t])
  {
  }

  lemma CheckKeepsLimit(s: State, t: nat, c: Choice)
    requires Inv(s) && Enabled(s, t, c) && s.pcs[t].Check? && Threads(Step(s, t, c))
    ensures Limited(Step(s, t, c))
  {
    var s' := Step(s, t, c);
    if s'.pcs[t].InEnqueue? {
      assert ThreadInv(0, s'.pcs[0], s'.q.pcs[0], s'.q.sem.pcs[0]);
      TotalBelow(s'.q.pcs, Pasts(), 0);
    }
  }

  lemma StepKeepsLimit(s: State, t: nat, c: Choice)
    requires Inv(s) && Enabled(s, t, c) && Threads(Step(s, t, c))
    ensures Limited(Step(s, t, c))
  {
    var s' := Step(s, t, c);
    var u := UseOf(s, t, c);
    StepUsesQueue(s, t, c);
    assert ThreadInv(t, s.pcs[t], s.q.pcs[t], s.q.sem.pcs[t]);
    if s.pcs[t].Check? {
      CheckKeepsLimit(s, t, c);
    } else if u.Use? {
      QueueFrame(s.q, t, u.choice);
      TotalUpdate(s.q.pcs, Pasts(), t, s'.q.pcs[t]);
      if t > 0 {
        PuttingBalances(s.q, t, u.choice);
      } else {
        TakingLowersCount(s.q, t, u.choice, if s.pcs[0].Idle? || s.pcs[0].Trying? then Sem.Try else Sem.Forever);
      }
    }
  }

  lemma StepKeepsInv(s: State, t: nat, c: Choice)
    requires Inv(s) && Enabled(s, t, c)
    ensures Inv(Step(s, t, c))
  {
    StepKeepsThreads(s, t, c);
    StepKeepsLimit(s, t, c);
    StepUsesQueue(s, t, c);
    if t > 0 {
      PacketThreadKeepsNotice(s, t, c);
    } else {
      LoopKeepsNotice(s, c);
      LoopKeepsFresh(s, c);
    }
  }

  // ---- Runs ---------------------------------------------------------------------------

  ghost predicate StepBy(s: State, s': State, t: nat, c: Choice) {
    Enabled(s, t, c) && s' == Step(s, t, c)
  }

  ghost predicate Next(s: State, s': State) {
    exists t: nat, c: Choice :: StepBy(s, s', t, c)
  }

  ghost predicate StepAt(r: seq<State>, i: nat)
    requires 0 < i < |r|
  {
    Next(r[i - 1], r[i])
  }

  ghost predicate Path(r: seq<State>) {
    && |r| > 0
    && forall i :: 0 < i < |r| ==> StepAt(r, i)
  }

  ghost predicate Run(r: seq<State>) {
    Path(r) && Init(r[0])
  }

  lemma {:induction false} RunInv(r: seq<State>, i: nat)
    requires Run(r) && i < |r|
    ensures Inv(r[i])
  {
    if i == 0 {
      InitInv(r[0]);
    } else {
      RunInv(r, i - 1);
      assert StepAt(r, i);
      var t: nat, c: Choice :| StepBy(r[i - 1], r[i], t, c);
      StepKeepsInv(r[i - 1], t, c);
    }
  }

  /** No lost notification: outside the callback, whenever the event loop waits and the queue
      holds a packet, the pipe holds a byte or a packet thread is about to write one. */
  lemma NoLostNotification(r: seq<State>, i: nat)
    requires Run(r) && i < |r| && r[i].waiting && |r[i].pcs| == |r[i].q.pcs| > 0
    requires !InCallback(r[i].pcs[0]) && Q.Items(r[i].q) > 0
    ensures r[i].pipe > 0 || exists t :: 0 <= t < |r[i].pcs| && Midway(r[i], t)
  {
    RunInv(r, i);
  }

  /** With `k` packet threads, the semaphore's count plus the threads past the limit check that
      have not signalled never exceeds the limit by more than `k`. */
  lemma OvershootAtMostOneEach(r: seq<State>, i: nat)
    requires Run(r) && i < |r|
    ensures r[i].q.sem.count + Past(r[i]) <= 128 + (|r[i].pcs| - 1)
  {
    RunInv(r, i);
  }

  /** So the queue never holds more packets than the limit, one a packet thread, and the one
      that the event loop is taking. */
  lemma QueueIsBounded(r: seq<State>, i: nat)
    requires Run(r) && i < |r|
    ensures Q.Items(r[i].q) <= 128 + (|r[i].pcs| - 1) + 1
  {
    var s := r[i];
    RunInv(r, i);
    Q.ElementsAccounted(s.q);
    OnlyLoopConsumes(s);
    DueIsPast(s);
    assert ThreadInv(0, s.pcs[0], s.q.pcs[0], s.q.sem.pcs[0]);
    assert Q.ThreadInv(s.q.pcs[0], s.q.sem.pcs[0]);
    assert Sem.ThreadInv(s.q.sem.pcs[0]);
    TotalBelow(s.q.pcs, Pasts(), 0);
  }

  lemma DueIsPast(s: State)
    requires Threads(s)
    ensures Q.Due(s.q) <= Past(s)
  {
    forall t | 0 <= t < |s.q.pcs| ensures Q.Dues()(s.q.pcs[t]) <= Pasts()(s.q.pcs[t]) {
      assert ThreadInv(t, s.pcs[t], s.q.pcs[t], s.q.sem.pcs[t]);
    }
    TotalOrdered(s.q.pcs, Q.Dues(), Pasts());
  }

  // ---- When the callback blocks the event loop ----------------------------------------

  ghost function Last(r: seq<State>): State
    requires |r| > 0
  {
    r[|r| - 1]
  }

  /** The event loop is in its callback. */
  ghost predicate Serving(s: State) {
    |s.pcs| > 0 && InCallback(s.pcs[0])
  }

  /** The callback, from the moment it becomes due in `r[0]`, with whatever the packet threads do
      meanwhile. */
  ghost predicate Callback(r: seq<State>) {
    Path(r) && forall i :: 0 < i < |r| ==> Serving(r[i])
  }

  /** Blocked in the kernel with nothing on its way: only a packet that is yet to be enqueued can
      get the event loop going again. */
  ghost predicate LoopBlocked(s: State) {
    && |s.pcs| > 0 && s.pcs[0].Taking?
    && (forall c :: !Enabled(s, 0, c))
    && Sem.Owed(s.q.sem) == 0 && Q.Due(s.q) == 0
  }

  /** The callback has not taken its packet yet. */
  ghost predicate StillTaking(p: Pc) {
    InCallback(p) && !p.ClearWaiting?
  }

  /** Until the callback has its packet, no step of anyone takes the last one away. */
  lemma StepKeepsPacket(s: State, t: nat, c: Choice)
    requires Inv(s) && Enabled(s, t, c) && Q.Items(s.q) > 0
    requires s.pcs[0].Idle? || StillTaking(s.pcs[0])
    requires Serving(Step(s, t, c)) && StillTaking(Step(s, t, c).pcs[0])
    ensures Q.Items(Step(s, t, c).q) > 0
  {
    StepKeepsThreads(s, t, c);
    assert ThreadInv(0, s.pcs[0], s.q.pcs[0], s.q.sem.pcs[0]);
    if t > 0 {
      PacketThreadEffect(s, t, c);
    } else {
      LoopKeepsMidway(s, c);
    }
  }

  /** Once the callback has its packet, it keeps to what is left of it. */
  lemma StepStaysDone(s: State, t: nat, c: Choice)
    requires Inv(s) && Enabled(s, t, c) && s.pcs[0].ClearWaiting? && Serving(Step(s, t, c))
    ensures Step(s, t, c).pcs[0].ClearWaiting?
  {
    StepUsesQueue(s, t, c);
  }

  /** The callback has its packet, or there is one for it. */
  ghost predicate Supplied(s: State) {
    |s.pcs| > 0 && (s.pcs[0].ClearWaiting? || ((s.pcs[0].Idle? || StillTaking(s.pcs[0])) && Q.Items(s.q) > 0))
  }

  lemma StepKeepsSupplied(s: State, s': State)
    requires Inv(s) && Next(s, s') && Supplied(s) && Serving(s')
    ensures Inv(s') && Supplied(s')
  {
    var t: nat, c: Choice :| StepBy(s, s', t, c);
    StepKeepsInv(s, t, c);
    if s.pcs[0].ClearWaiting? {
      StepStaysDone(s, t, c);
    } else if StillTaking(s'.pcs[0]) {
      StepKeepsPacket(s, t, c);
    }
  }

  lemma {:induction false} CallbackKeepsPacket(r: seq<State>, i: nat)
    requires Callback(r) && i < |r| && Inv(r[0]) && r[0].pcs[0].Idle? && Q.Items(r[0].q) > 0
    ensures Inv(r[i]) && Supplied(r[i])
  {
    if i > 0 {
      CallbackKeepsPacket(r, i - 1);
      assert StepAt(r, i) && Serving(r[i]);
      StepKeepsSupplied(r[i - 1], r[i]);
    }
  }

  /** Blocked for good means that the queue is empty. */
  lemma BlockedMeansEmpty(s: State)
    requires Inv(s) && LoopBlocked(s)
    ensures Q.Items(s.q) == 0
  {
    Q.ElementsAccounted(s.q);
    OnlyLoopConsumes(s);
    assert ThreadInv(0, s.pcs[0], s.q.pcs[0], s.q.sem.pcs[0]);
    assert Q.ThreadInv(s.q.pcs[0], s.q.sem.pcs[0]);
    assert Sem.ThreadInv(s.q.sem.pcs[0]);
    assert !Enabled(s, 0, Queue(Q.Go(false)));
    assert !Enabled(s, 0, Queue(Q.Take(0, 0)));
  }

  /** With a packet in the queue when the callback starts, no state of the callback is blocked:
      whatever the packet threads do, it gets its packet. */
  lemma PacketMeansServed(r: seq<State>, i: nat)
    requires Callback(r) && i < |r| && Inv(r[0]) && r[0].pcs[0].Idle? && Q.Items(r[0].q) > 0
    ensures !LoopBlocked(r[i])
  {
    CallbackKeepsPacket(r, i);
    if LoopBlocked(r[i]) {
      BlockedMeansEmpty(r[i]);
    }
  }

  ghost predicate CanBlock(s: State) {
    exists r: seq<State> :: Callback(r) && r[0] == s && LoopBlocked(Last(r))
  }

  /** Exactly when the callback can block the event loop: in every state of every run in which it
      is due and somebody waits, it can if and only if the queue is empty. */
  lemma CallbackBlocksIffEmpty(r: seq<State>, i: nat)
    requires Run(r) && i < |r| && |r[i].pcs| > 0 && r[i].pcs[0].Idle? && r[i].waiting && r[i].pipe > 0
    ensures CanBlock(r[i]) <==> Q.Items(r[i].q) == 0
  {
    RunInv(r, i);
    if Q.Items(r[i].q) == 0 {
      var p := StaleByteBlocks(r[i]);
    } else if CanBlock(r[i]) {
      var p :| Callback(p) && p[0] == r[i] && LoopBlocked(Last(p));
      PacketMeansServed(p, |p| - 1);
    }
  }

  /** If the pipe was empty and nobody was about to write to it when `waiting` was set, and since
      then no enqueue failed and no other receive request took a packet, the callback finds its
      packet. */
  lemma CleanCallbackIsServed(r: seq<State>, i: nat)
    requires Run(r) && i < |r| && |r[i].pcs| > 0 && r[i].pcs[0].Taking? && r[i].clean
    ensures Q.Items(r[i].q) > 0 && !LoopBlocked(r[i])
  {
    RunInv(r, i);
    if LoopBlocked(r[i]) {
      BlockedMeansEmpty(r[i]);
    }
  }

  /** A path with one more step. */
  lemma Then(r: seq<State>, t: nat, c: Choice) returns (r': seq<State>)
    requires Path(r) && Enabled(Last(r), t, c)
    ensures Path(r') && r' == r + [Step(Last(r), t, c)]
  {
    r' := r + [Step(Last(r), t, c)];
    forall i | 0 < i < |r'| ensures StepAt(r', i) {
      if i < |r| {
        assert StepAt(r, i);
      } else {
        assert StepBy(r'[i - 1], r'[i], t, c);
      }
    }
  }

  /** A callback with one more step. */
  lemma OnwardWith(r: seq<State>, t: nat, c: Choice) returns (r': seq<State>)
    requires Callback(r) && Enabled(Last(r), t, c) && Serving(Step(Last(r), t, c))
    ensures Callback(r') && r'[0] == r[0] && |r'| > 1 && Last(r') == Step(Last(r), t, c)
  {
    r' := Then(r, t, c);
  }

  lemma {:induction false} DrainAll(r: seq<State>) returns (r': seq<State>)
    requires Callback(r) && Inv(Last(r)) && Last(r).pcs[0].Drain?
    ensures Callback(r') && r'[0] == r[0] && Last(r') == Last(r).(pipe := 0)
    decreases Last(r).pipe
  {
    r' := r;
    if Last(r).pipe > 0 {
      StepKeepsInv(Last(r), 0, Go(false));
      var r1 := OnwardWith(r, 0, Go(false));
      r' := DrainAll(r1);
    }
  }

  /** Inside the callback's take, with no permit to be had. */
  ghost predicate TakingAt(s: State, p: Sem.Pc) {
    && Q.Sized(s.q) && |s.pcs| == |s.q.pcs| > 0
    && s.pcs[0] == Taking && s.q.pcs[0] == Q.InWait && s.q.sem.pcs[0] == p
    && s.q.sem.count <= 0 && s.q.sem.kernel == 0
  }

  lemma TakingMoves(r: seq<State>, p: Sem.Pc, p': Sem.Pc) returns (r': seq<State>)
    requires Callback(r) && TakingAt(Last(r), p)
    requires var a := Sem.Ask(1, Sem.Forever, 0);
      || (p == Sem.TryLoad(a) && p' == Sem.SpinLoad(a))
      || (p == Sem.SpinLoad(a) && p' == Sem.Commit(a))
      || (p == Sem.Commit(a) && p' == Sem.KernelWait(a))
    ensures Callback(r') && r'[0] == r[0] && TakingAt(Last(r'), p')
    ensures SameButLoop(Last(r), Last(r'))
  {
    var s' := Step(Last(r), 0, Queue(Q.Go(p.SpinLoad?)));
    assert TakingAt(s', p');
    r' := OnwardWith(r, 0, Queue(Q.Go(p.SpinLoad?)));
  }

  /** Only the event loop has moved, and it has neither put nor taken anything. */
  ghost predicate SameButLoop(s: State, s': State) {
    && s'.q.subs == s.q.subs
    && |s'.pcs| == |s.pcs| == |s'.q.pcs| == |s.q.pcs| == |s'.q.sem.pcs| == |s.q.sem.pcs|
    && forall t :: 0 < t < |s.pcs| ==>
         s'.pcs[t] == s.pcs[t] && s'.q.pcs[t] == s.q.pcs[t] && s'.q.sem.pcs[t] == s.q.sem.pcs[t]
  }

  lemma TakeStarts(r: seq<State>) returns (r': seq<State>)
    requires Callback(r) && Inv(Last(r)) && Last(r).pcs[0].Notify? && Q.Items(Last(r).q) == 0
    ensures Callback(r') && r'[0] == r[0] && TakingAt(Last(r'), Sem.TryLoad(Sem.Ask(1, Sem.Forever, 0)))
    ensures SameButLoop(Last(r), Last(r'))
  {
    var s := Last(r);
    Q.ElementsAccounted(s.q);
    assert ThreadInv(0, s.pcs[0], s.q.pcs[0], s.q.sem.pcs[0]);
    assert Q.ThreadInv(s.q.pcs[0], s.q.sem.pcs[0]);
    r' := OnwardWith(r, 0, Go(false));
  }

  /** The callback's take on an empty queue ends up blocked in the kernel. */
  lemma TakeBlocks(r: seq<State>) returns (r': seq<State>)
    requires Callback(r) && Inv(Last(r)) && Last(r).pcs[0].Notify? && Q.Items(Last(r).q) == 0
    ensures Callback(r') && r'[0] == r[0] && LoopBlocked(Last(r')) && SameButLoop(Last(r), Last(r'))
  {
    var a := Sem.Ask(1, Sem.Forever, 0);
    r' := TakeStarts(r);
    r' := TakingMoves(r', Sem.TryLoad(a), Sem.SpinLoad(a));
    r' := TakingMoves(r', Sem.SpinLoad(a), Sem.Commit(a));
    r' := TakingMoves(r', Sem.Commit(a), Sem.KernelWait(a));
    NothingUnderWay(Last(r), Last(r'));
    KernelBlocks(Last(r'));
  }

  /** With an empty queue nothing is owed or due, and that does not depend on the event loop. */
  lemma NothingUnderWay(s: State, s': State)
    requires Inv(s) && Q.Items(s.q) == 0 && SameButLoop(s, s')
    requires s'.q.pcs[0].InWait? && !s'.q.sem.pcs[0].Posting? && s.q.pcs[0].Idle?
    ensures Sem.Owed(s'.q.sem) == 0 && Q.Due(s'.q) == 0
  {
    Q.ElementsAccounted(s.q);
    forall t | 0 <= t < |s'.pcs| ensures Sem.OwesOf(s'.q.sem.pcs[t]) == 0 && Q.Dues()(s'.q.pcs[t]) == 0 {
      if t > 0 {
        TotalUpdate(s.q.sem.pcs, Sem.Owes(), t, s.q.sem.pcs[t]);
        TotalUpdate(s.q.pcs, Q.Dues(), t, s.q.pcs[t]);
      }
    }
    TotalNone(s'.q.sem.pcs, Sem.Owes());
    TotalNone(s'.q.pcs, Q.Dues());
  }

  lemma KernelBlocks(s: State)
    requires TakingAt(s, Sem.KernelWait(Sem.Ask(1, Sem.Forever, 0)))
    ensures forall c :: !Enabled(s, 0, c)
  {
  }

  /** A byte without a packet blocks the event loop: from every such state in which it waits, its
      own steps lead to a take that nothing but a new packet can end. */
  lemma StaleByteBlocks(s: State) returns (r: seq<State>)
    requires Inv(s) && s.pcs[0].Idle? && s.waiting && s.pipe > 0 && Q.Items(s.q) == 0
    ensures Callback(r) && r[0] == s && LoopBlocked(Last(r)) && SameButLoop(s, Last(r))
  {
    r := [s];
    StepKeepsInv(s, 0, Readable);
    r := OnwardWith(r, 0, Readable);
    var drained := Last(r).(pipe := 0);
    r := DrainAll(r);
    r := OnwardWith(r, 0, Go(false));
    r := OnwardWith(r, 0, Go(false));
    assert Last(r) == Goto(drained, 0, Notify);
    NotifyInv(s, Last(r));
    r := TakeBlocks(r);
  }

  /** Between becoming readable and taking, the callback only empties the pipe. */
  lemma NotifyInv(s: State, s': State)
    requires Inv(s) && s.pcs[0].Idle? && s.waiting && s.pipe > 0
    requires s' == Goto(s.(pipe := 0), 0, Notify)
    ensures Inv(s')
  {
    forall t | 0 <= t < |s'.pcs| ensures ThreadInv(t, s'.pcs[t], s'.q.pcs[t], s'.q.sem.pcs[t]) {
      assert ThreadInv(t, s.pcs[t], s.q.pcs[t], s.q.sem.pcs[t]);
    }
  }

  /** Such a state is reached with one packet: it is taken by a receive request, its byte stays
      in the pipe, and the next request finds nothing and sets `waiting`. */
  lemma StaleByteReachable(capacity: nat) returns (r: seq<State>)
    requires capacity > 0
    ensures Run(r)
    ensures var s := Last(r); |s.pcs| > 0 && s.pcs[0].Idle? && s.waiting && s.pipe > 0 && Q.Items(s.q) == 0
  {
    r := [Example(capacity, 0, 0, 0, [[], []], [[], []], [[], []], 0)];
    r := PacketComes(r, capacity);
    r := PacketTaken(r, capacity);
    r := RequestWaits(r, capacity);
    TotalNone(Last(r).q.subs, Q.Lengths());
  }

  /** Two threads at rest. */
  ghost function Example(capacity: nat, count: int, signalled: nat, returned: nat,
                         subs: seq<seq<Q.Item>>, put: seq<seq<Q.Item>>, given: seq<seq<Q.Item>>, pipe: nat): State
  {
    var sem := Sem.State(count, 0, [Sem.Idle, Sem.Idle], 0, signalled, returned);
    State(Q.State(sem, subs, [Q.Idle, Q.Idle], put, given, returned), pipe, capacity, false, [Idle, Idle], false)
  }

  /** The event loop's place, the packet thread being at rest. */
  ghost predicate AtPlaces(s: State, p: Pc, qp: Q.Pc, sp: Sem.Pc) {
    s.pcs == [p, Idle] && s.q.pcs == [qp, Q.Idle] && s.q.sem.pcs == [sp, Sem.Idle]
  }

  lemma PacketComes(r: seq<State>, capacity: nat) returns (r': seq<State>)
    requires capacity > 0 && Path(r) && Last(r) == Example(capacity, 0, 0, 0, [[], []], [[], []], [[], []], 0)
    ensures Path(r') && r'[0] == r[0]
    ensures Last(r') == Example(capacity, 1, 1, 0, [[], [7]], [[], [7]], [[], []], 1)
  {
    r' := Then(r, 1, Arrive(7));
    r' := Then(r', 1, Go(false));
    r' := Then(r', 1, Queue(Q.Go(false)));
    assert Last(r').q.subs[1] == [7] && Last(r').q.put[1] == [7];
    assert Last(r').q.subs == [[], [7]] && Last(r').q.put == [[], [7]];
    r' := Then(r', 1, Queue(Q.Go(false)));
    r' := Then(r', 1, Go(false));
    assert AtPlaces(Last(r'), Idle, Q.Idle, Sem.Idle);
  }

  lemma PermitSeen(r: seq<State>, capacity: nat) returns (r': seq<State>)
    requires Path(r) && Last(r) == Example(capacity, 1, 1, 0, [[], [7]], [[], [7]], [[], []], 1)
    ensures Path(r') && r'[0] == r[0]
    ensures var e := Example(capacity, 1, 1, 0, [[], [7]], [[], [7]], [[], []], 1);
      Last(r') == e.(pcs := [Trying(true), Idle], q := e.q.(pcs := [Q.InWait, Q.Idle],
        sem := e.q.sem.(pcs := [Sem.TryCas(Sem.Ask(1, Sem.Try, 0), 1), Sem.Idle])))
  {
    r' := Then(r, 0, Receive(true));
    r' := Then(r', 0, Queue(Q.Go(false)));
    assert AtPlaces(Last(r'), Trying(true), Q.InWait, Sem.TryCas(Sem.Ask(1, Sem.Try, 0), 1));
  }

  lemma PermitTaken(r: seq<State>, capacity: nat) returns (r': seq<State>)
    requires Path(r) && Last(r) == Example(capacity, 1, 1, 0, [[], [7]], [[], [7]], [[], []], 1)
    ensures Path(r') && r'[0] == r[0]
    ensures AtPlaces(Last(r'), Trying(true), Q.Retry(1), Sem.Idle)
    ensures var e := Example(capacity, 0, 1, 1, [[], [7]], [[], [7]], [[], []], 1);
      Last(r') == e.(pcs := [Trying(true), Idle], q := e.q.(pcs := [Q.Retry(1), Q.Idle], delivered := 0))
  {
    r' := PermitSeen(r, capacity);
    r' := Then(r', 0, Queue(Q.Go(false)));
    r' := Then(r', 0, Queue(Q.Go(false)));
    assert AtPlaces(Last(r'), Trying(true), Q.Retry(1), Sem.Idle);
  }

  lemma PacketTaken(r: seq<State>, capacity: nat) returns (r': seq<State>)
    requires Path(r) && Last(r) == Example(capacity, 1, 1, 0, [[], [7]], [[], [7]], [[], []], 1)
    ensures Path(r') && r'[0] == r[0]
    ensures Last(r') == Example(capacity, 0, 1, 1, [[], []], [[], [7]], [[], [7]], 1)
  {
    r' := PermitTaken(r, capacity);
    r' := Then(r', 0, Queue(Q.Take(1, 1)));
    assert AtPlaces(Last(r'), Idle, Q.Idle, Sem.Idle);
    assert Last(r').q.subs[1] == [] && Last(r').q.given[1] == [7];
    assert Last(r').q.subs == [[], []] && Last(r').q.given == [[], [7]];
  }

  lemma RequestWaits(r: seq<State>, capacity: nat) returns (r': seq<State>)
    requires Path(r) && Last(r) == Example(capacity, 0, 1, 1, [[], []], [[], [7]], [[], [7]], 1)
    ensures Path(r') && r'[0] == r[0]
    ensures Last(r') == Last(r).(waiting := true)
  {
    r' := Then(r, 0, Receive(true));
    r' := Then(r', 0, Queue(Q.Go(false)));
    r' := Then(r', 0, Queue(Q.Go(false)));
    r' := Then(r', 0, Go(false));
    assert AtPlaces(Last(r'), Idle, Q.Idle, Sem.Idle);
  }
}
