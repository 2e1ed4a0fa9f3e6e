/** `BlockingConcurrentQueue`: an inner queue and a semaphore that counts its elements. Every
    enqueue, single or bulk, signals after it has published; every dequeue first takes permits
    and then retries on the inner queue until it has one element a permit. The inner queue is
    one first-in first-out sequence a producer thread, whose bulk operations are atomic. */
module BlockingQueue {
  import opened Basics
  import opened Tally
  import Sem = Semaphore

  /** Identity of an element. */
  type Item = nat

  /** Program counters. `InSignal` and `InWait` are inside a call of the semaphore, whose own
      program counter says where; `Retry` still has to find `left` elements. */
  datatype Pc =
    | Idle
    | Put(xs: seq<Item>)
    | SignalDue(n: nat)
    | InSignal
    | InWait
    | Retry(left: nat)

  /** The inner queue holds `subs[q]` of producer `q`. The last three fields are history: all
      that was put in, all that was given out, and how many elements that is. */
  datatype State = State(
    sem: Sem.State,
    subs: seq<seq<Item>>,
    pcs: seq<Pc>,
    put: seq<seq<Item>>,
    given: seq<seq<Item>>,
    delivered: nat)

  /** What the environment decides: the call of an idle thread; whether an allocation fails, a
      weak compare-exchange fails, spinning ends or a wait expires; and how many elements of
      which producer one attempt at the inner queue comes back with, possibly none. */
  datatype Choice =
    | Enqueue(xs: seq<Item>)
    | Dequeue(max: nat, kind: Sem.Kind)
    | Go(flag: bool)
    | Take(q: nat, k: nat)

  ghost predicate Sized(s: State) {
    |s.sem.pcs| == |s.pcs| == |s.subs| == |s.put| == |s.given|
  }

  ghost predicate Init(s: State) {
    && Sized(s)
    && Sem.Init(s.sem) && s.sem.initial == 0
    && s.delivered == 0
    && forall t :: 0 <= t < |s.pcs| ==> s.pcs[t] == Idle && s.subs[t] == [] && s.put[t] == [] && s.given[t] == []
  }

  /** The semaphore's call and choice for a step of thread `t`. */
  ghost function SemChoice(p: Pc, c: Choice): Sem.Choice {
    match p
    case Idle => Sem.Choice(if c.Dequeue? then Sem.Wait(c.max, c.kind) else Sem.Signal(0), false)
    case SignalDue(n) => Sem.Choice(Sem.Signal(n), false)
    case _ => Sem.Choice(Sem.Signal(0), c.Go? && c.flag)
  }

  ghost predicate Enabled(s: State, t: nat, c: Choice) {
    && Sized(s) && t < |s.pcs|
    && match s.pcs[t]
       case Idle => (c.Enqueue? || c.Dequeue?) && s.sem.pcs[t].Idle?
       case Put(_) => c.Go?
       case SignalDue(_) => c.Go? && s.sem.pcs[t].Idle?
       case InSignal => c.Go? && s.sem.pcs[t].Posting? && Sem.ThreadInv(s.sem.pcs[t])
       case InWait =>
         && c.Go? && Waiting(s.sem.pcs[t]) && Sem.ThreadInv(s.sem.pcs[t])
         && Sem.Enabled(s.sem, t, SemChoice(InWait, c))
       case Retry(left) => c.Take? && c.q < |s.subs| && c.k <= left && c.k <= |s.subs[c.q]|
  }

  /** Inside a waiting call of the semaphore. */
  ghost predicate Waiting(p: Sem.Pc) {
    !p.Idle? && !p.Posting?
  }

  ghost function Goto(s: State, t: nat, p: Pc): State
    requires t < |s.pcs|
  {
    s.(pcs := s.pcs[t := p])
  }

  /** One atomic operation of thread `t`. */
  ghost function Step(s: State, t: nat, c: Choice): State
    requires Enabled(s, t, c)
  {
    match s.pcs[t]
    case Idle =>
      if c.Enqueue? then Goto(s, t, Put(c.xs))
      else Goto(s.(sem := Sem.Step(s.sem, t, SemChoice(Idle, c))), t, InWait)
    case Put(xs) =>
      if c.flag then Goto(s, t, Idle)
      else Goto(s.(subs := s.subs[t := s.subs[t] + xs], put := s.put[t := s.put[t] + xs]), t, SignalDue(|xs|))
    case SignalDue(n) =>
      var sem' := Sem.Step(s.sem, t, SemChoice(s.pcs[t], c));
      Goto(s.(sem := sem'), t, if sem'.pcs[t].Posting? then InSignal else Idle)
    case InSignal =>
      var sem' := Sem.Step(s.sem, t, SemChoice(InSignal, c));
      Goto(s.(sem := sem'), t, if sem'.pcs[t].Posting? then InSignal else Idle)
    case InWait =>
      var p := s.sem.pcs[t];
      Goto(s.(sem := Sem.Step(s.sem, t, SemChoice(InWait, c))), t,
           if !p.Returned? then InWait else if p.ask.got > 0 then Retry(p.ask.got) else Idle)
    case Retry(left) =>
      var s1 := s.(subs := s.subs[c.q := s.subs[c.q][c.k..]],
                   given := s.given[c.q := s.given[c.q] + s.subs[c.q][..c.k]],
                   delivered := s.delivered + c.k);
      Goto(s1, t, if c.k < left then Retry(left - c.k) else Idle)
  }

  // ---- The invariant ------------------------------------------------------------------

  ghost function Lengths(): seq<Item> -> nat { (xs: seq<Item>) => |xs| }
  ghost function Dues(): Pc -> nat { (p: Pc) => if p.SignalDue? then p.n else 0 }
  ghost function Lefts(): Pc -> nat { (p: Pc) => if p.Retry? then p.left else 0 }

  /** Undelivered elements; elements whose signal is still due; permits being turned into elements. */
  ghost function Items(s: State): nat { Total(s.subs, Lengths()) }
  ghost function Due(s: State): nat { Total(s.pcs, Dues()) }
  ghost function Outstanding(s: State): nat { Total(s.pcs, Lefts()) }

  ghost predicate ThreadInv(p: Pc, sp: Sem.Pc) {
    match p
    case Idle => sp.Idle?
    case Put(_) => sp.Idle?
    case SignalDue(_) => sp.Idle?
    case InSignal => sp.Posting?
    case InWait => Waiting(sp)
    case Retry(left) => sp.Idle? && left > 0
  }

  /** The semaphore's books and the queue's books agree. */
  ghost predicate BooksAgree(s: State) {
    && s.sem.initial == 0
    && Items(s) + s.delivered == s.sem.signalled + Due(s)
    && s.sem.returned == s.delivered + Outstanding(s)
  }

  ghost predicate InOrder(s: State, q: nat)
    requires Sized(s) && q < |s.subs|
  {
    s.given[q] + s.subs[q] == s.put[q]
  }

  ghost predicate Inv(s: State) {
    && Sized(s)
    && Sem.Inv(s.sem)
    && BooksAgree(s)
    && (forall t :: 0 <= t < |s.pcs| ==> ThreadInv(s.pcs[t], s.sem.pcs[t]))
    && (forall q :: 0 <= q < |s.subs| ==> InOrder(s, q))
  }

  lemma InitInv(s: State)
    requires Init(s)
    ensures Inv(s)
  {
    Sem.InitInv(s.sem);
    TotalNone(s.subs, Lengths());
    TotalNone(s.pcs, Dues());
    TotalNone(s.pcs, Lefts());
  }

  lemma SumsMove(s: State, t: nat, p: Pc)
    requires t < |s.pcs|
    ensures var s' := Goto(s, t, p);
      && Due(s') == Due(s) - Dues()(s.pcs[t]) + Dues()(p)
      && Outstanding(s') == Outstanding(s) - Lefts()(s.pcs[t]) + Lefts()(p)
  {
    TotalUpdate(s.pcs, Dues(), t, p);
    TotalUpdate(s.pcs, Lefts(), t, p);
  }

  /** A step inside the semaphore, as far as the queue's books and the thread's place see it. */
  lemma SemStep(m: Sem.State, t: nat, c: Sem.Choice)
    requires Sem.Enabled(m, t, c) && Sem.ThreadInv(m.pcs[t])
    ensures var m' := Sem.Step(m, t, c); var p, p' := m.pcs[t], m'.pcs[t];
      && |m'.pcs| == |m.pcs| && m'.pcs == m.pcs[t := p'] && m'.initial == m.initial
      && m'.signalled == m.signalled + (if p.Idle? && c.call.Signal? then c.call.count else 0)
      && m'.returned == m.returned + (if p.Returned? then p.ask.got else 0)
      && (p.Idle? ==> if c.call.Wait? then Waiting(p') else !Waiting(p'))
      && (p.Posting? ==> !Waiting(p'))
      && (Waiting(p) ==> if p.Returned? then p'.Idle? else Waiting(p'))
  {
  }

  /** Inside the semaphore the elements do not change, and the books stay in agreement. */
  lemma SemaphoreStepKeepsInv(s: State, t: nat, c: Choice)
    requires Inv(s) && Enabled(s, t, c)
    requires (s.pcs[t].Idle? && c.Dequeue?) || s.pcs[t].SignalDue? || s.pcs[t].InSignal? || s.pcs[t].InWait?
    ensures Inv(Step(s, t, c))
  {
    var sc := SemChoice(s.pcs[t], c);
    var s' := Step(s, t, c);
    SemStep(s.sem, t, sc);
    Sem.StepKeepsInv(s.sem, t, sc);
    assert s'.sem == Sem.Step(s.sem, t, sc);
    SumsMove(s, t, s'.pcs[t]);
    assert s'.pcs == Goto(s, t, s'.pcs[t]).pcs && s'.subs == s.subs;
    forall q | 0 <= q < |s'.subs| ensures InOrder(s', q) { assert InOrder(s, q); }
  }

  lemma PutKeepsInv(s: State, t: nat, c: Choice)
    requires Inv(s) && Enabled(s, t, c)
    requires (s.pcs[t].Idle? && c.Enqueue?) || s.pcs[t].Put?
    ensures Inv(Step(s, t, c))
  {
    var s' := Step(s, t, c);
    SumsMove(s, t, s'.pcs[t]);
    assert s'.pcs == Goto(s, t, s'.pcs[t]).pcs;
    TotalUpdate(s.subs, Lengths(), t, s'.subs[t]);
    assert s'.subs == s.subs[t := s'.subs[t]];
    forall q | 0 <= q < |s'.subs| ensures InOrder(s', q) { assert InOrder(s, q); }
  }

  lemma TakeKeepsInv(s: State, t: nat, c: Choice)
    requires Inv(s) && Enabled(s, t, c) && s.pcs[t].Retry?
    ensures Inv(Step(s, t, c))
  {
    var s' := Step(s, t, c);
    SumsMove(s, t, s'.pcs[t]);
    assert s'.pcs == Goto(s, t, s'.pcs[t]).pcs;
    TotalUpdate(s.subs, Lengths(), c.q, s'.subs[c.q]);
    assert s'.subs == s.subs[c.q := s'.subs[c.q]];
    forall q | 0 <= q < |s'.subs| ensures InOrder(s', q) { assert InOrder(s, q); }
  }

  lemma StepKeepsInv(s: State, t: nat, c: Choice)
    requires Inv(s) && Enabled(s, t, c)
    ensures Inv(Step(s, t, c))
  {
    if s.pcs[t].Retry? {
      TakeKeepsInv(s, t, c);
    } else if (s.pcs[t].Idle? && c.Enqueue?) || s.pcs[t].Put? {
      PutKeepsInv(s, t, c);
    } else {
      SemaphoreStepKeepsInv(s, t, c);
    }
  }

  // ---- Runs ---------------------------------------------------------------------------

  ghost predicate StepBy(s: State, s': State, t: nat, c: Choice) {
    Enabled(s, t, c) && s' == Step(s, t, c)
  }

  ghost predicate Next(s: State, s': State) {
    exists t: nat, c: Choice :: StepBy(s, s', t, c)
  }

  ghost predicate StepAt(r: seq<State>, i: nat)
    requires 0 < i < |r|
  {
    Next(r[i - 1], r[i])
  }

  ghost predicate Run(r: seq<State>) {
    && |r| > 0 && Init(r[0])
    && forall i :: 0 < i < |r| ==> StepAt(r, i)
  }

  lemma {:induction false} RunInv(r: seq<State>, i: nat)
    requires Run(r) && i < |r|
    ensures Inv(r[i])
  {
    if i == 0 {
      InitInv(r[0]);
    } else {
      RunInv(r, i - 1);
      assert StepAt(r, i);
      var t: nat, c: Choice :| StepBy(r[i - 1], r[i], t, c);
      StepKeepsInv(r[i - 1], t, c);
    }
  }

  /** Where the undelivered elements are: promised to a consumer that retries, held as permits
      by a call of the semaphore, still available in it, or not yet signalled. */
  lemma ElementsAccounted(s: State)
    requires Inv(s)
    ensures Items(s) == Outstanding(s) + Sem.Held(s.sem) + s.sem.kernel + Sem.Owed(s.sem)
                        + Max(0, s.sem.count) + Due(s)
  {
  }

  /** Whenever a consumer is in its retry loop, the inner queue holds an element for every
      permit that is being turned into one, so that some sub-queue is there to be dequeued from. */
  lemma RetryHasElements(r: seq<State>, i: nat, t: nat) returns (q: nat)
    requires Run(r) && i < |r| && t < |r[i].pcs| && r[i].pcs[t].Retry?
    ensures r[i].pcs[t].left <= Outstanding(r[i]) <= Items(r[i])
    ensures q < |r[i].subs| && r[i].subs[q] != []
    ensures Enabled(r[i], t, Take(q, 1))
  {
    RunInv(r, i);
    ElementsAccounted(r[i]);
    TotalUpdate(r[i].pcs, Lefts(), t, r[i].pcs[t]);
    assert ThreadInv(r[i].pcs[t], r[i].sem.pcs[t]);
    q := TotalWitness(r[i].subs, Lengths());
  }

  /** No lost wake-up: if a consumer is blocked in the kernel with no post and no signal on its
      way, every element left in the inner queue is already promised to somebody else. */
  lemma BlockedOnlyWhenPromised(r: seq<State>, i: nat, t: nat)
    requires Run(r) && i < |r| && t < |r[i].sem.pcs| && r[i].sem.pcs[t].KernelWait?
    requires r[i].sem.kernel == 0 && Sem.Owed(r[i].sem) == 0 && Due(r[i]) == 0
    ensures Items(r[i]) == Outstanding(r[i]) + Sem.Held(r[i].sem)
  {
    RunInv(r, i);
    ElementsAccounted(r[i]);
    TotalUpdate(r[i].sem.pcs, Sem.Waits(), t, r[i].sem.pcs[t]);
  }

  /** Every producer's elements come out in the order in which they went in, each at most once,
      and the number that came out never exceeds what was signalled. */
  lemma DeliversInOrder(r: seq<State>, i: nat, q: nat)
    requires Run(r) && i < |r| && q < |r[i].put|
    ensures Sized(r[i]) && r[i].given[q] <= r[i].put[q]
    ensures r[i].put[q] == r[i].given[q] + r[i].subs[q]
    ensures r[i].delivered <= r[i].sem.signalled
  {
    RunInv(r, i);
    assert InOrder(r[i], q);
  }

  /** With everyone at rest there is a permit for every element. */
  lemma RestCounts(s: State)
    requires Inv(s) && forall t :: 0 <= t < |s.pcs| ==> s.pcs[t].Idle?
    ensures Max(0, s.sem.count) == Items(s)
  {
    ElementsAccounted(s);
    forall t | 0 <= t < |s.sem.pcs| ensures s.sem.pcs[t].Idle? { assert ThreadInv(s.pcs[t], s.sem.pcs[t]); }
    TotalNone(s.pcs, Dues());
    TotalNone(s.pcs, Lefts());
    TotalNone(s.sem.pcs, Sem.Waits());
    TotalNone(s.sem.pcs, Sem.Owes());
    TotalNone(s.sem.pcs, Sem.Holds());
  }

  /** With everyone at rest, `size_approx` is exact. */
  lemma SizeExactAtRest(r: seq<State>, i: nat)
    requires Run(r) && i < |r| && forall t :: 0 <= t < |r[i].pcs| ==> r[i].pcs[t].Idle?
    ensures Max(0, r[i].sem.count) == Items(r[i])
  {
    RunInv(r, i);
    RestCounts(r[i]);
  }
}
