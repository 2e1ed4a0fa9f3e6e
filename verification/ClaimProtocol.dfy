/** How concurrent consumers of one producer claim indices: `dequeueOptimisticCount`,
    `dequeueOvercommit`, `headIndex` and `tailIndex`, one atomic operation a step. A single
    dequeue is a bulk dequeue with a maximum of one. Indices are the true, unbounded ones. */
module ClaimProtocol {
  import opened Basics
  import opened Tally

  /** Program counters, each naming the atomic operation the thread performs next. `mine` is
      the thread's place in the history of reservations. */
  datatype Pc =
    | Idle
    | LoadOvercommit(max: nat, tail: nat)
    | LoadOptimistic(max: nat, tail: nat, seen: nat)
    | Reserve(want: nat, seen: nat)
    | Recheck(want: nat, seen: nat, count: nat, mine: nat)
    | GiveBack(extra: nat, claim: nat, mine: nat)
    | Take(claim: nat)

  datatype Decision = Undecided | Claims(count: nat)

  /** One `fetch_add` on the optimistic count: who made it, how much it asked for, how much
      of it has been published as overcommitted, and what it was decided to claim. */
  datatype Reservation = Reservation(who: nat, want: nat, over: nat, decision: Decision)

  /** The four shared words and the threads; `history` lists the reservations in the order
      they were made and `owner` the claimer of every index below the head. */
  datatype State = State(
    tail: nat,
    head: nat,
    optimistic: nat,
    overcommit: nat,
    pcs: seq<Pc>,
    history: seq<Reservation>,
    owner: seq<nat>)

  /** What an idle thread may do: publish `count` new elements or ask for up to `max`. */
  datatype Call = Publish(count: nat) | Dequeue(max: nat)

  ghost predicate Init(s: State) {
    && s == State(0, 0, 0, 0, s.pcs, [], [])
    && forall t :: 0 <= t < |s.pcs| ==> s.pcs[t] == Idle
  }

  ghost predicate Enabled(s: State, t: nat, c: Call) {
    && t < |s.pcs|
    && (s.pcs[t].Idle? && c.Dequeue? ==> c.max > 0)
    && (s.pcs[t].Recheck? || s.pcs[t].GiveBack? ==> s.pcs[t].mine < |s.history|)
  }

  ghost function Goto(s: State, t: nat, p: Pc): State
    requires t < |s.pcs|
  {
    s.(pcs := s.pcs[t := p])
  }

  ghost function Record(s: State, mine: nat, over: nat, d: Decision): State
    requires mine < |s.history|
  {
    s.(history := s.history[mine := s.history[mine].(over := over, decision := d)])
  }

  /** One atomic operation of thread `t`. */
  ghost function Step(s: State, t: nat, c: Call): State
    requires Enabled(s, t, c)
  {
    match s.pcs[t]
    case Idle => (
      match c
      case Publish(k) => s.(tail := s.tail + k)
      case Dequeue(max) => Goto(s, t, LoadOvercommit(max, s.tail))
      )
    case LoadOvercommit(max, tail) => Goto(s, t, LoadOptimistic(max, tail, s.overcommit))
    case LoadOptimistic(max, tail, seen) =>
      var desired := tail - (s.optimistic - seen);
      if desired > 0 then Goto(s, t, Reserve(Min(desired, max), seen)) else Goto(s, t, Idle)
    case Reserve(want, seen) =>
      var s1 := s.(optimistic := s.optimistic + want,
                   history := s.history + [Reservation(t, want, 0, Undecided)]);
      Goto(s1, t, Recheck(want, seen, s.optimistic, |s.history|))
    case Recheck(want, seen, count, mine) =>
      var available := s.tail - (count - seen);
      var claim := if available > 0 then Min(want, available) else 0;
      var s1 := Record(s, mine, s.history[mine].over, Claims(claim));
      if claim < want then Goto(s1, t, GiveBack(want - claim, claim, mine)) else Goto(s1, t, Take(claim))
    case GiveBack(extra, claim, mine) =>
      var s1 := Record(s, mine, s.history[mine].over + extra, s.history[mine].decision);
      Goto(s1.(overcommit := s.overcommit + extra), t, if claim > 0 then Take(claim) else Idle)
    case Take(claim) =>
      Goto(s.(head := s.head + claim, owner := s.owner + seq(claim, _ => t)), t, Idle)
  }

  // ---- Sums ---------------------------------------------------------------------------

  /** What a thread still has to do: decide, give back, take. */
  ghost function Undecideds(): Pc -> nat { (p: Pc) => if p.Recheck? then p.want else 0 }
  ghost function ToGiveBack(): Pc -> nat { (p: Pc) => if p.GiveBack? then p.extra else 0 }
  ghost function ToTake(): Pc -> nat { (p: Pc) => if p.GiveBack? || p.Take? then p.claim else 0 }

  ghost function Wants(): Reservation -> nat { (r: Reservation) => r.want }
  ghost function Overs(): Reservation -> nat { (r: Reservation) => r.over }
  ghost function Claimed(): Reservation -> nat {
    (r: Reservation) => if r.decision.Claims? then r.decision.count else 0
  }

  /** The most a reservation may still claim. */
  ghost function Potential(): Reservation -> nat {
    (r: Reservation) => if r.decision.Claims? then r.decision.count else r.want
  }

  ghost predicate ReservationInv(s: State, k: nat)
    requires k < |s.history|
  {
    var r := s.history[k];
    && r.over + Potential()(r) <= r.want
    && (r.decision.Claims? && r.decision.count > 0 ==>
          Total(s.history[..k], Potential()) + r.decision.count <= s.tail)
  }

  ghost predicate ThreadInv(s: State, t: nat)
    requires t < |s.pcs|
  {
    match s.pcs[t]
    case Idle => true
    case LoadOvercommit(max, _) => max > 0
    case LoadOptimistic(max, _, seen) => max > 0 && seen <= s.overcommit
    case Reserve(want, seen) => want > 0 && seen <= s.overcommit
    case Recheck(want, seen, count, mine) =>
      && want > 0 && mine < |s.history|
      && s.history[mine] == Reservation(t, want, 0, Undecided)
      && count == Total(s.history[..mine], Wants())
      && seen <= Total(s.history[..mine], Overs())
    case GiveBack(extra, claim, mine) =>
      && extra > 0 && mine < |s.history|
      && s.history[mine] == Reservation(t, extra + claim, 0, Claims(claim))
    case Take(claim) => claim > 0
  }

  /** Everything that is added up. */
  datatype Sums = Sums(wants: nat, overs: nat, claimed: nat, toTake: nat, toGiveBack: nat, undecided: nat)

  ghost function SumsOf(s: State): Sums {
    Sums(Total(s.history, Wants()), Total(s.history, Overs()), Total(s.history, Claimed()),
         Total(s.pcs, ToTake()), Total(s.pcs, ToGiveBack()), Total(s.pcs, Undecideds()))
  }

  ghost predicate Balanced(s: State, m: Sums) {
    && s.optimistic == m.wants
    && s.overcommit == m.overs
    && s.head + m.toTake == m.claimed
    && s.optimistic == s.head + m.toTake + s.overcommit + m.toGiveBack + m.undecided
    && |s.owner| == s.head
  }

  ghost predicate Inv(s: State) {
    && Balanced(s, SumsOf(s))
    && (forall k :: 0 <= k < |s.history| ==> ReservationInv(s, k))
    && (forall t :: 0 <= t < |s.pcs| ==> ThreadInv(s, t))
  }

  // ---- Proof --------------------------------------------------------------------------

  /** The sums after thread `t` moved; `r` is what its place in the history holds then. */
  ghost predicate SumsMove(s: State, s': State, t: nat, m: Sums, m': Sums)
    requires t < |s.pcs| == |s'.pcs|
  {
    var p, p' := s.pcs[t], s'.pcs[t];
    && m'.toTake == m.toTake - ToTake()(p) + ToTake()(p')
    && m'.toGiveBack == m.toGiveBack - ToGiveBack()(p) + ToGiveBack()(p')
    && m'.undecided == m.undecided - Undecideds()(p) + Undecideds()(p')
    && if |s'.history| == |s.history| + 1 then
         var r := s'.history[|s.history|];
         && m'.wants == m.wants + r.want && m'.overs == m.overs + r.over
         && m'.claimed == m.claimed + Claimed()(r)
       else if (p.Recheck? || p.GiveBack?) && p.mine < |s.history| == |s'.history| then
         var r, r' := s.history[p.mine], s'.history[p.mine];
         && m'.wants == m.wants - r.want + r'.want && m'.overs == m.overs - r.over + r'.over
         && m'.claimed == m.claimed - Claimed()(r) + Claimed()(r')
       else
         m'.wants == m.wants && m'.overs == m.overs && m'.claimed == m.claimed
  }

  lemma StepMovesSums(s: State, t: nat, c: Call)
    requires Enabled(s, t, c)
    ensures SumsMove(s, Step(s, t, c), t, SumsOf(s), SumsOf(Step(s, t, c)))
  {
    var s' := Step(s, t, c);
    var p, p' := s.pcs[t], s'.pcs[t];
    assert s'.pcs == s.pcs[t := p'];
    TotalUpdate(s.pcs, ToTake(), t, p');
    TotalUpdate(s.pcs, ToGiveBack(), t, p');
    TotalUpdate(s.pcs, Undecideds(), t, p');
    if p.Reserve? {
      assert s'.history[..|s.history|] == s.history;
    } else if p.Recheck? || p.GiveBack? {
      assert s'.history == s.history[p.mine := s'.history[p.mine]];
      TotalUpdate(s.history, Wants(), p.mine, s'.history[p.mine]);
      TotalUpdate(s.history, Overs(), p.mine, s'.history[p.mine]);
      TotalUpdate(s.history, Claimed(), p.mine, s'.history[p.mine]);
    }
  }

  lemma StepKeepsBalance(s: State, t: nat, c: Call, m: Sums, m': Sums)
    requires Enabled(s, t, c) && ThreadInv(s, t) && Balanced(s, m)
    requires SumsMove(s, Step(s, t, c), t, m, m')
    ensures Balanced(Step(s, t, c), m')
  {
  }

  ghost predicate Bounded(h: seq<Reservation>) {
    forall k :: 0 <= k < |h| ==> h[k].over + Potential()(h[k]) <= h[k].want
  }

  /** What is not overcommitted is all that can be claimed. */
  lemma {:induction false} PotentialBound(h: seq<Reservation>)
    requires Bounded(h)
    ensures Total(h, Potential()) + Total(h, Overs()) <= Total(h, Wants())
  {
    if h != [] { PotentialBound(h[..|h| - 1]); }
  }

  /** A reservation before `k` that settles can only lower what those before `k` may claim,
      and can only raise what they have given back. */
  lemma PrefixSettles(h: seq<Reservation>, mine: nat, r: Reservation, k: nat)
    requires mine < |h| && k <= |h|
    requires r.want == h[mine].want && r.over >= h[mine].over && Potential()(r) <= Potential()(h[mine])
    ensures Total(h[mine := r][..k], Potential()) <= Total(h[..k], Potential())
    ensures Total(h[mine := r][..k], Overs()) >= Total(h[..k], Overs())
    ensures Total(h[mine := r][..k], Wants()) == Total(h[..k], Wants())
  {
    if mine < k {
      assert h[mine := r][..k] == h[..k][mine := r];
      TotalUpdate(h[..k], Potential(), mine, r);
      TotalUpdate(h[..k], Overs(), mine, r);
      TotalUpdate(h[..k], Wants(), mine, r);
    } else {
      assert h[mine := r][..k] == h[..k];
    }
  }

  /** The decision is sound: what a thread claims, on top of all that earlier reservations
      may still claim, has been published. */
  lemma ClaimIsPublished(s: State, t: nat, claim: nat)
    requires t < |s.pcs| && s.pcs[t].Recheck? && ThreadInv(s, t)
    requires Bounded(s.history)
    requires claim <= s.tail - (s.pcs[t].count - s.pcs[t].seen)
    ensures Total(s.history[..s.pcs[t].mine], Potential()) + claim <= s.tail
  {
    PotentialBound(s.history[..s.pcs[t].mine]);
  }

  lemma InvBounded(s: State)
    requires forall k :: 0 <= k < |s.history| ==> ReservationInv(s, k)
    ensures Bounded(s.history)
  {
    forall k | 0 <= k < |s.history|
      ensures s.history[k].over + Potential()(s.history[k]) <= s.history[k].want
    {
      assert ReservationInv(s, k);
    }
  }

  lemma StepKeepsReservation(s: State, t: nat, c: Call, k: nat)
    requires Enabled(s, t, c) && ThreadInv(s, t) && Bounded(s.history)
    requires k < |Step(s, t, c).history|
    requires k < |s.history| ==> ReservationInv(s, k)
    ensures ReservationInv(Step(s, t, c), k)
  {
    var s' := Step(s, t, c);
    var p := s.pcs[t];
    if p.Reserve? {
      assert k < |s.history| ==> s'.history[..k] == s.history[..k];
    } else if p.Recheck? || p.GiveBack? {
      PrefixSettles(s.history, p.mine, s'.history[p.mine], k);
      if p.Recheck? && k == p.mine {
        var claim := s'.history[k].decision.count;
        if claim > 0 { ClaimIsPublished(s, t, claim); }
      }
    }
  }

  lemma MoverKeepsThread(s: State, t: nat, c: Call)
    requires Enabled(s, t, c) && ThreadInv(s, t)
    requires s.pcs[t].Reserve? ==> Balanced(s, SumsOf(s))
    ensures ThreadInv(Step(s, t, c), t)
  {
    var s' := Step(s, t, c);
    if s.pcs[t].Reserve? {
      assert s'.history[..|s.history|] == s.history;
    }
  }

  lemma OthersKeepThread(s: State, t: nat, c: Call, u: nat)
    requires Enabled(s, t, c) && ThreadInv(s, t) && u < |s.pcs| && u != t && ThreadInv(s, u)
    ensures ThreadInv(Step(s, t, c), u)
  {
    var s' := Step(s, t, c);
    var p, q := s.pcs[t], s.pcs[u];
    if q.Recheck? {
      if p.Reserve? {
        assert s'.history[..q.mine] == s.history[..q.mine];
      } else if p.Recheck? || p.GiveBack? {
        PrefixSettles(s.history, p.mine, s'.history[p.mine], q.mine);
      }
    }
  }

  /** The invariant is inductive: any step of any thread keeps it. */
  lemma StepKeepsInv(s: State, t: nat, c: Call)
    requires Inv(s) && Enabled(s, t, c)
    ensures Inv(Step(s, t, c))
  {
    var s' := Step(s, t, c);
    assert ThreadInv(s, t);
    StepMovesSums(s, t, c);
    StepKeepsBalance(s, t, c, SumsOf(s), SumsOf(s'));
    InvBounded(s);
    forall k | 0 <= k < |s'.history| ensures ReservationInv(s', k) {
      StepKeepsReservation(s, t, c, k);
    }
    forall u | 0 <= u < |s'.pcs| ensures ThreadInv(s', u) {
      if u == t { MoverKeepsThread(s, t, c); } else { OthersKeepThread(s, t, c, u); }
    }
  }

  // ---- Runs ---------------------------------------------------------------------------

  ghost predicate StepBy(s: State, s': State, t: nat, c: Call) {
    Enabled(s, t, c) && s' == Step(s, t, c)
  }

  ghost predicate Next(s: State, s': State) {
    exists t: nat, c: Call :: StepBy(s, s', t, c)
  }

  ghost predicate StepAt(r: seq<State>, i: nat)
    requires 0 < i < |r|
  {
    Next(r[i - 1], r[i])
  }

  ghost predicate Run(r: seq<State>) {
    && r != [] && Init(r[0])
    && forall i :: 0 < i < |r| ==> StepAt(r, i)
  }

  lemma InitInv(s: State)
    requires Init(s)
    ensures Inv(s)
  {
    TotalNone(s.pcs, ToTake());
    TotalNone(s.pcs, ToGiveBack());
    TotalNone(s.pcs, Undecideds());
  }

  lemma {:induction false} RunInv(r: seq<State>, i: nat)
    requires Run(r) && i < |r|
    ensures Inv(r[i])
  {
    if i == 0 {
      InitInv(r[0]);
    } else {
      RunInv(r, i - 1);
      assert StepAt(r, i);
      var t: nat, c: Call :| StepBy(r[i - 1], r[i], t, c);
      StepKeepsInv(r[i - 1], t, c);
    }
  }

  // ---- What the invariant means -------------------------------------------------------

  /** All that was ever decided to be claimed among the first `k` reservations is published. */
  lemma {:induction false} ClaimsArePublished(s: State, k: nat)
    requires Inv(s) && k <= |s.history|
    ensures Total(s.history[..k], Claimed()) <= s.tail
    ensures Total(s.history[..k], Claimed()) <= Total(s.history[..k], Potential())
  {
    if k > 0 {
      ClaimsArePublished(s, k - 1);
      assert s.history[..k][..k - 1] == s.history[..k - 1];
      assert ReservationInv(s, k - 1);
    }
  }

  /** The head never passes the tail, not even counting the claims that are still on their
      way: a thread that is about to advance the head stays within what was published. */
  lemma HeadStaysBehindTail(r: seq<State>, i: nat)
    requires Run(r) && i < |r|
    ensures r[i].head + Total(r[i].pcs, ToTake()) <= r[i].tail
    ensures forall t: nat :: t < |r[i].pcs| && r[i].pcs[t].Take? ==> r[i].head + r[i].pcs[t].claim <= r[i].tail
  {
    var s := r[i];
    RunInv(r, i);
    ClaimsArePublished(s, |s.history|);
    assert s.history[..|s.history|] == s.history;
    forall t: nat | t < |s.pcs| && s.pcs[t].Take? ensures s.head + s.pcs[t].claim <= s.tail {
      TotalUpdate(s.pcs, ToTake(), t, s.pcs[t]);
    }
  }

  /** Nothing asked for is lost: the optimistic count is what has been claimed, plus what was
      given back, plus what threads still have to decide, give back or take. */
  lemma OptimisticCountBalances(r: seq<State>, i: nat)
    requires Run(r) && i < |r|
    ensures r[i].optimistic == r[i].head + r[i].overcommit + Total(r[i].pcs, ToTake())
                               + Total(r[i].pcs, ToGiveBack()) + Total(r[i].pcs, Undecideds())
    ensures |r[i].owner| == r[i].head
    ensures forall t: nat :: t < |r[i].pcs| && r[i].pcs[t].Recheck? ==> r[i].pcs[t].seen <= r[i].pcs[t].count
  {
    var s := r[i];
    RunInv(r, i);
    InvBounded(s);
    forall t: nat | t < |s.pcs| && s.pcs[t].Recheck? ensures s.pcs[t].seen <= s.pcs[t].count {
      assert ThreadInv(s, t);
      PotentialBound(s.history[..s.pcs[t].mine]);
    }
  }

  /** An index is claimed once and for all: a step either leaves the claims alone or gives the
      next indices, all of them published, to the one thread that moves. */
  lemma StepClaims(s: State, t: nat, c: Call)
    requires Inv(s) && Enabled(s, t, c)
    ensures var s' := Step(s, t, c);
      && s.tail <= s'.tail
      && s.owner <= s'.owner
      && (forall i :: |s.owner| <= i < |s'.owner| ==> s'.owner[i] == t && i < s.tail)
      && (s'.head > s.head ==> s.pcs[t].Take? && s'.head == s.head + s.pcs[t].claim <= s.tail)
  {
    ClaimsArePublished(s, |s.history|);
    assert s.history[..|s.history|] == s.history;
    TotalUpdate(s.pcs, ToTake(), t, s.pcs[t]);
  }

  ghost predicate AtRest(s: State) {
    forall t :: 0 <= t < |s.pcs| ==> s.pcs[t] == Idle
  }

  /** Thread `t` running alone, calling `c` whenever it is idle. */
  ghost predicate Alone(a: seq<State>, t: nat, c: Call) {
    forall i :: 0 < i < |a| ==> StepBy(a[i - 1], a[i], t, c)
  }

  lemma RestBalance(s: State)
    requires Inv(s) && AtRest(s)
    ensures s.optimistic - s.overcommit == s.head <= s.tail
  {
    TotalNone(s.pcs, ToTake());
    TotalNone(s.pcs, ToGiveBack());
    TotalNone(s.pcs, Undecideds());
    ClaimsArePublished(s, |s.history|);
    assert s.history[..|s.history|] == s.history;
  }

  /** Once every thread is back from its calls the two counts differ by the head, and a
      consumer that then runs alone claims exactly what there is, up to its maximum. */
  lemma LoneDequeueIsExact(s: State, t: nat, max: nat) returns (a: seq<State>)
    requires Inv(s) && AtRest(s) && t < |s.pcs| && max > 0
    ensures a != [] && a[0] == s && Alone(a, t, Dequeue(max))
    ensures var s' := a[|a| - 1];
      AtRest(s') && s'.head == s.head + Min(max, s.tail - s.head) && s'.tail == s.tail
  {
    RestBalance(s);
    var c := Dequeue(max);
    var s1 := Step(s, t, c);
    var s2 := Step(s1, t, c);
    var s3 := Step(s2, t, c);
    a := [s, s1, s2, s3];
    if s.tail > s.head {
      var s4 := Step(s3, t, c);
      var s5 := Step(s4, t, c);
      a := a + [s4, s5, Step(s5, t, c)];
    }
  }
}
