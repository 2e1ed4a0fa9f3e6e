/** `LightweightSemaphore`: a signed atomic count in front of a kernel semaphore, with timed
    waits that may give up. Taking one permit is taking up to one. */
module Semaphore {
  import opened Basics
  import opened Tally

  /** How a call behaves when it finds no permit: it returns, blocks, or blocks for a while. */
  datatype Kind = Try | Forever | Timed

  /** A call that still wants up to `max` permits and already has `got`. */
  datatype Ask = Ask(max: nat, kind: Kind, got: nat)

  /** Program counters, each naming the atomic operation the thread performs next. The states
      from `KernelWait` to `RecoverCas` are those in which the thread has decremented the count
      and relies on the kernel semaphore. */
  datatype Pc =
    | Idle
    | TryLoad(ask: Ask)
    | TryCas(ask: Ask, expected: int)
    | SpinLoad(ask: Ask)
    | SpinCas(ask: Ask, expected: int)
    | Commit(ask: Ask)
    | KernelWait(ask: Ask)
    | RecoverLoad(ask: Ask)
    | RecoverTry(ask: Ask)
    | RecoverCas(ask: Ask, expected: int)
    | Returned(ask: Ask)
    | Posting(left: nat)

  /** The count, the kernel semaphore's value and the threads; `signalled` and `returned` add
      up what was signalled and what completed calls came back with. */
  datatype State = State(
    count: int,
    kernel: nat,
    pcs: seq<Pc>,
    initial: nat,
    signalled: nat,
    returned: nat)

  datatype Call = Wait(max: nat, kind: Kind) | Signal(count: nat)

  /** What the environment decides: the call of an idle thread, and whether a weak
      compare-exchange fails, spinning ends, or a timed kernel wait expires. */
  datatype Choice = Choice(call: Call, flag: bool)

  ghost predicate Init(s: State) {
    && s == State(s.initial, 0, s.pcs, s.initial, 0, 0)
    && forall t :: 0 <= t < |s.pcs| ==> s.pcs[t] == Idle
  }

  /** A thread can take a step unless the kernel blocks it. */
  ghost predicate Enabled(s: State, t: nat, c: Choice) {
    && t < |s.pcs|
    && Unblocked(s.pcs[t], s.kernel, c)
  }

  /** How many permits a call that sees `expected` of them takes at once. */
  function Bite(max: nat, expected: int): int
    requires expected > 0
  {
    expected - (if expected > max then expected - max else 0)
  }

  function Grant(a: Ask, n: nat): Ask
    requires n <= a.max
  {
    Ask(a.max - n, a.kind, a.got + n)
  }

  /** Where a call goes on after seeing the count in its non-blocking phase. */
  ghost function Tries(a: Ask, seen: int): (p: Pc)
    ensures ThreadInv(p) && (p.TryCas? || p.SpinLoad? || p.Returned?) && p.ask == a
  {
    if seen > 0 then TryCas(a, seen)
    else if a.got > 0 || a.max == 0 || a.kind.Try? then Returned(a)
    else SpinLoad(a)
  }

  /** Where a call goes on with its first permit after it had to commit. */
  ghost function WithOne(a: Ask): (p: Pc)
    requires a.max > 0
    ensures ThreadInv(p) && WaitsOf(p) == OwesOf(p) == 0
    ensures (p.TryLoad? || p.Returned?) && p.ask == Grant(a, 1)
  {
    if a.max > 1 then TryLoad(Grant(a, 1)) else Returned(Grant(a, 1))
  }

  /** What one atomic operation does: the thread's next place, the shared words, and how much is
      signalled or returned by it. */
  datatype Effect = Effect(pc: Pc, count: int, kernel: nat, added: nat, given: nat)

  ghost predicate Unblocked(p: Pc, kernel: nat, c: Choice) {
    p.KernelWait? ==> kernel > 0 || (p.ask.kind.Timed? && c.flag)
  }

  ghost function Act(p: Pc, count: int, kernel: nat, c: Choice): Effect
    requires ThreadInv(p) && Unblocked(p, kernel, c)
  {
    match p
    case Idle => (
      match c.call
      case Wait(max, kind) => Effect(TryLoad(Ask(max, kind, 0)), count, kernel, 0, 0)
      case Signal(n) =>
        var release := Min(-count, n);
        Effect(if release > 0 then Posting(release) else Idle, count + n, kernel, n, 0)
      )
    case TryLoad(a) => Effect(Tries(a, count), count, kernel, 0, 0)
    case TryCas(a, expected) =>
      if count == expected && !c.flag then
        Effect(Returned(Grant(a, Bite(a.max, expected))), count - Bite(a.max, expected), kernel, 0, 0)
      else
        Effect(Tries(a, count), count, kernel, 0, 0)
    case SpinLoad(a) =>
      Effect(if c.flag then Commit(a) else if count > 0 then SpinCas(a, count) else SpinLoad(a), count, kernel, 0, 0)
    case SpinCas(a, expected) =>
      if count == expected then
        Effect(Returned(Grant(a, Bite(a.max, expected))), count - Bite(a.max, expected), kernel, 0, 0)
      else
        Effect(SpinLoad(a), count, kernel, 0, 0)
    case Commit(a) => Effect(if count > 0 then WithOne(a) else KernelWait(a), count - 1, kernel, 0, 0)
    case KernelWait(a) =>
      if a.kind.Timed? && c.flag then Effect(RecoverLoad(a), count, kernel, 0, 0)
      else Effect(WithOne(a), count, kernel - 1, 0, 0)
    case RecoverLoad(a) => Effect(if count >= 0 then RecoverTry(a) else RecoverCas(a, count), count, kernel, 0, 0)
    case RecoverTry(a) =>
      Effect(if kernel > 0 then WithOne(a) else RecoverLoad(a), count, if kernel > 0 then kernel - 1 else 0, 0, 0)
    case RecoverCas(a, expected) =>
      if count == expected then Effect(Returned(a), count + 1, kernel, 0, 0)
      else Effect(RecoverLoad(a), count, kernel, 0, 0)
    case Returned(a) => Effect(Idle, count, kernel, 0, a.got)
    case Posting(left) => Effect(if left > 1 then Posting(left - 1) else Idle, count, kernel + 1, 0, 0)
  }

  /** One atomic operation of thread `t`. */
  ghost function Step(s: State, t: nat, c: Choice): State
    requires Enabled(s, t, c) && ThreadInv(s.pcs[t])
  {
    var e := Act(s.pcs[t], s.count, s.kernel, c);
    State(e.count, e.kernel, s.pcs[t := e.pc], s.initial, s.signalled + e.added, s.returned + e.given)
  }

  // ---- The invariant ------------------------------------------------------------------

  ghost predicate Committed(p: Pc) {
    p.KernelWait? || p.RecoverLoad? || p.RecoverTry? || p.RecoverCas?
  }

  ghost function WaitsOf(p: Pc): nat { if Committed(p) then 1 else 0 }
  ghost function OwesOf(p: Pc): nat { if p.Posting? then p.left else 0 }
  ghost function HoldsOf(p: Pc): nat { if p.Idle? || p.Posting? then 0 else p.ask.got }

  ghost function Waits(): Pc -> nat { (p: Pc) => WaitsOf(p) }
  ghost function Owes(): Pc -> nat { (p: Pc) => OwesOf(p) }
  ghost function Holds(): Pc -> nat { (p: Pc) => HoldsOf(p) }

  /** Threads that rely on the kernel semaphore, posts still owed to it, permits of unfinished calls. */
  ghost function Waiters(s: State): nat { Total(s.pcs, Waits()) }
  ghost function Owed(s: State): nat { Total(s.pcs, Owes()) }
  ghost function Held(s: State): nat { Total(s.pcs, Holds()) }

  ghost predicate ThreadInv(p: Pc) {
    match p
    case Idle => true
    case TryLoad(_) => true
    case TryCas(_, expected) => expected > 0
    case SpinLoad(a) => Unserved(a)
    case SpinCas(a, expected) => Unserved(a) && expected > 0
    case Commit(a) => Unserved(a)
    case KernelWait(a) => Unserved(a)
    case RecoverLoad(a) => Unserved(a) && a.kind.Timed?
    case RecoverTry(a) => Unserved(a) && a.kind.Timed?
    case RecoverCas(a, expected) => Unserved(a) && a.kind.Timed? && expected < 0
    case Returned(a) => a.kind.Forever? && a.got + a.max > 0 ==> a.got > 0
    case Posting(left) => left > 0
  }

  ghost predicate Unserved(a: Ask) {
    a.max > 0 && a.got == 0 && !a.kind.Try?
  }

  /** Whoever relies on the kernel is covered by its value, a post owed, or a negative count. */
  ghost predicate WaitersCovered(s: State) {
    Waiters(s) == s.kernel + Owed(s) + Max(0, -s.count)
  }

  /** Every permit ever made is in exactly one place. */
  ghost predicate PermitsConserved(s: State) {
    s.initial + s.signalled == s.returned + Held(s) + s.kernel + Owed(s) + Max(0, s.count)
  }

  ghost predicate Inv(s: State) {
    && WaitersCovered(s)
    && PermitsConserved(s)
    && forall t :: 0 <= t < |s.pcs| ==> ThreadInv(s.pcs[t])
  }

  lemma InitInv(s: State)
    requires Init(s)
    ensures Inv(s)
  {
    TotalNone(s.pcs, Waits());
    TotalNone(s.pcs, Owes());
    TotalNone(s.pcs, Holds());
  }

  /** Moving a thread changes each sum by that thread's share. */
  lemma SumsMove(s: State, s': State, t: nat)
    requires t < |s.pcs| == |s'.pcs| && s'.pcs == s.pcs[t := s'.pcs[t]]
    ensures Waiters(s') == Waiters(s) - WaitsOf(s.pcs[t]) + WaitsOf(s'.pcs[t])
    ensures Owed(s') == Owed(s) - OwesOf(s.pcs[t]) + OwesOf(s'.pcs[t])
    ensures Held(s') == Held(s) - HoldsOf(s.pcs[t]) + HoldsOf(s'.pcs[t])
  {
    TotalUpdate(s.pcs, Waits(), t, s'.pcs[t]);
    TotalUpdate(s.pcs, Owes(), t, s'.pcs[t]);
    TotalUpdate(s.pcs, Holds(), t, s'.pcs[t]);
  }

  /** A step takes its thread to a sound place. */
  lemma ActLands(p: Pc, count: int, kernel: nat, c: Choice)
    requires ThreadInv(p) && Unblocked(p, kernel, c)
    ensures ThreadInv(Act(p, count, kernel, c).pc)
  {
  }

  /** A call keeps its kind and the number of permits it was made for. */
  lemma ActKeepsAsk(p: Pc, count: int, kernel: nat, c: Choice)
    requires ThreadInv(p) && Unblocked(p, kernel, c) && !p.Idle? && !p.Posting? && !p.Returned?
    ensures var p' := Act(p, count, kernel, c).pc;
      !p'.Idle? && !p'.Posting? && p'.ask.kind == p.ask.kind && p'.ask.max + p'.ask.got == p.ask.max + p.ask.got
  {
  }

  /** Both laws as balances of the shared words and one thread's share: a step changes the two
      sides of each by the same amount. */
  lemma WaitersBalance(p: Pc, count: int, kernel: nat, c: Choice)
    requires ThreadInv(p) && Unblocked(p, kernel, c)
    ensures var e := Act(p, count, kernel, c);
      WaitsOf(e.pc) - WaitsOf(p) == e.kernel + OwesOf(e.pc) + Max(0, -e.count) - (kernel + OwesOf(p) + Max(0, -count))
  {
  }

  lemma PermitsBalance(p: Pc, count: int, kernel: nat, c: Choice)
    requires ThreadInv(p) && Unblocked(p, kernel, c)
    ensures var e := Act(p, count, kernel, c);
      e.added == e.given + HoldsOf(e.pc) + e.kernel + OwesOf(e.pc) + Max(0, e.count)
                 - (HoldsOf(p) + kernel + OwesOf(p) + Max(0, count))
  {
  }

  lemma StepKeepsInv(s: State, t: nat, c: Choice)
    requires Inv(s) && Enabled(s, t, c)
    ensures Inv(Step(s, t, c))
  {
    ActLands(s.pcs[t], s.count, s.kernel, c);
    WaitersBalance(s.pcs[t], s.count, s.kernel, c);
    PermitsBalance(s.pcs[t], s.count, s.kernel, c);
    SumsMove(s, Step(s, t, c), t);
  }

  // ---- Runs ---------------------------------------------------------------------------

  ghost predicate StepBy(s: State, s': State, t: nat, c: Choice) {
    Enabled(s, t, c) && ThreadInv(s.pcs[t]) && s' == Step(s, t, c)
  }

  ghost predicate Next(s: State, s': State) {
    exists t: nat, c: Choice :: StepBy(s, s', t, c)
  }

  ghost predicate StepAt(r: seq<State>, i: nat)
    requires 0 < i < |r|
  {
    Next(r[i - 1], r[i])
  }

  ghost predicate Run(r: seq<State>) {
    && |r| > 0 && Init(r[0])
    && forall i :: 0 < i < |r| ==> StepAt(r, i)
  }

  /** Every state of every run satisfies both laws. */
  lemma {:induction false} RunInv(r: seq<State>, i: nat)
    requires Run(r) && i < |r|
    ensures Inv(r[i])
  {
    if i == 0 {
      InitInv(r[0]);
    } else {
      RunInv(r, i - 1);
      assert StepAt(r, i);
      var t: nat, c: Choice :| StepBy(r[i - 1], r[i], t, c);
      StepKeepsInv(r[i - 1], t, c);
    }
  }

  /** Callers never get more permits than there were and were signalled, finished or not, and
      whatever they did not get is still there to be taken. */
  lemma NeverMoreThanSignalled(r: seq<State>, i: nat)
    requires Run(r) && i < |r|
    ensures r[i].returned + Held(r[i]) <= r[i].initial + r[i].signalled
    ensures r[i].returned + Held(r[i]) + r[i].kernel + Owed(r[i]) + Max(0, r[i].count) == r[i].initial + r[i].signalled
  {
    RunInv(r, i);
  }

  /** A thread blocked in the kernel with no post on its way means that every permit is consumed. */
  lemma BlockedOnlyWhenConsumed(r: seq<State>, i: nat, t: nat)
    requires Run(r) && i < |r| && t < |r[i].pcs|
    requires Committed(r[i].pcs[t]) && r[i].kernel == 0 && Owed(r[i]) == 0
    ensures r[i].count < 0
    ensures r[i].returned + Held(r[i]) == r[i].initial + r[i].signalled
  {
    RunInv(r, i);
    TotalUpdate(r[i].pcs, Waits(), t, r[i].pcs[t]);
  }

  /** A timed-out thread's recovery loop always has a way out: the count is negative, so that
      it may take its decrement back, or a permit is in the kernel or on its way there. */
  lemma RecoveryHasExit(r: seq<State>, i: nat, t: nat)
    requires Run(r) && i < |r| && t < |r[i].pcs| && Committed(r[i].pcs[t])
    ensures r[i].count < 0 || r[i].kernel + Owed(r[i]) > 0
  {
    RunInv(r, i);
    TotalUpdate(r[i].pcs, Waits(), t, r[i].pcs[t]);
  }

  /** Thread `t` calls a wait for up to `max` permits. */
  ghost predicate CallsWait(s: State, s': State, t: nat, max: nat, kind: Kind) {
    t < |s.pcs| && s.pcs[t].Idle? && exists flag: bool :: StepBy(s, s', t, Choice(Wait(max, kind), flag))
  }

  lemma WaitEnters(s: State, s': State, t: nat, max: nat, kind: Kind)
    requires CallsWait(s, s', t, max, kind)
    ensures |s'.pcs| == |s.pcs| && s'.pcs[t] == TryLoad(Ask(max, kind, 0))
  {
  }

  /** Thread `t` called a wait for up to `max` permits at `i` and has not returned by `j`. */
  ghost predicate InCall(r: seq<State>, i: nat, j: nat, t: nat, max: nat, kind: Kind) {
    && i < j < |r|
    && (forall m :: i <= m <= j ==> t < |r[m].pcs|)
    && CallsWait(r[i], r[i + 1], t, max, kind)
    && (forall m :: i < m <= j ==> !r[m].pcs[t].Idle?)
  }

  lemma OneStepKeepsAsk(r: seq<State>, i: nat, t: nat)
    requires Run(r) && 0 < i < |r| && t < |r[i - 1].pcs| && t < |r[i].pcs|
    requires var p := r[i - 1].pcs[t]; !p.Idle? && !p.Posting?
    requires !r[i].pcs[t].Idle?
    ensures var p, p' := r[i - 1].pcs[t], r[i].pcs[t];
      !p'.Posting? && p'.ask.kind == p.ask.kind && p'.ask.max + p'.ask.got == p.ask.max + p.ask.got
  {
    assert StepAt(r, i);
    var s := r[i - 1];
    var u: nat, c: Choice :| StepBy(s, r[i], u, c);
    if u == t {
      ActKeepsAsk(s.pcs[t], s.count, s.kernel, c);
    }
  }

  /** What a call has and still wants adds up to what it was made for, all along. */
  lemma {:induction false} CallKeepsAsk(r: seq<State>, i: nat, j: nat, t: nat, max: nat, kind: Kind, m: nat)
    requires Run(r) && InCall(r, i, j, t, max, kind) && i < m <= j
    ensures var p := r[m].pcs[t];
      !p.Idle? && !p.Posting? && p.ask.kind == kind && p.ask.max + p.ask.got == max
    decreases m
  {
    if m == i + 1 {
      WaitEnters(r[i], r[m], t, max, kind);
    } else {
      CallKeepsAsk(r, i, j, t, max, kind, m - 1);
      OneStepKeepsAsk(r, m, t);
    }
  }

  /** What a finished call may report: never more than it asked for and, if it was to wait
      forever, at least one permit exactly if it asked for at least one. */
  lemma WaitReturnsPermit(r: seq<State>, i: nat, j: nat, t: nat, max: nat, kind: Kind)
    requires Run(r) && InCall(r, i, j, t, max, kind) && r[j].pcs[t].Returned?
    ensures r[j].pcs[t].ask.got <= max
    ensures kind.Forever? ==> (r[j].pcs[t].ask.got > 0 <==> max > 0)
  {
    CallKeepsAsk(r, i, j, t, max, kind, j);
    RunInv(r, j);
  }

  /** A call that waits forever for no permit at all returns without one. */
  lemma WaitForNothing() returns (r: seq<State>)
    ensures Run(r) && InCall(r, 0, 2, 0, 0, Forever) && r[2].pcs[0] == Returned(Ask(0, Forever, 0))
  {
    var s0 := State(0, 0, [Idle], 0, 0, 0);
    var c := Choice(Wait(0, Forever), false);
    var s1 := Step(s0, 0, c);
    var s2 := Step(s1, 0, c);
    r := [s0, s1, s2];
    assert StepBy(s0, s1, 0, c) && StepBy(s1, s2, 0, c);
    forall i | 0 < i < |r| ensures StepAt(r, i) {
      assert i == 1 || i == 2;
    }
  }

  /** With everyone at rest the count is what is left, and the kernel semaphore is empty. */
  lemma AtRest(r: seq<State>, i: nat)
    requires Run(r) && i < |r| && forall t :: 0 <= t < |r[i].pcs| ==> r[i].pcs[t].Idle?
    ensures r[i].kernel == 0 && r[i].count == r[i].initial + r[i].signalled - r[i].returned && r[i].count >= 0
  {
    RunInv(r, i);
    TotalNone(r[i].pcs, Waits());
    TotalNone(r[i].pcs, Owes());
    TotalNone(r[i].pcs, Holds());
  }

  // ---- What a call must come back with ------------------------------------------------

  /** A step that ends a call leaves it served in full, or the count was or is not positive. */
  lemma EndsShortOnlyWhenEmpty(p: Pc, count: int, kernel: nat, c: Choice)
    requires ThreadInv(p) && Unblocked(p, kernel, c) && !p.Returned?
    ensures var e := Act(p, count, kernel, c); e.pc.Returned? && e.pc.ask.max > 0 ==> count <= 0 || e.count <= 0
  {
  }

  lemma EndsShortAt(r: seq<State>, i: nat, t: nat)
    requires Run(r) && 0 < i < |r| && t < |r[i - 1].pcs| && t < |r[i].pcs|
    requires !r[i - 1].pcs[t].Returned? && r[i].pcs[t].Returned? && r[i].pcs[t].ask.max > 0
    ensures r[i - 1].count <= 0 || r[i].count <= 0
  {
    assert StepAt(r, i);
    var s := r[i - 1];
    var u: nat, c: Choice :| StepBy(s, r[i], u, c);
    if u == t { EndsShortOnlyWhenEmpty(s.pcs[t], s.count, s.kernel, c); }
  }

  lemma ReturnedStands(r: seq<State>, i: nat, t: nat)
    requires Run(r) && 0 < i < |r| && t < |r[i - 1].pcs| && t < |r[i].pcs|
    requires r[i - 1].pcs[t].Returned? && !r[i].pcs[t].Idle?
    ensures r[i].pcs[t] == r[i - 1].pcs[t]
  {
    assert StepAt(r, i);
    var u: nat, c: Choice :| StepBy(r[i - 1], r[i], u, c);
  }

  /** A wait comes back with fewer permits than it asked for, or with none, only if the count was
      not positive at some moment during the call: whoever finds enough takes all it asked for. */
  lemma {:induction false} ShortOnlyWhenEmpty(r: seq<State>, i: nat, j: nat, t: nat, max: nat, kind: Kind)
      returns (m: nat)
    requires Run(r) && InCall(r, i, j, t, max, kind) && r[j].pcs[t].Returned? && r[j].pcs[t].ask.got < max
    ensures i < m <= j && r[m].count <= 0
    decreases j
  {
    CallKeepsAsk(r, i, j, t, max, kind, j);
    WaitEnters(r[i], r[i + 1], t, max, kind);
    if r[j - 1].pcs[t].Returned? {
      ReturnedStands(r, j, t);
      m := ShortOnlyWhenEmpty(r, i, j - 1, t, max, kind);
    } else {
      EndsShortAt(r, j, t);
      m := if r[j].count <= 0 then j else j - 1;
    }
  }

  /** Taking back the decrement of the count after a timeout. */
  ghost predicate Recovering(p: Pc) {
    p.RecoverLoad? || p.RecoverTry? || p.RecoverCas?
  }

  /** A call that gives up with nothing though it asked for something and may block. */
  ghost predicate GivesUp(p: Pc) {
    p.Returned? && Unserved(p.ask)
  }

  /** The kernel wait of thread `t` expires in the step from `r[n]`. */
  ghost predicate ExpiresAt(r: seq<State>, n: nat, t: nat) {
    && n + 1 < |r| && t < |r[n].pcs| && r[n].pcs[t].KernelWait? && r[n].pcs[t].ask.kind.Timed?
    && exists call: Call :: StepBy(r[n], r[n + 1], t, Choice(call, true))
  }

  lemma ActGivesUp(p: Pc, count: int, kernel: nat, c: Choice)
    requires ThreadInv(p) && Unblocked(p, kernel, c)
    ensures var p' := Act(p, count, kernel, c).pc;
      && (GivesUp(p') ==> Recovering(p))
      && (Recovering(p') ==> Recovering(p) || (p.KernelWait? && p.ask.kind.Timed? && c.flag))
  {
  }

  lemma GivesUpAt(r: seq<State>, i: nat, t: nat)
    requires Run(r) && 0 < i < |r| && t < |r[i - 1].pcs| && t < |r[i].pcs| && r[i].pcs[t] != r[i - 1].pcs[t]
    ensures GivesUp(r[i].pcs[t]) ==> Recovering(r[i - 1].pcs[t])
    ensures Recovering(r[i].pcs[t]) ==> Recovering(r[i - 1].pcs[t]) || ExpiresAt(r, i - 1, t)
  {
    assert StepAt(r, i);
    var s := r[i - 1];
    var u: nat, c: Choice :| StepBy(s, r[i], u, c);
    assert c == Choice(c.call, c.flag);
    ActGivesUp(s.pcs[t], s.count, s.kernel, c);
  }

  /** A call that may block gives up with nothing only after its kernel wait has expired. */
  lemma {:induction false} GivesUpOnlyAfterTimeout(r: seq<State>, i: nat, j: nat, t: nat, max: nat, kind: Kind)
      returns (n: nat)
    requires Run(r) && InCall(r, i, j, t, max, kind) && (GivesUp(r[j].pcs[t]) || Recovering(r[j].pcs[t]))
    ensures i < n < j && ExpiresAt(r, n, t)
    decreases j
  {
    WaitEnters(r[i], r[i + 1], t, max, kind);
    if r[j].pcs[t] != r[j - 1].pcs[t] { GivesUpAt(r, j, t); }
    if GivesUp(r[j - 1].pcs[t]) || Recovering(r[j - 1].pcs[t]) {
      n := GivesUpOnlyAfterTimeout(r, i, j - 1, t, max, kind);
    } else {
      n := j - 1;
    }
  }

  // ---- A call on its own --------------------------------------------------------------

  /** Thread `t` running alone from call to return; nothing fails and no wait expires. */
  ghost predicate Alone(a: seq<State>, t: nat, c: Call) {
    && |a| > 1
    && (forall i :: 0 < i < |a| ==> StepBy(a[i - 1], a[i], t, Choice(c, false)))
    && (forall i :: 0 < i < |a| - 1 ==> t < |a[i].pcs| && !a[i].pcs[t].Idle?)
  }

  /** The non-blocking phase on its own: as many permits as there are, up to what is still wanted. */
  lemma TryPath(s: State, t: nat, c: Call) returns (a: seq<State>)
    requires t < |s.pcs| && s.pcs[t].TryLoad?
    requires var ask := s.pcs[t].ask; s.count > 0 || ask.got > 0 || ask.max == 0 || ask.kind.Try?
    ensures Alone(a, t, c) && a[0] == s
    ensures var ask := s.pcs[t].ask; var n := Min(ask.max, Max(0, s.count));
      a[|a| - 1] == s.(count := s.count - n, pcs := s.pcs[t := Returned(Ask(ask.max - n, ask.kind, ask.got + n))])
  {
    var ask, ch := s.pcs[t].ask, Choice(c, false);
    if s.count > 0 {
      var n := Min(ask.max, s.count);
      var s1 := s.(pcs := s.pcs[t := TryCas(ask, s.count)]);
      var s2 := s.(count := s.count - n, pcs := s.pcs[t := Returned(Ask(ask.max - n, ask.kind, ask.got + n))]);
      assert StepBy(s, s1, t, ch);
      assert StepBy(s1, s2, t, ch);
      a := [s, s1, s2];
    } else {
      var s1 := s.(pcs := s.pcs[t := Returned(ask)]);
      assert StepBy(s, s1, t, ch);
      a := [s, s1];
    }
  }

  lemma AloneFirst(s: State, b: seq<State>, t: nat, c: Call)
    requires Alone(b, t, c) && StepBy(s, b[0], t, Choice(c, false)) && t < |b[0].pcs| && !b[0].pcs[t].Idle?
    ensures Alone([s] + b, t, c)
  {
  }

  lemma AloneLast(b: seq<State>, s: State, t: nat, c: Call)
    requires Alone(b, t, c) && StepBy(b[|b| - 1], s, t, Choice(c, false))
    requires t < |b[|b| - 1].pcs| && !b[|b| - 1].pcs[t].Idle?
    ensures Alone(b + [s], t, c)
  {
  }

  /** On its own a wait takes as many permits as there are, up to what it asks for. */
  lemma LoneWaitTakes(s: State, t: nat, max: nat, kind: Kind) returns (a: seq<State>)
    requires t < |s.pcs| && s.pcs[t].Idle? && (s.count > 0 || kind.Try? || max == 0)
    ensures Alone(a, t, Wait(max, kind)) && a[0] == s
    ensures var n := Min(max, Max(0, s.count));
      a[|a| - 1] == s.(count := s.count - n, returned := s.returned + n)
  {
    var c := Wait(max, kind);
    var n := Min(max, Max(0, s.count));
    var s1 := s.(pcs := s.pcs[t := TryLoad(Ask(max, kind, 0))]);
    assert StepBy(s, s1, t, Choice(c, false));
    var b := TryPath(s1, t, c);
    AloneFirst(s, b, t, c);
    var s2 := s.(count := s.count - n, returned := s.returned + n);
    assert s1.pcs[t := Returned(Ask(max - n, kind, n))][t := Idle] == s.pcs;
    assert StepBy(b[|b| - 1], s2, t, Choice(c, false));
    AloneLast([s] + b, s2, t, c);
    a := [s] + b + [s2];
  }

  /** A thread that spins while there are permits takes them, up to what it asks for. */
  lemma LoneSpinnerTakes(s: State, t: nat, c: Call) returns (a: seq<State>)
    requires t < |s.pcs| && s.pcs[t].SpinLoad? && ThreadInv(s.pcs[t]) && s.count > 0
    ensures Alone(a, t, c) && a[0] == s
    ensures var ask := s.pcs[t].ask; var n := Min(ask.max, s.count);
      a[|a| - 1] == s.(count := s.count - n, pcs := s.pcs[t := Returned(Ask(ask.max - n, ask.kind, n))])
  {
    var ask := s.pcs[t].ask;
    var n := Min(ask.max, s.count);
    var s1 := s.(pcs := s.pcs[t := SpinCas(ask, s.count)]);
    var s2 := s.(count := s.count - n, pcs := s.pcs[t := Returned(Ask(ask.max - n, ask.kind, n))]);
    assert StepBy(s, s1, t, Choice(c, false));
    assert StepBy(s1, s2, t, Choice(c, false));
    a := [s, s1, s2];
  }

  /** A thread that waits in the kernel and is posted to comes back with that permit and as many
      more as there are, up to what it asks for. */
  lemma LoneWaiterWakes(s: State, t: nat, c: Call) returns (a: seq<State>)
    requires t < |s.pcs| && s.pcs[t].KernelWait? && ThreadInv(s.pcs[t]) && s.kernel > 0
    ensures Alone(a, t, c) && a[0] == s
    ensures var ask := s.pcs[t].ask; var n := Min(ask.max - 1, Max(0, s.count));
      a[|a| - 1] == s.(count := s.count - n, kernel := s.kernel - 1,
                       pcs := s.pcs[t := Returned(Ask(ask.max - 1 - n, ask.kind, 1 + n))])
  {
    var ask := s.pcs[t].ask;
    var more := Ask(ask.max - 1, ask.kind, 1);
    var s1 := s.(kernel := s.kernel - 1, pcs := s.pcs[t := if ask.max > 1 then TryLoad(more) else Returned(more)]);
    assert StepBy(s, s1, t, Choice(c, false));
    if ask.max > 1 {
      var n := Min(more.max, Max(0, s.count));
      var b := TryPath(s1, t, c);
      AloneFirst(s, b, t, c);
      a := [s] + b;
      var p := Returned(Ask(more.max - n, ask.kind, 1 + n));
      assert s1.pcs[t := p] == s.pcs[t := p];
    } else {
      a := [s, s1];
    }
  }

  lemma {:induction false} PostAll(s: State, t: nat, c: Call) returns (a: seq<State>)
    requires t < |s.pcs| && s.pcs[t].Posting? && s.pcs[t].left > 0
    ensures Alone(a, t, c) && a[0] == s
    ensures a[|a| - 1] == s.(kernel := s.kernel + s.pcs[t].left, pcs := s.pcs[t := Idle])
    decreases s.pcs[t].left
  {
    var left := s.pcs[t].left;
    var s1 := s.(kernel := s.kernel + 1, pcs := s.pcs[t := if left > 1 then Posting(left - 1) else Idle]);
    assert StepBy(s, s1, t, Choice(c, false));
    if left > 1 {
      var b := PostAll(s1, t, c);
      a := [s] + b;
      assert s1.pcs[t := Idle] == s.pcs[t := Idle];
    } else {
      a := [s, s1];
    }
  }

  /** On its own a signal of `n` adds `n` to the count and wakes as many kernel waiters as the
      count was negative, up to `n`. */
  lemma LoneSignalAdds(s: State, t: nat, n: nat) returns (a: seq<State>)
    requires t < |s.pcs| && s.pcs[t].Idle?
    ensures Alone(a, t, Signal(n)) && a[0] == s
    ensures a[|a| - 1] == s.(count := s.count + n, signalled := s.signalled + n,
                             kernel := s.kernel + Max(0, Min(-s.count, n)))
  {
    var release := Min(-s.count, n);
    var s1 := s.(count := s.count + n, signalled := s.signalled + n,
                 pcs := s.pcs[t := if release > 0 then Posting(release) else Idle]);
    assert StepBy(s, s1, t, Choice(Signal(n), false));
    assert s.pcs[t := Posting(1)][t := Idle] == s.pcs[t := Idle] == s.pcs;
    if release > 0 {
      var b := PostAll(s1, t, Signal(n));
      a := [s] + b;
      assert s1.pcs[t := Idle] == s.pcs;
    } else {
      a := [s, s1];
    }
  }
}
