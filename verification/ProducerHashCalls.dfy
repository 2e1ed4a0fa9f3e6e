/** What a call of `get_or_add_implicit_producer` comes back with. */
module ProducerHashCalls {
  import opened Modular
  import opened ProducerHash

  // ---- Whatever the other threads do ----------------------------------------------------------

  /** Thread `t` is about to allocate: a larger table, or its producer. */
  ghost predicate Allocates(s: State, t: nat) {
    && t < |s.pcs|
    && (|| s.pcs[t].Publish?
        || (s.pcs[t].TryAdd? && s.pcs[t].main < |s.tables| && s.pcs[t].n < Limit(s.tables[s.pcs[t].main].bits)))
  }

  /** The step is an allocation by thread `t` that fails. */
  ghost predicate Refused(s: State, s': State, t: nat) {
    Allocates(s, t) && StepBy(s, s', t, true)
  }

  /** On the way out after a failed allocation. */
  ghost predicate Doomed(p: Pc) {
    p.FailCount? || p.FailUnlock? || p.GiveUp?
  }

  /** How a step of its own takes a thread towards its result. */
  ghost predicate Turn(p: Pc, p': Pc, refused: bool) {
    && (Doomed(p') <==> (Doomed(p) && !p'.Idle?) || refused)
    && (p'.Idle? && Doomed(p) ==> p'.last == Null)
    && (p'.Idle? && !Doomed(p) ==> p'.last.Got?)
  }

  lemma LeavingTurns(s: State, s': State, t: nat, fails: bool)
    requires StepBy(s, s', t, fails) && (s.pcs[t].FailCount? || s.pcs[t].FailUnlock? || s.pcs[t].GiveUp?)
    ensures |s'.pcs| == |s.pcs| && Turn(s.pcs[t], s'.pcs[t], fails && Allocates(s, t))
  {
  }

  lemma CountingTurns(s: State, s': State, t: nat, fails: bool)
    requires StepBy(s, s', t, fails) && (s.pcs[t].Draw? || s.pcs[t].Unlock? || s.pcs[t].LoadAgain?)
    ensures |s'.pcs| == |s.pcs| && Turn(s.pcs[t], s'.pcs[t], fails && Allocates(s, t))
  {
  }

  lemma ResizingTurns(s: State, s': State, t: nat, fails: bool)
    requires StepBy(s, s', t, fails) && (s.pcs[t].TestLock? || s.pcs[t].Reload?)
    ensures |s'.pcs| == |s.pcs| && Turn(s.pcs[t], s'.pcs[t], fails && Allocates(s, t))
  {
  }

  lemma PublishTurns(s: State, s': State, t: nat, fails: bool)
    requires StepBy(s, s', t, fails) && s.pcs[t].Publish?
    ensures |s'.pcs| == |s.pcs| && Turn(s.pcs[t], s'.pcs[t], fails && Allocates(s, t))
  {
  }

  lemma AddTurns(s: State, s': State, t: nat, fails: bool)
    requires StepBy(s, s', t, fails) && s.pcs[t].TryAdd?
    ensures |s'.pcs| == |s.pcs| && Turn(s.pcs[t], s'.pcs[t], fails && Allocates(s, t))
  {
  }

  lemma ProbingTurns(s: State, s': State, t: nat, fails: bool)
    requires StepBy(s, s', t, fails) && s.pcs[t].Probe?
    ensures |s'.pcs| == |s.pcs| && Turn(s.pcs[t], s'.pcs[t], fails && Allocates(s, t))
  {
  }

  lemma ReadingTurns(s: State, s': State, t: nat, fails: bool)
    requires StepBy(s, s', t, fails) && (s.pcs[t].LoadMain? || s.pcs[t].ReadValue?)
    ensures |s'.pcs| == |s.pcs| && Turn(s.pcs[t], s'.pcs[t], fails && Allocates(s, t))
  {
  }

  lemma PlacingTurns(s: State, s': State, t: nat, fails: bool)
    requires StepBy(s, s', t, fails) && (s.pcs[t].LazyLoad? || s.pcs[t].LazyCas? || s.pcs[t].LazyStore?)
    ensures |s'.pcs| == |s.pcs| && Turn(s.pcs[t], s'.pcs[t], fails && Allocates(s, t))
  {
  }

  lemma InsertingTurns(s: State, s': State, t: nat, fails: bool)
    requires StepBy(s, s', t, fails) && (s.pcs[t].InsertLoad? || s.pcs[t].InsertCas? || s.pcs[t].InsertStore?)
    ensures |s'.pcs| == |s.pcs| && Turn(s.pcs[t], s'.pcs[t], fails && Allocates(s, t))
  {
  }

  lemma OwnStepTurns(s: State, s': State, t: nat, fails: bool)
    requires StepBy(s, s', t, fails) && !s.pcs[t].Idle?
    ensures |s'.pcs| == |s.pcs| && Turn(s.pcs[t], s'.pcs[t], fails && Allocates(s, t))
  {
    match s.pcs[t] {
      case LoadMain => ReadingTurns(s, s', t, fails);
      case Probe(_, _, _) => ProbingTurns(s, s', t, fails);
      case ReadValue(_, _, _) => ReadingTurns(s, s', t, fails);
      case LazyLoad(_, _, _) => PlacingTurns(s, s', t, fails);
      case LazyCas(_, _, _) => PlacingTurns(s, s', t, fails);
      case LazyStore(_, _, _) => PlacingTurns(s, s', t, fails);
      case TestLock(_, _) => ResizingTurns(s, s', t, fails);
      case Reload(_) => ResizingTurns(s, s', t, fails);
      case Publish(_, _) => PublishTurns(s, s', t, fails);
      case TryAdd(_, _) => AddTurns(s, s', t, fails);
      case InsertLoad(_, _, _) => InsertingTurns(s, s', t, fails);
      case InsertCas(_, _, _) => InsertingTurns(s, s', t, fails);
      case InsertStore(_, _, _) => InsertingTurns(s, s', t, fails);
      case FailCount => LeavingTurns(s, s', t, fails);
      case FailUnlock => LeavingTurns(s, s', t, fails);
      case GiveUp => LeavingTurns(s, s', t, fails);
      case _ => CountingTurns(s, s', t, fails);
    }
  }

  /** The step from `r[i - 1]`, seen from thread `t` inside a call: its own, or no concern of its. */
  lemma TurnAt(r: seq<State>, i: nat, t: nat)
    requires Run(r) && 0 < i < |r| && t < |r[i - 1].pcs| && !r[i - 1].pcs[t].Idle?
    ensures |r[i].pcs| == |r[i - 1].pcs|
    ensures var p, p', refused := r[i - 1].pcs[t], r[i].pcs[t], Refused(r[i - 1], r[i], t);
      (p' == p && !refused) || Turn(p, p', refused)
  {
    assert StepAt(r, i);
    var s, s' := r[i - 1], r[i];
    var u: nat, fails: bool :| StepBy(s, s', u, fails);
    if u == t {
      OwnStepTurns(s, s', t, fails);
      if Refused(s, s', t) && !fails { OwnStepTurns(s, s', t, true); }
    } else {
      StepKeepsBits(s, s', u, fails);
      if Refused(s, s', t) { OwnStepTurns(s, s', t, true); }
    }
  }

  /** Thread `t` calls at `i` and is back at `j`. */
  ghost predicate Call(r: seq<State>, i: nat, j: nat, t: nat, fails: bool) {
    && i + 1 < j < |r|
    && (forall m :: i <= m <= j ==> t < |r[m].pcs|)
    && r[i].pcs[t].Idle? && StepBy(r[i], r[i + 1], t, fails) && r[j].pcs[t].Idle?
    && (forall m :: i < m < j ==> !r[m].pcs[t].Idle?)
  }

  ghost predicate RefusedAt(r: seq<State>, n: nat, t: nat) {
    n + 1 < |r| && Refused(r[n], r[n + 1], t)
  }

  ghost predicate RefusedBetween(r: seq<State>, i: nat, j: nat, t: nat) {
    exists n :: i < n < j && RefusedAt(r, n, t)
  }

  lemma CallEnters(s: State, s': State, t: nat, fails: bool)
    requires StepBy(s, s', t, fails) && s.pcs[t].Idle?
    ensures s' == s.(pcs := s.pcs[t := LoadMain])
  {
  }

  lemma {:induction false} DoomedIffRefused(r: seq<State>, i: nat, j: nat, t: nat, fails: bool, m: nat)
    requires Run(r) && Call(r, i, j, t, fails) && i < m < j
    ensures Doomed(r[m].pcs[t]) <==> RefusedBetween(r, i, m, t)
    decreases m
  {
    if m == i + 1 {
      CallEnters(r[i], r[m], t, fails);
    } else {
      DoomedIffRefused(r, i, j, t, fails, m - 1);
      TurnAt(r, m, t);
      MoreRefused(r, i, m, t);
    }
  }

  lemma MoreRefused(r: seq<State>, i: nat, m: nat, t: nat)
    requires i + 1 < m < |r|
    ensures RefusedBetween(r, i, m, t) <==> RefusedBetween(r, i, m - 1, t) || Refused(r[m - 1], r[m], t)
  {
    if Refused(r[m - 1], r[m], t) { assert RefusedAt(r, m - 1, t); }
    if n :| i < n < m - 1 && RefusedAt(r, n, t) { assert RefusedBetween(r, i, m, t); }
    if n :| i < n < m && RefusedAt(r, n, t) { assert n == m - 1 || RefusedBetween(r, i, m - 1, t); }
  }

  /** A call comes back without a producer exactly if an allocation that it made itself was
      refused, of a larger table or of the producer; otherwise it comes back with one. */
  lemma NullIffRefused(r: seq<State>, i: nat, j: nat, t: nat, fails: bool)
    requires Run(r) && Call(r, i, j, t, fails)
    ensures if RefusedBetween(r, i, j, t) then r[j].pcs[t] == Idle(Null) else r[j].pcs[t].last.Got?
  {
    DoomedIffRefused(r, i, j, t, fails, j - 1);
    TurnAt(r, j, t);
    MoreRefused(r, i, j, t);
  }

  // ---- On its own -----------------------------------------------------------------------------

  /** Thread `t` running alone, no allocation of its failing, inside a call all the way. */
  ghost predicate Alone(a: seq<State>, t: nat) {
    && a != []
    && (forall i :: 0 < i < |a| ==> StepBy(a[i - 1], a[i], t, false))
    && (forall i :: 0 < i < |a| - 1 ==> t < |a[i].pcs| && !a[i].pcs[t].Idle?)
  }

  lemma AloneFirst(s: State, b: seq<State>, t: nat)
    requires Alone(b, t) && StepBy(s, b[0], t, false) && t < |b[0].pcs| && (|b| > 1 ==> !b[0].pcs[t].Idle?)
    ensures Alone([s] + b, t)
  {
  }

  lemma AloneOn(a: seq<State>, b: seq<State>, t: nat)
    requires Alone(a, t) && Alone(b, t) && a[|a| - 1] == b[0] && t < |b[0].pcs| && !b[0].pcs[t].Idle?
    ensures Alone(a + b[1..], t) && (a + b[1..])[0] == a[0] && (a + b[1..])[|a + b[1..]| - 1] == b[|b| - 1]
  {
    var d := a + b[1..];
    forall i | 0 < i < |d| ensures StepBy(d[i - 1], d[i], t, false) {
      if i >= |a| { assert d[i - 1] == b[i - |a|] && d[i] == b[i - |a| + 1]; }
    }
  }

  lemma OwnStep(s: State, t: nat) returns (s': State)
    requires Inv(s) && t < |s.pcs|
    ensures StepBy(s, s', t, false) && Inv(s')
  {
    assert ThreadInv(s, t);
    s' := Step(s, t, false);
    StepKeepsInv(s, t, false);
  }

  /** The probe loop of the search, over all the tables from `h` down. */
  ghost predicate Searched(p: Pc, p': Pc) {
    p.Probe? && ((p'.Draw? && p'.main == p.main) || (p'.ReadValue? && p'.main == p.main))
  }

  lemma ProbeGoes(s: State, s': State, t: nat)
    requires StepBy(s, s', t, false) && s.pcs[t].Probe?
    ensures s' == s.(pcs := s.pcs[t := s'.pcs[t]])
    ensures var p, p' := s.pcs[t], s'.pcs[t];
      Searched(p, p') || p' == Probe(p.main, p.h, p.d + 1) || (p.h > 0 && p' == Probe(p.main, p.h - 1, 0))
  {
  }

  lemma ProbeLeft(s: State, t: nat)
    requires Inv(s) && t < |s.pcs| && s.pcs[t].Probe?
    ensures s.pcs[t].h < |s.tables| && s.pcs[t].d < |s.tables[s.pcs[t].h].slots|
  {
    assert ThreadInv(s, t);
  }

  ghost function ProbesLeft(s: State, t: nat): int {
    if t < |s.pcs| && s.pcs[t].Probe? && s.pcs[t].h < |s.tables|
    then |s.tables[s.pcs[t].h].slots| - s.pcs[t].d
    else 0
  }

  lemma ProbeOnce(s: State, t: nat) returns (s': State)
    requires Inv(s) && t < |s.pcs| && s.pcs[t].Probe?
    ensures StepBy(s, s', t, false) && Inv(s') && |s'.pcs| == |s.pcs| && s' == s.(pcs := s.pcs[t := s'.pcs[t]])
    ensures if s'.pcs[t].Probe? then
              && s'.pcs[t].main == s.pcs[t].main && 0 <= ProbesLeft(s', t)
              && (s'.pcs[t].h < s.pcs[t].h || (s'.pcs[t].h == s.pcs[t].h && ProbesLeft(s', t) < ProbesLeft(s, t)))
            else Searched(s.pcs[t], s'.pcs[t])
  {
    s' := OwnStep(s, t);
    ProbeGoes(s, s', t);
    ProbeLeft(s, t);
    if s'.pcs[t].Probe? { ProbeLeft(s', t); }
  }

  lemma {:induction false} LoneSearch(s: State, t: nat) returns (a: seq<State>)
    requires Inv(s) && t < |s.pcs| && s.pcs[t].Probe?
    ensures Alone(a, t) && a[0] == s
    ensures var s' := a[|a| - 1];
      Inv(s') && t < |s'.pcs| && s' == s.(pcs := s.pcs[t := s'.pcs[t]]) && Searched(s.pcs[t], s'.pcs[t])
    decreases s.pcs[t].h, ProbesLeft(s, t)
  {
    var s' := ProbeOnce(s, t);
    if s'.pcs[t].Probe? {
      var b := LoneSearch(s', t);
      AloneFirst(s, b, t);
      a := [s] + b;
    } else {
      a := [s, s'];
    }
  }

  /** What placing a key and its value leaves alone. */
  ghost predicate Calm(s: State, s': State) {
    && s'.count == s.count && s'.producers == s.producers && s'.made == s.made && |s'.tables| == |s.tables|
    && |s'.pcs| == |s.pcs|
  }

  ghost predicate Placing(p: Pc) {
    p.LazyLoad? || p.LazyCas? || p.LazyStore? || p.InsertLoad? || p.InsertCas? || p.InsertStore?
  }

  /** How many steps are left at most, in a table of `n` slots. */
  ghost function PlacesLeft(p: Pc, n: nat): int {
    if p.LazyLoad? || p.InsertLoad? then 2 * (n - p.d) + 3
    else if p.LazyCas? || p.InsertCas? then 2 * (n - p.d) + 2
    else if p.LazyStore? || p.InsertStore? then 1
    else 0
  }

  /** One step of placing: on along the probe path, or nearer to the end. */
  ghost predicate Places(p: Pc, p': Pc) {
    && (p.LazyLoad? ==> p' == LazyCas(p.main, p.d, p.value) || p' == LazyLoad(p.main, p.d + 1, p.value))
    && (p.LazyCas? ==> p' == LazyStore(p.main, p.d, p.value) || p' == LazyLoad(p.main, p.d + 1, p.value))
    && (p.InsertLoad? ==> p' == InsertCas(p.main, p.d, p.value) || p' == InsertLoad(p.main, p.d + 1, p.value))
    && (p.InsertCas? ==> p' == InsertStore(p.main, p.d, p.value) || p' == InsertLoad(p.main, p.d + 1, p.value))
    && (p.LazyStore? || p.InsertStore? ==> p'.Idle?)
  }

  lemma LazyPlaces(s: State, s': State, t: nat)
    requires StepBy(s, s', t, false) && (s.pcs[t].LazyLoad? || s.pcs[t].LazyCas? || s.pcs[t].LazyStore?)
    ensures Calm(s, s') && s'.pcs == s.pcs[t := s'.pcs[t]] && Places(s.pcs[t], s'.pcs[t])
  {
  }

  lemma InsertPlaces(s: State, s': State, t: nat)
    requires StepBy(s, s', t, false) && (s.pcs[t].InsertLoad? || s.pcs[t].InsertCas? || s.pcs[t].InsertStore?)
    ensures Calm(s, s') && s'.pcs == s.pcs[t := s'.pcs[t]] && Places(s.pcs[t], s'.pcs[t])
  {
  }

  lemma PlaceBound(s: State, t: nat)
    requires Inv(s) && t < |s.pcs| && Placing(s.pcs[t])
    ensures s.pcs[t].main < |s.tables| && PlacesLeft(s.pcs[t], |s.tables[s.pcs[t].main].slots|) > 0
  {
    assert ThreadInv(s, t);
  }

  lemma SlotsKept(s: State, s': State, t: nat, h: nat)
    requires Inv(s) && Inv(s') && StepBy(s, s', t, false) && h < |s.tables|
    ensures h < |s'.tables| && |s'.tables[h].slots| == |s.tables[h].slots|
  {
    StepKeepsBits(s, s', t, false);
  }

  /** Table `h` has the thread's producer for it. */
  ghost predicate InTable(s: State, h: nat, t: nat) {
    && h < |s.tables| && t in s.made
    && exists q :: 0 <= q < |s.tables[h].slots| && s.tables[h].slots[q].key == Id(t)
                   && s.tables[h].slots[q].value == s.made[t]
  }

  lemma StorePlaces(s: State, s': State, t: nat)
    requires Inv(s) && StepBy(s, s', t, false) && (s.pcs[t].LazyStore? || s.pcs[t].InsertStore?)
    ensures InTable(s', s.pcs[t].main, t)
  {
    var p := s.pcs[t];
    assert ThreadInv(s, t);
    var q := At(s, t, p.main, p.d);
    assert s'.tables[p.main].slots[q].key == Id(t) && s'.tables[p.main].slots[q].value == s.made[t];
  }

  lemma PlaceStep(s: State, t: nat, n: nat) returns (s': State)
    requires Inv(s) && t < |s.pcs| && Placing(s.pcs[t])
    requires s.pcs[t].main < |s.tables| && n == |s.tables[s.pcs[t].main].slots|
    ensures StepBy(s, s', t, false) && Inv(s') && Calm(s, s') && s'.pcs == s.pcs[t := s'.pcs[t]]
    ensures if s'.pcs[t].Idle? then InTable(s', s.pcs[t].main, t)
            else Placing(s'.pcs[t]) && s'.pcs[t].main == s.pcs[t].main
    ensures |s'.tables[s.pcs[t].main].slots| == n && 0 <= PlacesLeft(s'.pcs[t], n) < PlacesLeft(s.pcs[t], n)
  {
    var p := s.pcs[t];
    s' := OwnStep(s, t);
    PlaceBound(s, t);
    SlotsKept(s, s', t, p.main);
    if p.LazyLoad? || p.LazyCas? || p.LazyStore? { LazyPlaces(s, s', t); } else { InsertPlaces(s, s', t); }
    if s'.pcs[t].Idle? { StorePlaces(s, s', t); } else { PlaceBound(s', t); }
  }

  lemma {:induction false} LonePlace(s: State, t: nat, n: nat) returns (a: seq<State>)
    requires Inv(s) && t < |s.pcs| && Placing(s.pcs[t])
    requires s.pcs[t].main < |s.tables| && n == |s.tables[s.pcs[t].main].slots|
    ensures Alone(a, t) && a[0] == s
    ensures var s' := a[|a| - 1];
      && Inv(s') && Calm(s, s') && s'.pcs == s.pcs[t := s'.pcs[t]] && s'.pcs[t].Idle?
      && InTable(s', s.pcs[t].main, t)
    decreases PlacesLeft(s.pcs[t], n)
  {
    var s' := PlaceStep(s, t, n);
    if s'.pcs[t].Idle? {
      a := [s, s'];
    } else {
      var b := LonePlace(s', t, n);
      AloneFirst(s, b, t);
      a := [s] + b;
    }
  }

  /** The newest table is half full with `n` threads in it. */
  ghost predicate HalfFull(s: State, n: nat) {
    s.tables != [] && n >= Capacity(s.tables[|s.tables| - 1].bits) / 2
  }

  /** The thread goes on to `p'`; counts and tables stay as they are. */
  ghost predicate Goes(s: State, s': State, t: nat, p': Pc) {
    && t < |s.pcs| && s'.pcs == s.pcs[t := p'] && s'.tables == s.tables
    && s'.count == s.count && s'.producers == s.producers && s'.made == s.made
  }

  lemma DrawGoes(s: State, s': State, t: nat)
    requires StepBy(s, s', t, false) && s.pcs[t].Draw?
    ensures s'.locked == s.locked && s'.count == s.count + 1
    ensures Goes(s.(count := s.count + 1), s', t, TestLock(s.pcs[t].main, s.count + 1))
  {
  }

  lemma TestGoes(s: State, s': State, t: nat)
    requires StepBy(s, s', t, false) && s.pcs[t].TestLock? && s.pcs[t].main == |s.tables| - 1 && !s.locked
    ensures var p := s.pcs[t]; Goes(s, s', t, if HalfFull(s, p.n) then Reload(p.n) else TryAdd(p.main, p.n))
  {
  }

  lemma ReloadGoes(s: State, s': State, t: nat)
    requires StepBy(s, s', t, false) && s.pcs[t].Reload? && HalfFull(s, s.pcs[t].n)
    ensures Goes(s, s', t, Publish(|s.tables| - 1, s.pcs[t].n))
  {
  }

  lemma PublishGoes(s: State, s': State, t: nat)
    requires StepBy(s, s', t, false) && s.pcs[t].Publish? && s.pcs[t].main == |s.tables| - 1
    ensures |s'.tables| == |s.tables| + 1 && !HalfFull(s', s.pcs[t].n)
    ensures Goes(s.(tables := s'.tables), s', t, Unlock(|s.tables|, s.pcs[t].n))
  {
  }

  lemma UnlockGoes(s: State, s': State, t: nat)
    requires StepBy(s, s', t, false) && s.pcs[t].Unlock?
    ensures Goes(s, s', t, TryAdd(s.pcs[t].main, s.pcs[t].n))
  {
  }

  lemma AddGoes(s: State, s': State, t: nat)
    requires StepBy(s, s', t, false) && s.pcs[t].TryAdd? && s.pcs[t].main == |s.tables| - 1
    requires !HalfFull(s, s.pcs[t].n)
    ensures s'.producers == s.producers + 1 && s'.made == s.made[t := s.producers] && s'.count == s.count
    ensures s'.tables == s.tables && s'.pcs == s.pcs[t := InsertLoad(s.pcs[t].main, 0, s.producers)]
  {
  }

  /** Publishing a larger table: from the half-full test to the attempt to add. */
  lemma LoneResize(s: State, t: nat) returns (a: seq<State>)
    requires Inv(s) && t < |s.pcs| && s.pcs[t].Reload? && HalfFull(s, s.pcs[t].n)
    ensures Alone(a, t) && a[0] == s
    ensures var s', n := a[|a| - 1], s.pcs[t].n;
      && Inv(s') && |s'.tables| == |s.tables| + 1 && !HalfFull(s', n)
      && Goes(s.(tables := s'.tables), s', t, TryAdd(|s.tables|, n))
  {
    var s1 := OwnStep(s, t);
    ReloadGoes(s, s1, t);
    var s2 := OwnStep(s1, t);
    PublishGoes(s1, s2, t);
    var s3 := OwnStep(s2, t);
    UnlockGoes(s2, s3, t);
    a := [s, s1, s2, s3];
  }

  lemma LoneTest(s: State, t: nat) returns (a: seq<State>)
    requires Inv(s) && t < |s.pcs| && s.pcs[t].Draw? && s.pcs[t].main == |s.tables| - 1 && !s.locked
    ensures Alone(a, t) && a[0] == s
    ensures var s', n := a[|a| - 1], s.count + 1;
      && Inv(s') && Goes(s.(count := n), s', t, if HalfFull(s, n) then Reload(n) else TryAdd(|s.tables| - 1, n))
  {
    var s1 := OwnStep(s, t);
    DrawGoes(s, s1, t);
    var s2 := OwnStep(s1, t);
    TestGoes(s1, s2, t);
    a := [s, s1, s2];
  }

  /** Drawing a count: with room in the newest table it is used; else a larger one is published. */
  lemma LoneDraw(s: State, t: nat) returns (a: seq<State>)
    requires Inv(s) && t < |s.pcs| && s.pcs[t].Draw? && s.pcs[t].main == |s.tables| - 1 && !s.locked
    ensures Alone(a, t) && a[0] == s
    ensures var s', n := a[|a| - 1], s.count + 1;
      && Inv(s') && |s'.tables| == |s.tables| + (if HalfFull(s, n) then 1 else 0) && !HalfFull(s', n)
      && Goes(s.(tables := s'.tables, count := n), s', t, TryAdd(|s'.tables| - 1, n))
  {
    a := LoneTest(s, t);
    if HalfFull(s, s.count + 1) {
      var y := LoneResize(a[|a| - 1], t);
      AloneOn(a, y, t);
      a := a + y[1..];
    }
  }

  /** What the first call of a thread changes: one more thread counts, one more producer is there,
      it is the thread's, and there is a new table exactly if the newest was half full. */
  ghost predicate Added(s: State, s': State, t: nat) {
    && s'.count == s.count + 1 && s'.producers == s.producers + 1 && s'.made == s.made[t := s.producers]
    && |s'.tables| == |s.tables| + (if HalfFull(s, s.count + 1) then 1 else 0)
    && |s'.pcs| == |s.pcs|
  }

  lemma LoneAdd(s: State, t: nat) returns (a: seq<State>)
    requires Inv(s) && t < |s.pcs| && s.pcs[t].Draw? && s.pcs[t].main == |s.tables| - 1 && !s.locked
    ensures Alone(a, t) && a[0] == s
    ensures var s' := a[|a| - 1];
      Inv(s') && Added(s, s', t) && s'.pcs[t].Idle? && InTable(s', |s'.tables| - 1, t)
  {
    var x := LoneDraw(s, t);
    var s1 := x[|x| - 1];
    var s2 := OwnStep(s1, t);
    AddGoes(s1, s2, t);
    PlaceBound(s2, t);
    var y := LonePlace(s2, t, |s2.tables[s2.pcs[t].main].slots|);
    AloneFirst(s1, y, t);
    AloneOn(x, [s1] + y, t);
    a := x + ([s1] + y)[1..];
  }

  lemma LoneFound(s: State, t: nat) returns (a: seq<State>)
    requires Inv(s) && t < |s.pcs| && s.pcs[t].ReadValue?
    ensures t in s.made && Alone(a, t) && a[0] == s
    ensures var s' := a[|a| - 1];
      Inv(s') && Calm(s, s') && s'.pcs[t].Idle? && InTable(s', s.pcs[t].main, t)
  {
    FoundIsMade(s, t);
    var s1 := OwnStep(s, t);
    ReadGoes(s, s1, t);
    if s1.pcs[t].Idle? {
      a := [s, s1];
    } else {
      PlaceBound(s1, t);
      var y := LonePlace(s1, t, |s1.tables[s1.pcs[t].main].slots|);
      AloneFirst(s, y, t);
      a := [s] + y;
    }
  }

  lemma FoundIsMade(s: State, t: nat)
    requires Inv(s) && t < |s.pcs| && s.pcs[t].ReadValue?
    ensures t in s.made && InTable(s, s.pcs[t].h, t)
  {
    var p := s.pcs[t];
    assert ThreadInv(s, t);
    var q := At(s, t, p.h, p.d);
    assert SlotInv(s, p.h, q);
    assert s.tables[p.h].slots[q].key == Id(t) && s.tables[p.h].slots[q].value == s.made[t];
  }

  lemma ReadGoes(s: State, s': State, t: nat)
    requires StepBy(s, s', t, false) && s.pcs[t].ReadValue?
    ensures Calm(s, s') && s'.pcs == s.pcs[t := s'.pcs[t]] && s'.tables == s.tables
    ensures if s.pcs[t].h == s.pcs[t].main then s'.pcs[t].Idle?
            else s'.pcs[t].LazyLoad? && s'.pcs[t].main == s.pcs[t].main
  {
  }

  lemma LoadGoes(s: State, s1: State, s2: State, t: nat)
    requires StepBy(s, s1, t, false) && s.pcs[t].Idle? && StepBy(s1, s2, t, false)
    ensures s1 == s.(pcs := s.pcs[t := LoadMain])
    ensures s2 == s.(pcs := s.pcs[t := Probe(|s.tables| - 1, |s.tables| - 1, 0)])
  {
  }

  lemma Returned(s: State, t: nat)
    requires Inv(s) && t < |s.pcs| && s.pcs[t].Idle? && t in s.made
    ensures s.pcs[t] == Idle(Got(s.made[t]))
  {
    assert ThreadInv(s, t);
  }

  lemma LoneStart(s: State, t: nat) returns (a: seq<State>)
    requires Inv(s) && t < |s.pcs| && s.pcs[t].Idle?
    ensures |a| > 1 && Alone(a, t) && a[0] == s
    ensures var s' := a[|a| - 1];
      && Inv(s') && t < |s'.pcs| && s' == s.(pcs := s.pcs[t := s'.pcs[t]])
      && (s'.pcs[t] == Draw(|s.tables| - 1) || (s'.pcs[t].ReadValue? && s'.pcs[t].main == |s.tables| - 1))
  {
    var s1 := OwnStep(s, t);
    var s2 := OwnStep(s1, t);
    LoadGoes(s, s1, s2, t);
    var x := LoneSearch(s2, t);
    AloneFirst(s1, x, t);
    AloneFirst(s, [s1] + x, t);
    a := [s] + ([s1] + x);
    assert a[|a| - 1] == x[|x| - 1];
  }

  lemma DrawsOnce(s: State, t: nat)
    requires Inv(s) && t < |s.pcs| && s.pcs[t].Draw?
    ensures t !in s.made
  {
    assert ThreadInv(s, t);
  }

  /** What a call that is not refused does: it returns the thread's own producer if it has one, a
      new one if not, and the newest table has it afterwards. */
  ghost predicate Served(s: State, s': State, t: nat) {
    && t < |s'.pcs|
    && (if t in s.made then s'.pcs[t] == Idle(Got(s.made[t])) && Calm(s, s')
        else s'.pcs[t] == Idle(Got(s.producers)) && Added(s, s', t))
    && s'.tables != [] && InTable(s', |s'.tables| - 1, t)
  }

  lemma LoneRest(s: State, t: nat) returns (a: seq<State>)
    requires Inv(s) && t < |s.pcs| && !s.locked
    requires (s.pcs[t].Draw? || s.pcs[t].ReadValue?) && s.pcs[t].main == |s.tables| - 1
    ensures Alone(a, t) && a[0] == s && Served(s, a[|a| - 1], t)
  {
    if s.pcs[t].ReadValue? {
      a := LoneFound(s, t);
    } else {
      DrawsOnce(s, t);
      a := LoneAdd(s, t);
    }
    Returned(a[|a| - 1], t);
  }

  /** A thread that calls alone while nobody is resizing, with no allocation refused, comes back
      with a producer: its own if it has one, a new one if not; either way the newest table has
      it afterwards, so that the next search ends there. */
  lemma LoneCallGetsProducer(s: State, t: nat) returns (a: seq<State>)
    requires Inv(s) && t < |s.pcs| && s.pcs[t].Idle? && !s.locked
    ensures |a| > 1 && Alone(a, t) && a[0] == s && Served(s, a[|a| - 1], t)
  {
    a := LoneStart(s, t);
    var y := LoneRest(a[|a| - 1], t);
    AloneOn(a, y, t);
    a := a + y[1..];
  }

  /** The numbers: the first table has 32 slots, is half full with the sixteenth thread and
      takes twenty-three; every later one has twice the slots of the one before, or more. */
  lemma Thresholds(s: State, h: nat, n: nat)
    requires Init(s)
    ensures |s.tables| == 1 && |s.tables[0].slots| == 32
    ensures HalfFull(s, n) <==> n >= 16
    ensures n < Limit(0) <==> n <= 23
    ensures Capacity(h + 1) == 2 * Capacity(h) && (n < Limit(h) <==> 4 * n < 3 * Capacity(h))
  {
  }
}
