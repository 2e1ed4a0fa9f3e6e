/** What the calls of the blocking queue come back with. */
module BlockingQueueCalls {
  import opened Basics
  import opened Tally
  import Sem = Semaphore
  import opened BlockingQueue

  /** Thread `t` makes the call `c` at `i` and is back at `j`. */
  ghost predicate Call(r: seq<State>, i: nat, j: nat, t: nat, c: Choice) {
    && i + 1 < j < |r|
    && (forall m :: i <= m <= j ==> Sized(r[m]) && t < |r[m].pcs|)
    && r[i].pcs[t].Idle? && StepBy(r[i], r[i + 1], t, c) && r[j].pcs[t].Idle?
    && (forall m :: i < m < j ==> !r[m].pcs[t].Idle?)
  }

  // ---- Enqueue ------------------------------------------------------------------------

  /** What others do leaves a thread's place and what it has put alone. */
  lemma OthersLeave(s: State, s': State, u: nat, c: Choice, t: nat)
    requires StepBy(s, s', u, c) && t < |s.pcs| && t != u
    ensures Sized(s') && |s'.pcs| == |s.pcs|
    ensures s'.pcs[t] == s.pcs[t] && s'.put[t] == s.put[t] && s'.sem.pcs[t] == s.sem.pcs[t]
  {
  }

  /** The inner enqueue of thread `t` is refused in this step. */
  ghost predicate Refused(s: State, s': State, t: nat) {
    t < |s.pcs| && s.pcs[t].Put? && StepBy(s, s', t, Go(true))
  }

  /** Thread `t` signals `n` elements in this step. */
  ghost predicate Signals(s: State, s': State, t: nat, n: nat) {
    && t < |s.pcs| == |s'.pcs| && s.pcs[t] == SignalDue(n) && s'.pcs[t] != s.pcs[t]
    && s'.sem.signalled == s.sem.signalled + n
  }

  /** How far an enqueue of `xs` has come, since what its thread had put was `was`. */
  ghost predicate Enqueuing(s: State, t: nat, xs: seq<Item>, was: seq<Item>, refused: bool, signalled: bool) {
    && Sized(s) && t < |s.pcs|
    && match s.pcs[t]
       case Put(ys) => ys == xs && s.put[t] == was && !refused && !signalled
       case SignalDue(n) => n == |xs| && s.put[t] == was + xs && !refused && !signalled
       case InSignal => s.put[t] == was + xs && !refused && signalled
       case Idle => if refused then s.put[t] == was && !signalled else s.put[t] == was + xs && signalled
       case _ => false
  }

  lemma EnqueueEnters(s: State, s': State, t: nat, xs: seq<Item>)
    requires t < |s.pcs| && s.pcs[t].Idle? && StepBy(s, s', t, Enqueue(xs))
    ensures Enqueuing(s', t, xs, s.put[t], false, false)
  {
  }

  lemma OwnStepEnqueues(s: State, s': State, t: nat, c: Choice, xs: seq<Item>, was: seq<Item>, done: bool)
    requires Inv(s) && StepBy(s, s', t, c) && !s.pcs[t].Idle? && Enqueuing(s, t, xs, was, false, done)
    ensures Enqueuing(s', t, xs, was, Refused(s, s', t), done || Signals(s, s', t, |xs|))
    ensures done ==> !Signals(s, s', t, |xs|)
  {
    if s.pcs[t].SignalDue? || s.pcs[t].InSignal? {
      Sem.StepKeepsInv(s.sem, t, SemChoice(s.pcs[t], c));
    }
  }

  lemma RefusedMoves(s: State, s': State, t: nat)
    requires Refused(s, s', t)
    ensures |s'.pcs| == |s.pcs| && s'.pcs[t].Idle?
  {
  }

  lemma StepEnqueues(r: seq<State>, i: nat, t: nat, xs: seq<Item>, was: seq<Item>, done: bool)
    requires Run(r) && 0 < i < |r| && Enqueuing(r[i - 1], t, xs, was, false, done) && !r[i - 1].pcs[t].Idle?
    ensures Enqueuing(r[i], t, xs, was, Refused(r[i - 1], r[i], t), done || Signals(r[i - 1], r[i], t, |xs|))
  {
    var s, s' := r[i - 1], r[i];
    RunInv(r, i - 1);
    assert StepAt(r, i);
    var u: nat, c: Choice :| StepBy(s, s', u, c);
    if u == t {
      OwnStepEnqueues(s, s', t, c, xs, was, done);
    } else {
      OthersLeave(s, s', u, c, t);
      if Refused(s, s', t) { RefusedMoves(s, s', t); }
    }
  }

  ghost predicate RefusedAt(r: seq<State>, n: nat, t: nat) {
    n + 1 < |r| && Refused(r[n], r[n + 1], t)
  }

  ghost predicate SignalsAt(r: seq<State>, n: nat, t: nat, k: nat) {
    n + 1 < |r| && Signals(r[n], r[n + 1], t, k)
  }

  ghost predicate RefusedIn(r: seq<State>, i: nat, j: nat, t: nat) {
    exists n :: i < n < j && RefusedAt(r, n, t)
  }

  ghost predicate SignalsIn(r: seq<State>, i: nat, j: nat, t: nat, k: nat) {
    exists n :: i < n < j && SignalsAt(r, n, t, k)
  }

  lemma OneMore(r: seq<State>, i: nat, m: nat, t: nat, k: nat)
    requires i + 1 < m < |r|
    ensures RefusedIn(r, i, m, t) <==> RefusedIn(r, i, m - 1, t) || Refused(r[m - 1], r[m], t)
    ensures SignalsIn(r, i, m, t, k) <==> SignalsIn(r, i, m - 1, t, k) || Signals(r[m - 1], r[m], t, k)
  {
    if Refused(r[m - 1], r[m], t) { assert RefusedAt(r, m - 1, t); }
    if Signals(r[m - 1], r[m], t, k) { assert SignalsAt(r, m - 1, t, k); }
  }

  lemma {:induction false} EnqueuingAt(r: seq<State>, i: nat, j: nat, t: nat, xs: seq<Item>, m: nat)
    requires Run(r) && Call(r, i, j, t, Enqueue(xs)) && i < m <= j
    ensures Enqueuing(r[m], t, xs, r[i].put[t], RefusedIn(r, i, m, t), SignalsIn(r, i, m, t, |xs|))
    decreases m
  {
    if m == i + 1 {
      EnqueueEnters(r[i], r[m], t, xs);
    } else {
      EnqueuingAt(r, i, j, t, xs, m - 1);
      StepEnqueues(r, m, t, xs, r[i].put[t], SignalsIn(r, i, m - 1, t, |xs|));
      OneMore(r, i, m, t, |xs|);
    }
  }

  /** What a call of enqueue, single or bulk, does with the elements `xs` it is given: unless the
      inner queue refuses them it has put exactly `xs` and signalled as many when it returns; if
      refused it has put and signalled nothing. */
  lemma EnqueueOutcome(r: seq<State>, i: nat, j: nat, t: nat, xs: seq<Item>)
    requires Run(r) && Call(r, i, j, t, Enqueue(xs))
    ensures if RefusedIn(r, i, j, t) then r[j].put[t] == r[i].put[t] && !SignalsIn(r, i, j, t, |xs|)
            else r[j].put[t] == r[i].put[t] + xs && SignalsIn(r, i, j, t, |xs|)
  {
    EnqueuingAt(r, i, j, t, xs, j);
  }

  // ---- Dequeue ------------------------------------------------------------------------

  /** How many elements thread `t` takes in this step. */
  ghost function Gain(s: State, s': State, t: nat): int {
    if t < |s.pcs| == |s'.pcs| && s.pcs[t].Retry? && s'.pcs[t] != s.pcs[t] then s'.delivered - s.delivered else 0
  }

  /** How many elements thread `t` takes from `r[lo]` to `r[hi]`. */
  ghost function Gains(r: seq<State>, t: nat, lo: nat, hi: nat): int
    requires lo <= hi < |r|
  {
    if lo == hi then 0 else Gains(r, t, lo, hi - 1) + Gain(r[hi - 1], r[hi], t)
  }

  /** How far a dequeue of up to `max` elements has come that has taken `gained`; `short` says
      that there was a moment without a permit. */
  ghost predicate Dequeuing(s: State, t: nat, max: nat, kind: Sem.Kind, gained: int, short: bool) {
    && Sized(s) && t < |s.pcs| && gained >= 0
    && var sp := s.sem.pcs[t];
       match s.pcs[t]
       case InWait =>
         && Waiting(sp) && sp.ask.kind == kind && sp.ask.max + sp.ask.got == max && gained == 0
         && (sp.Returned? && sp.ask.max > 0 ==> short)
       case Retry(left) => 0 < left && left + gained <= max && (left + gained < max ==> short)
       case Idle => gained <= max && (gained < max ==> short) && (kind.Forever? && max > 0 ==> gained > 0)
       case _ => false
  }

  lemma DequeueEnters(s: State, s': State, t: nat, max: nat, kind: Sem.Kind)
    requires t < |s.pcs| && s.pcs[t].Idle? && StepBy(s, s', t, Dequeue(max, kind))
    ensures Dequeuing(s', t, max, kind, 0, false)
  {
  }

  lemma WaitStepDequeues(s: State, s': State, t: nat, c: Choice, max: nat, kind: Sem.Kind, short: bool)
    requires Inv(s) && StepBy(s, s', t, c) && s.pcs[t].InWait? && Dequeuing(s, t, max, kind, 0, short)
    ensures Gain(s, s', t) == 0
    ensures Dequeuing(s', t, max, kind, 0, short || s.sem.count <= 0 || s'.sem.count <= 0)
  {
    var sp, sc := s.sem.pcs[t], SemChoice(InWait, c);
    assert Sem.ThreadInv(sp);
    Sem.EndsShortOnlyWhenEmpty(if sp.Returned? then Sem.Idle else sp, s.sem.count, s.sem.kernel, sc);
    if !sp.Returned? {
      Sem.ActKeepsAsk(sp, s.sem.count, s.sem.kernel, sc);
      SemStep(s.sem, t, sc);
    }
  }

  lemma TakeStepDequeues(s: State, s': State, t: nat, c: Choice, max: nat, kind: Sem.Kind, gained: int, short: bool)
    requires StepBy(s, s', t, c) && s.pcs[t].Retry? && Dequeuing(s, t, max, kind, gained, short)
    ensures Dequeuing(s', t, max, kind, gained + Gain(s, s', t), short)
  {
  }

  lemma StepDequeues(r: seq<State>, i: nat, t: nat, max: nat, kind: Sem.Kind, gained: int, short: bool)
    requires Run(r) && 0 < i < |r| && Dequeuing(r[i - 1], t, max, kind, gained, short) && !r[i - 1].pcs[t].Idle?
    ensures Dequeuing(r[i], t, max, kind, gained + Gain(r[i - 1], r[i], t),
                      short || r[i - 1].sem.count <= 0 || r[i].sem.count <= 0)
  {
    var s, s' := r[i - 1], r[i];
    RunInv(r, i - 1);
    assert StepAt(r, i);
    var u: nat, c: Choice :| StepBy(s, s', u, c);
    if u != t {
      OthersLeave(s, s', u, c, t);
    } else if s.pcs[t].InWait? {
      WaitStepDequeues(s, s', t, c, max, kind, short);
    } else {
      TakeStepDequeues(s, s', t, c, max, kind, gained, short);
    }
  }

  /** At some moment after `i`, up to `j`, there is no permit. */
  ghost predicate NonePermitted(r: seq<State>, i: nat, j: nat)
    requires j < |r|
  {
    exists n :: i < n <= j && r[n].sem.count <= 0
  }

  lemma {:induction false} DequeuingAt(r: seq<State>, i: nat, j: nat, t: nat, max: nat, kind: Sem.Kind, m: nat)
    requires Run(r) && Call(r, i, j, t, Dequeue(max, kind)) && i < m <= j
    ensures Dequeuing(r[m], t, max, kind, Gains(r, t, i + 1, m), NonePermitted(r, i, m))
    decreases m
  {
    if m == i + 1 {
      DequeueEnters(r[i], r[m], t, max, kind);
    } else {
      DequeuingAt(r, i, j, t, max, kind, m - 1);
      StepDequeues(r, m, t, max, kind, Gains(r, t, i + 1, m - 1), NonePermitted(r, i, m - 1));
      assert NonePermitted(r, i, m - 1) || r[m - 1].sem.count <= 0 || r[m].sem.count <= 0 ==> NonePermitted(r, i, m);
    }
  }

  /** What a call of dequeue for up to `max` elements takes: never more than `max`, all `max`
      unless there was a moment during the call without a permit, and at least one if it was to
      wait without a timeout for at least one. */
  lemma DequeueOutcome(r: seq<State>, i: nat, j: nat, t: nat, max: nat, kind: Sem.Kind)
    requires Run(r) && Call(r, i, j, t, Dequeue(max, kind))
    ensures 0 <= Gains(r, t, i + 1, j) <= max
    ensures Gains(r, t, i + 1, j) < max ==> NonePermitted(r, i, j)
    ensures kind.Forever? && max > 0 ==> Gains(r, t, i + 1, j) > 0
  {
    DequeuingAt(r, i, j, t, max, kind, j);
  }

  // ---- On its own ---------------------------------------------------------------------

  /** Thread `t` takes a step in which nothing fails and no wait expires. */
  ghost predicate Works(s: State, s': State, t: nat) {
    exists c: Choice :: StepBy(s, s', t, c) && c != Go(true)
  }

  /** Thread `t` running alone, inside a call all the way. */
  ghost predicate Alone(a: seq<State>, t: nat) {
    && a != []
    && (forall i :: 0 < i < |a| ==> Works(a[i - 1], a[i], t))
    && (forall i :: 0 < i < |a| - 1 ==> t < |a[i].pcs| && !a[i].pcs[t].Idle?)
  }

  lemma AloneFirst(s: State, b: seq<State>, t: nat)
    requires Alone(b, t) && Works(s, b[0], t) && t < |b[0].pcs| && (|b| > 1 ==> !b[0].pcs[t].Idle?)
    ensures Alone([s] + b, t)
  {
  }

  lemma {:induction false} PostAll(s: State, t: nat) returns (a: seq<State>)
    requires Sized(s) && t < |s.pcs| && s.pcs[t] == InSignal && s.sem.pcs[t].Posting? && s.sem.pcs[t].left > 0
    ensures Alone(a, t) && a[0] == s
    ensures var s' := a[|a| - 1];
      && s'.pcs == s.pcs[t := Idle] && s'.subs == s.subs && s'.put == s.put && s'.sem.count == s.sem.count
    decreases s.sem.pcs[t].left
  {
    var s1 := Step(s, t, Go(false));
    assert StepBy(s, s1, t, Go(false));
    if s.sem.pcs[t].left > 1 {
      var b := PostAll(s1, t);
      AloneFirst(s, b, t);
      a := [s] + b;
      assert s1.pcs[t := Idle] == s.pcs[t := Idle];
    } else {
      a := [s, s1];
    }
  }

  /** Publishing and signalling, up to the posts that are owed to waiters. */
  lemma PutPath(s: State, t: nat, xs: seq<Item>) returns (a: seq<State>)
    requires Sized(s) && t < |s.pcs| && s.pcs[t].Idle? && s.sem.pcs[t].Idle?
    ensures |a| == 4 && Alone(a, t) && a[0] == s && StepBy(s, a[1], t, Enqueue(xs))
    ensures var s' := a[3];
      && Sized(s') && t < |s'.pcs| && s'.pcs == s.pcs[t := s'.pcs[t]] && s'.subs == s.subs[t := s.subs[t] + xs]
      && s'.sem.count == s.sem.count + |xs|
      && (s'.pcs[t].Idle? || (s'.pcs[t].InSignal? && s'.sem.pcs[t].Posting? && s'.sem.pcs[t].left > 0))
  {
    var s1 := Step(s, t, Enqueue(xs));
    var s2 := Step(s1, t, Go(false));
    var s3 := Step(s2, t, Go(false));
    assert StepBy(s, s1, t, Enqueue(xs)) && StepBy(s1, s2, t, Go(false)) && StepBy(s2, s3, t, Go(false));
    a := [s, s1, s2, s3];
  }

  lemma AloneOn(a: seq<State>, b: seq<State>, t: nat)
    requires Alone(a, t) && Alone(b, t) && a[|a| - 1] == b[0] && t < |b[0].pcs| && !b[0].pcs[t].Idle?
    ensures Alone(a + b[1..], t) && (a + b[1..])[|a + b[1..]| - 1] == b[|b| - 1]
  {
    var d := a + b[1..];
    forall i | 0 < i < |d| ensures Works(d[i - 1], d[i], t) {
      if i >= |a| { assert d[i - 1] == b[i - |a|] && d[i] == b[i - |a| + 1]; }
    }
  }

  /** On its own, with nothing refused, an enqueue adds exactly its elements to its thread's part
      of the queue, at the end, and as many permits. */
  lemma LoneEnqueueAdds(s: State, t: nat, xs: seq<Item>) returns (a: seq<State>)
    requires Sized(s) && t < |s.pcs| && s.pcs[t].Idle? && s.sem.pcs[t].Idle?
    ensures |a| > 1 && Alone(a, t) && a[0] == s && StepBy(s, a[1], t, Enqueue(xs))
    ensures var s' := a[|a| - 1];
      && s'.pcs == s.pcs && s'.subs == s.subs[t := s.subs[t] + xs] && s'.sem.count == s.sem.count + |xs|
  {
    a := PutPath(s, t, xs);
    assert a[3].pcs[t := Idle] == s.pcs;
    if a[3].pcs[t].InSignal? {
      var b := PostAll(a[3], t);
      AloneOn(a, b, t);
      a := a + b[1..];
    }
  }

  lemma TakeOne(s: State, t: nat) returns (q: nat)
    requires Inv(s) && t < |s.pcs| && s.pcs[t].Retry?
    ensures Enabled(s, t, Take(q, 1))
  {
    ElementsAccounted(s);
    TotalUpdate(s.pcs, Lefts(), t, s.pcs[t]);
    assert ThreadInv(s.pcs[t], s.sem.pcs[t]);
    q := TotalWitness(s.subs, Lengths());
  }

  lemma TakeOneGoes(s: State, t: nat, q: nat)
    requires Inv(s) && Enabled(s, t, Take(q, 1)) && s.pcs[t].Retry?
    ensures var s', left := Step(s, t, Take(q, 1)), s.pcs[t].left;
      s'.pcs == s.pcs[t := if left > 1 then Retry(left - 1) else Idle] && s'.delivered == s.delivered + 1
  {
    assert ThreadInv(s.pcs[t], s.sem.pcs[t]);
  }

  /** A consumer that retries alone finds an element for each of its permits. */
  lemma {:induction false} TakeAll(s: State, t: nat) returns (a: seq<State>)
    requires Inv(s) && t < |s.pcs| && s.pcs[t].Retry?
    ensures Alone(a, t) && a[0] == s
    ensures a[|a| - 1].pcs == s.pcs[t := Idle] && a[|a| - 1].delivered == s.delivered + s.pcs[t].left
    decreases s.pcs[t].left
  {
    var q := TakeOne(s, t);
    var s1 := Step(s, t, Take(q, 1));
    assert StepBy(s, s1, t, Take(q, 1));
    TakeOneGoes(s, t, q);
    StepKeepsInv(s, t, Take(q, 1));
    if s.pcs[t].left > 1 {
      var b := TakeAll(s1, t);
      AloneFirst(s, b, t);
      a := [s] + b;
      assert s1.pcs[t := Idle] == s.pcs[t := Idle];
    } else {
      a := [s, s1];
    }
  }

  /** The thread's place in the queue and in the semaphore, and the count. */
  ghost function At(s: State, t: nat, p: Pc, sp: Sem.Pc, count: int): State
    requires Sized(s) && t < |s.pcs|
  {
    s.(pcs := s.pcs[t := p], sem := s.sem.(pcs := s.sem.pcs[t := sp], count := count))
  }

  lemma PermitSteps(s: State, t: nat, ask: Sem.Ask, n: nat)
    requires Sized(s) && t < |s.pcs| && s.sem.count > 0 && n == Min(ask.max, s.sem.count) && ask.got == 0
    ensures var c := s.sem.count;
      && Works(At(s, t, InWait, Sem.TryLoad(ask), c), At(s, t, InWait, Sem.TryCas(ask, c), c), t)
      && Works(At(s, t, InWait, Sem.TryCas(ask, c), c),
               At(s, t, InWait, Sem.Returned(Sem.Ask(ask.max - n, ask.kind, n)), c - n), t)
  {
    var c := s.sem.count;
    var s1, s2 := At(s, t, InWait, Sem.TryLoad(ask), c), At(s, t, InWait, Sem.TryCas(ask, c), c);
    assert StepBy(s1, s2, t, Go(false));
    assert StepBy(s2, At(s, t, InWait, Sem.Returned(Sem.Ask(ask.max - n, ask.kind, n)), c - n), t, Go(false));
  }

  lemma NoPermitStep(s: State, t: nat, ask: Sem.Ask)
    requires Sized(s) && t < |s.pcs| && s.sem.count <= 0 && ask.kind.Try?
    ensures Works(At(s, t, InWait, Sem.TryLoad(ask), s.sem.count), At(s, t, InWait, Sem.Returned(ask), s.sem.count), t)
  {
    var s1 := At(s, t, InWait, Sem.TryLoad(ask), s.sem.count);
    assert StepBy(s1, At(s, t, InWait, Sem.Returned(ask), s.sem.count), t, Go(false));
  }

  /** The semaphore's call returns: with permits the thread goes on to retry. */
  lemma ReturnStep(s: State, t: nat, ask: Sem.Ask, count: int) returns (s': State)
    requires Sized(s) && t < |s.pcs| && ask.kind.Try?
    ensures Works(At(s, t, InWait, Sem.Returned(ask), count), s', t)
    ensures s'.pcs == s.pcs[t := if ask.got > 0 then Retry(ask.got) else Idle] && s'.delivered == s.delivered
  {
    var s1 := At(s, t, InWait, Sem.Returned(ask), count);
    s' := Step(s1, t, Go(false));
    assert StepBy(s1, s', t, Go(false));
    assert s.pcs[t := InWait][t := s'.pcs[t]] == s.pcs[t := s'.pcs[t]];
  }

  /** Taking the permits: as many as there are, up to `max`. */
  lemma PermitPath(s: State, t: nat, max: nat) returns (a: seq<State>)
    requires Sized(s) && t < |s.pcs| && s.pcs[t].Idle? && s.sem.pcs[t].Idle?
    ensures |a| > 1 && Alone(a, t) && a[0] == s && StepBy(s, a[1], t, Dequeue(max, Sem.Try))
    ensures var s', n := a[|a| - 1], Min(max, Max(0, s.sem.count));
      s'.pcs == s.pcs[t := if n > 0 then Retry(n) else Idle] && s'.delivered == s.delivered
  {
    var ask, c := Sem.Ask(max, Sem.Try, 0), s.sem.count;
    var s1 := At(s, t, InWait, Sem.TryLoad(ask), c);
    assert StepBy(s, s1, t, Dequeue(max, Sem.Try));
    if c > 0 {
      var n := Min(max, c);
      PermitSteps(s, t, ask, n);
      var s4 := ReturnStep(s, t, Sem.Ask(max - n, Sem.Try, n), c - n);
      a := [s, s1, At(s, t, InWait, Sem.TryCas(ask, c), c),
            At(s, t, InWait, Sem.Returned(Sem.Ask(max - n, Sem.Try, n)), c - n), s4];
    } else {
      NoPermitStep(s, t, ask);
      var s3 := ReturnStep(s, t, ask, c);
      a := [s, s1, At(s, t, InWait, Sem.Returned(ask), c), s3];
    }
  }

  lemma {:induction false} WorksInv(a: seq<State>, t: nat, i: nat)
    requires Alone(a, t) && Inv(a[0]) && i < |a|
    ensures Inv(a[i])
  {
    if i > 0 {
      WorksInv(a, t, i - 1);
      var c: Choice :| StepBy(a[i - 1], a[i], t, c) && c != Go(true);
      StepKeepsInv(a[i - 1], t, c);
    }
  }

  /** From rest, a thread that tries to dequeue alone takes as many elements as the queue holds,
      up to what it asked for. */
  lemma LoneDequeueTakes(s: State, t: nat, max: nat) returns (a: seq<State>)
    requires Inv(s) && t < |s.pcs| && forall u :: 0 <= u < |s.pcs| ==> s.pcs[u].Idle?
    ensures |a| > 1 && Alone(a, t) && a[0] == s && StepBy(s, a[1], t, Dequeue(max, Sem.Try))
    ensures a[|a| - 1].pcs == s.pcs && a[|a| - 1].delivered == s.delivered + Min(max, Items(s))
  {
    RestCounts(s);
    assert ThreadInv(s.pcs[t], s.sem.pcs[t]);
    a := PermitPath(s, t, max);
    var s1 := a[|a| - 1];
    assert s1.pcs[t := Idle] == s.pcs;
    if s1.pcs[t].Retry? {
      WorksInv(a, t, |a| - 1);
      var b := TakeAll(s1, t);
      AloneOn(a, b, t);
      a := a + b[1..];
    }
  }
}
