/** What a dequeue leaves behind, whatever the other consumers do: only what they have in hand. */
module ClaimCalls {
  import opened Basics
  import opened Tally
  import opened ClaimProtocol

  /** Thread `t` asks for up to `max` at `i` and is back at `j`. */
  ghost predicate DequeueCall(r: seq<State>, i: nat, j: nat, t: nat, max: nat) {
    && i + 1 < j < |r|
    && (forall m :: i <= m <= j ==> t < |r[m].pcs|)
    && r[i].pcs[t].Idle? && StepBy(r[i], r[i + 1], t, Dequeue(max)) && r[j].pcs[t].Idle?
    && (forall m :: i < m < j ==> !r[m].pcs[t].Idle?)
  }

  /** What reservations hold that are not settled yet. */
  ghost function InFlight(s: State): nat {
    Total(s.pcs, ToTake()) + Total(s.pcs, ToGiveBack()) + Total(s.pcs, Undecideds())
  }

  /** With `n` claimed, at moment `d` of the call everything that was published when it began was
      claimed, in another consumer's hands, or given back by one since. */
  ghost predicate AllSpoken(r: seq<State>, i: nat, d: nat, n: nat)
    requires i < |r| && d < |r|
  {
    r[i].tail <= n + r[d].head + InFlight(r[d]) + (r[d].overcommit - r[i].overcommit)
  }

  /** The same in terms of the shared words. */
  ghost predicate Exhausted(r: seq<State>, i: nat, d: nat, n: nat)
    requires i < |r| && d < |r|
  {
    r[i].tail <= n + r[d].optimistic - r[i].overcommit
  }

  ghost predicate ExhaustedBy(r: seq<State>, i: nat, m: nat, n: nat)
    requires i < |r| && m <= |r|
  {
    exists d :: i < d < m && Exhausted(r, i, d, n)
  }

  ghost predicate Loaded(r: seq<State>, i: nat, m: nat, count: nat)
    requires m <= |r|
  {
    exists d :: i < d < m && r[d].optimistic == count
  }

  /** How far a dequeue has come. */
  ghost predicate Asking(r: seq<State>, i: nat, m: nat, t: nat, max: nat)
    requires i < m < |r| && t < |r[m].pcs|
  {
    var over := r[i].overcommit;
    && r[i].tail <= r[m].tail && over <= r[m].overcommit
    && match r[m].pcs[t]
       case Idle => true
       case LoadOvercommit(want, tail) => want == max && tail == r[i].tail
       case LoadOptimistic(want, tail, seen) => want == max && tail == r[i].tail && over <= seen
       case Reserve(want, seen) => want <= max && over <= seen && (want < max ==> ExhaustedBy(r, i, m, want))
       case Recheck(want, seen, count, _) =>
         && want <= max && over <= seen && (want < max ==> ExhaustedBy(r, i, m, want))
         && Loaded(r, i, m, count)
       case GiveBack(extra, claim, _) => extra + claim <= max && ExhaustedBy(r, i, m, claim)
       case Take(claim) => claim <= max && (claim < max ==> ExhaustedBy(r, i, m, claim))
  }

  lemma AskEnters(r: seq<State>, i: nat, t: nat, max: nat)
    requires i + 1 < |r| && t < |r[i].pcs| && t < |r[i + 1].pcs| && r[i].pcs[t].Idle?
    requires StepBy(r[i], r[i + 1], t, Dequeue(max))
    ensures Asking(r, i, i + 1, t, max)
  {
  }

  lemma WordsGrow(s: State, s': State, u: nat, c: Call)
    requires StepBy(s, s', u, c)
    ensures s.tail <= s'.tail && s.overcommit <= s'.overcommit
    ensures |s'.pcs| == |s.pcs| && forall t :: 0 <= t < |s.pcs| && t != u ==> s'.pcs[t] == s.pcs[t]
  {
  }

  lemma More(r: seq<State>, i: nat, m: nat, n: nat)
    requires i < m < |r|
    ensures ExhaustedBy(r, i, m, n) ==> ExhaustedBy(r, i, m + 1, n)
    ensures Loaded(r, i, m, n) ==> Loaded(r, i, m + 1, n)
    ensures Exhausted(r, i, m, n) ==> ExhaustedBy(r, i, m + 1, n)
  {
  }

  /** What thread `t` claims in this step. */
  ghost function Got(s: State, s': State, t: nat): int {
    if t < |s.pcs| && s.pcs[t].Take? then s'.head - s.head else 0
  }

  /** A step of its own takes a dequeue on, or ends it with what it got. */
  ghost predicate Proceeds(r: seq<State>, i: nat, m: nat, t: nat, max: nat)
    requires i < m && m + 1 < |r| && t < |r[m + 1].pcs|
  {
    && Asking(r, i, m + 1, t, max)
    && (r[m + 1].pcs[t].Idle? ==>
          var n := Got(r[m], r[m + 1], t);
          0 <= n <= max && (n < max ==> ExhaustedBy(r, i, m + 1, n)))
  }

  lemma LoadProceeds(r: seq<State>, i: nat, m: nat, t: nat, c: Call, max: nat)
    requires i < m && m + 1 < |r| && StepBy(r[m], r[m + 1], t, c) && t < |r[m + 1].pcs| && Asking(r, i, m, t, max)
    requires r[m].pcs[t].LoadOvercommit? || r[m].pcs[t].LoadOptimistic?
    ensures Proceeds(r, i, m, t, max)
  {
    var p := r[m].pcs[t];
    if p.LoadOptimistic? {
      var desired := p.tail - (r[m].optimistic - p.seen);
      var n := if desired > 0 then Min(desired, max) else 0;
      assert n < max ==> Exhausted(r, i, m, n);
      More(r, i, m, n);
    }
  }

  lemma ReserveProceeds(r: seq<State>, i: nat, m: nat, t: nat, c: Call, max: nat)
    requires i < m && m + 1 < |r| && StepBy(r[m], r[m + 1], t, c) && t < |r[m + 1].pcs| && Asking(r, i, m, t, max)
    requires r[m].pcs[t].Reserve?
    ensures Proceeds(r, i, m, t, max)
  {
    More(r, i, m, r[m].pcs[t].want);
    assert Loaded(r, i, m + 1, r[m].optimistic);
  }

  lemma RecheckProceeds(r: seq<State>, i: nat, m: nat, t: nat, c: Call, max: nat)
    requires i < m && m + 1 < |r| && StepBy(r[m], r[m + 1], t, c) && t < |r[m + 1].pcs| && Asking(r, i, m, t, max)
    requires r[m].pcs[t].Recheck?
    ensures Proceeds(r, i, m, t, max)
  {
    var p := r[m].pcs[t];
    var d :| i < d < m && r[d].optimistic == p.count;
    var available := r[m].tail - (p.count - p.seen);
    var claim := if available > 0 then Min(p.want, available) else 0;
    assert claim < p.want ==> Exhausted(r, i, d, claim);
    assert claim < p.want ==> ExhaustedBy(r, i, m, claim);
    More(r, i, m, claim);
  }

  lemma EndProceeds(r: seq<State>, i: nat, m: nat, t: nat, c: Call, max: nat)
    requires i < m && m + 1 < |r| && StepBy(r[m], r[m + 1], t, c) && t < |r[m + 1].pcs| && Asking(r, i, m, t, max)
    requires r[m].pcs[t].GiveBack? || r[m].pcs[t].Take?
    ensures Proceeds(r, i, m, t, max)
  {
    More(r, i, m, r[m].pcs[t].claim);
  }

  lemma OthersLeaveAsking(r: seq<State>, i: nat, m: nat, t: nat, u: nat, c: Call, max: nat)
    requires i < m && m + 1 < |r| && StepBy(r[m], r[m + 1], u, c) && u != t
    requires t < |r[m].pcs| && Asking(r, i, m, t, max)
    ensures t < |r[m + 1].pcs| && r[m + 1].pcs[t] == r[m].pcs[t] && Asking(r, i, m + 1, t, max)
  {
    WordsGrow(r[m], r[m + 1], u, c);
    match r[m].pcs[t] {
      case Reserve(want, _) => More(r, i, m, want);
      case Recheck(want, _, count, _) =>
        More(r, i, m, want);
        More(r, i, m, count);
      case GiveBack(_, claim, _) => More(r, i, m, claim);
      case Take(claim) => More(r, i, m, claim);
      case _ =>
    }
  }

  lemma AskingStep(r: seq<State>, i: nat, m: nat, t: nat, max: nat)
    requires Run(r) && i < m && m + 1 < |r| && t < |r[m].pcs| && !r[m].pcs[t].Idle? && Asking(r, i, m, t, max)
    ensures t < |r[m + 1].pcs| && Proceeds(r, i, m, t, max)
  {
    assert StepAt(r, m + 1);
    var u: nat, c: Call :| StepBy(r[m], r[m + 1], u, c);
    if u != t {
      OthersLeaveAsking(r, i, m, t, u, c, max);
    } else {
      WordsGrow(r[m], r[m + 1], u, c);
      match r[m].pcs[t] {
        case LoadOvercommit(_, _) => LoadProceeds(r, i, m, t, c, max);
        case LoadOptimistic(_, _, _) => LoadProceeds(r, i, m, t, c, max);
        case Reserve(_, _) => ReserveProceeds(r, i, m, t, c, max);
        case Recheck(_, _, _, _) => RecheckProceeds(r, i, m, t, c, max);
        case _ => EndProceeds(r, i, m, t, c, max);
      }
    }
  }

  lemma {:induction false} AskingAt(r: seq<State>, i: nat, j: nat, t: nat, max: nat, m: nat)
    requires Run(r) && DequeueCall(r, i, j, t, max) && i < m < j
    ensures Asking(r, i, m, t, max)
    decreases m
  {
    if m == i + 1 {
      AskEnters(r, i, t, max);
    } else {
      AskingAt(r, i, j, t, max, m - 1);
      AskingStep(r, i, m - 1, t, max);
    }
  }

  lemma ExhaustedIsSpoken(r: seq<State>, i: nat, d: nat, n: nat)
    requires Run(r) && i < |r| && d < |r| && Exhausted(r, i, d, n)
    ensures AllSpoken(r, i, d, n)
  {
    OptimisticCountBalances(r, d);
  }

  /** A dequeue claims no more than it asks for, and fewer only if at some moment of the call all
      that was published before it began was claimed, reserved by a consumer that had not
      settled yet, or given back by one during the call. */
  lemma ShortOnlyIfAllSpoken(r: seq<State>, i: nat, j: nat, t: nat, max: nat) returns (n: nat, d: nat)
    requires Run(r) && DequeueCall(r, i, j, t, max)
    ensures n == Got(r[j - 1], r[j], t) <= max
    ensures n < max ==> i < d < j && AllSpoken(r, i, d, n)
  {
    AskingAt(r, i, j, t, max, j - 1);
    AskingStep(r, i, j - 1, t, max);
    n, d := Got(r[j - 1], r[j], t), i;
    if n < max {
      d :| i < d < j && Exhausted(r, i, d, n);
      ExhaustedIsSpoken(r, i, d, n);
    }
  }
}
