/** The claim protocol and the sub-queue running together. A consumer claims indices by the steps
    of the protocol; advancing the head is one step of both; it then moves its elements out by
    the steps of the sub-queue. The producer publishes in both at once. */
module ClaimedQueue {
  import C = ClaimProtocol
  import Q = SubQueue
  import SubQueueRuns

  /** The protocol has one thread more than the sub-queue has consumers: the producer, who is
      always idle there. */
  datatype State = State(claims: C.State, queue: Q.State)

  ghost predicate Sized(s: State) {
    |s.claims.pcs| == |s.queue.pcs| + 1 && s.claims.pcs[|s.queue.pcs|].Idle?
  }

  ghost predicate Init(s: State) {
    Sized(s) && C.Init(s.claims) && SubQueueRuns.Init(s.queue)
  }

  // ---- Steps --------------------------------------------------------------------------

  /** A consumer without indices starts to dequeue, or performs its next operation on the
      counters, short of advancing the head. */
  ghost predicate Asks(s: State, s': State, t: nat, max: nat) {
    && Sized(s) && t < |s.queue.pcs| && s.queue.pcs[t].Away?
    && C.Enabled(s.claims, t, C.Dequeue(max)) && !s.claims.pcs[t].Take?
    && s' == s.(claims := C.Step(s.claims, t, C.Dequeue(max)))
  }

  ghost function Claimed(s: State, t: nat): Q.Choice
    requires t < |s.claims.pcs| && s.claims.pcs[t].Take?
  {
    Q.Claim(s.claims.pcs[t].claim)
  }

  /** A consumer with a claim advances the head, and with that has its indices. */
  ghost predicate Takes(s: State, s': State, t: nat) {
    && Sized(s) && t < |s.queue.pcs| && s.claims.pcs[t].Take?
    && Q.ConsumerEnabled(s.queue, t, Claimed(s, t)) && s.queue.pcs[t].Away?
    && s' == State(C.Step(s.claims, t, C.Dequeue(1)), Q.ConsumerStep(s.queue, t, Claimed(s, t)))
  }

  /** A consumer with indices goes on moving their elements out. */
  ghost predicate Works(s: State, s': State, t: nat) {
    && Sized(s) && t < |s.queue.pcs| && !s.queue.pcs[t].Away? && Q.ConsumerEnabled(s.queue, t, Q.Go)
    && s' == s.(queue := Q.ConsumerStep(s.queue, t, Q.Go))
  }

  ghost predicate Publishing(p: Q.Producer) {
    p.Construct? && p.j >= |p.xs|
  }

  ghost predicate Produces(s: State, s': State, c: Q.Choice) {
    && Sized(s) && Q.ProducerEnabled(s.queue, c)
    && s'.queue == Q.ProducerStep(s.queue, c)
    && s'.claims == if Publishing(s.queue.prod) then C.Step(s.claims, |s.queue.pcs|, C.Publish(|s.queue.prod.xs|))
                    else s.claims
  }

  ghost predicate Others(s: State, s': State, o: Q.Other) {
    Sized(s) && Q.OtherEnabled(s.queue, o) && s' == s.(queue := Q.OtherStep(s.queue, o))
  }

  ghost predicate Next(s: State, s': State) {
    || (exists t: nat, max: nat :: Asks(s, s', t, max))
    || (exists t: nat :: Takes(s, s', t))
    || (exists t: nat :: Works(s, s', t))
    || (exists c: Q.Choice :: Produces(s, s', c))
    || (exists o: Q.Other :: Others(s, s', o))
  }

  // ---- The invariant ------------------------------------------------------------------

  /** Both sides agree on what is published and who claimed it, and a consumer is not at both
      kinds of work at once. */
  ghost predicate Agree(s: State) {
    && Sized(s)
    && s.claims.head == s.queue.head && s.claims.tail == s.queue.tail && s.claims.owner == s.queue.owner
    && forall t :: 0 <= t < |s.queue.pcs| ==> s.claims.pcs[t].Idle? || s.queue.pcs[t].Away?
  }

  ghost predicate Inv(s: State) {
    C.Inv(s.claims) && Q.Inv(s.queue) && Agree(s)
  }

  lemma InitInv(s: State)
    requires Init(s)
    ensures Inv(s)
  {
    C.InitInv(s.claims);
    SubQueueRuns.InitInv(s.queue);
  }

  /** How a step of the protocol by a consumer changes what both sides see. */
  lemma ProtocolStep(a: C.State, t: nat, max: nat)
    requires C.Enabled(a, t, C.Dequeue(max)) && t < |a.pcs|
    ensures var a' := C.Step(a, t, C.Dequeue(max)); var p := a.pcs[t];
      && |a'.pcs| == |a.pcs| && (forall u :: 0 <= u < |a.pcs| && u != t ==> a'.pcs[u] == a.pcs[u])
      && a'.tail == a.tail
      && (!p.Take? ==> a'.head == a.head && a'.owner == a.owner)
      && (p.Take? ==> a'.head == a.head + p.claim && a'.owner == a.owner + seq(p.claim, _ => t) && a'.pcs[t].Idle?)
  {
  }

  lemma AsksAgree(s: State, s': State, t: nat, max: nat)
    requires Agree(s) && Asks(s, s', t, max)
    ensures Agree(s')
  {
    ProtocolStep(s.claims, t, max);
  }

  lemma ConsumerFrame(q: Q.State, t: nat, c: Q.Choice)
    requires Q.ConsumerEnabled(q, t, c)
    ensures var q' := Q.ConsumerStep(q, t, c);
      && |q'.pcs| == |q.pcs| && (forall u :: 0 <= u < |q.pcs| && u != t ==> q'.pcs[u] == q.pcs[u])
      && q'.tail == q.tail
      && (!q.pcs[t].Away? ==> q'.head == q.head && q'.owner == q.owner)
      && (q.pcs[t].Away? ==> q'.head == q.head + c.count && q'.owner == q.owner + seq(c.count, _ => t))
  {
  }

  lemma TakesAgree(s: State, s': State, t: nat)
    requires Agree(s) && Takes(s, s', t)
    ensures Agree(s')
  {
    ProtocolStep(s.claims, t, 1);
    ConsumerFrame(s.queue, t, Claimed(s, t));
  }

  lemma WorksAgree(s: State, s': State, t: nat)
    requires Agree(s) && Works(s, s', t)
    ensures Agree(s')
  {
    ConsumerFrame(s.queue, t, Q.Go);
  }

  lemma ProducerFrame(q: Q.State, c: Q.Choice)
    requires Q.ProducerEnabled(q, c)
    ensures var q' := Q.ProducerStep(q, c);
      && q'.pcs == q.pcs && q'.head == q.head && q'.owner == q.owner
      && q'.tail == q.tail + if Publishing(q.prod) then |q.prod.xs| else 0
  {
  }

  lemma ProducesAgree(s: State, s': State, c: Q.Choice)
    requires Agree(s) && Produces(s, s', c)
    ensures Agree(s')
  {
    ProducerFrame(s.queue, c);
  }

  lemma OthersAgree(s: State, s': State, o: Q.Other)
    requires Agree(s) && Others(s, s', o)
    ensures Agree(s')
  {
  }

  /** Seen from either side, a step of both is a step of that side or none at all. */
  lemma StepProjects(s: State, s': State)
    requires Next(s, s')
    ensures s'.claims == s.claims || C.Next(s.claims, s'.claims)
    ensures s'.queue == s.queue || SubQueueRuns.Next(s.queue, s'.queue)
  {
    if t: nat, max: nat :| Asks(s, s', t, max) {
      assert C.StepBy(s.claims, s'.claims, t, C.Dequeue(max));
    } else if t: nat :| Takes(s, s', t) {
      assert C.StepBy(s.claims, s'.claims, t, C.Dequeue(1));
      assert SubQueueRuns.ConsumerMoves(s.queue, s'.queue, t, Claimed(s, t));
    } else if t: nat :| Works(s, s', t) {
      assert SubQueueRuns.ConsumerMoves(s.queue, s'.queue, t, Q.Go);
    } else if c: Q.Choice :| Produces(s, s', c) {
      assert SubQueueRuns.ProducerMoves(s.queue, s'.queue, c);
      if Publishing(s.queue.prod) {
        assert C.StepBy(s.claims, s'.claims, |s.queue.pcs|, C.Publish(|s.queue.prod.xs|));
      }
    } else {
      var o: Q.Other :| Others(s, s', o);
      assert SubQueueRuns.OthersMove(s.queue, s'.queue, o);
    }
  }

  lemma StepAgrees(s: State, s': State)
    requires Agree(s) && Next(s, s')
    ensures Agree(s')
  {
    if t: nat, max: nat :| Asks(s, s', t, max) {
      AsksAgree(s, s', t, max);
    } else if t: nat :| Takes(s, s', t) {
      TakesAgree(s, s', t);
    } else if t: nat :| Works(s, s', t) {
      WorksAgree(s, s', t);
    } else if c: Q.Choice :| Produces(s, s', c) {
      ProducesAgree(s, s', c);
    } else {
      var o: Q.Other :| Others(s, s', o);
      OthersAgree(s, s', o);
    }
  }

  lemma StepKeepsInv(s: State, s': State)
    requires Inv(s) && Next(s, s')
    ensures Inv(s')
  {
    StepAgrees(s, s');
    StepProjects(s, s');
    if s'.queue != s.queue { SubQueueRuns.StepKeepsInv(s.queue, s'.queue); }
    if s'.claims != s.claims {
      var t: nat, c: C.Call :| C.StepBy(s.claims, s'.claims, t, c);
      C.StepKeepsInv(s.claims, t, c);
    }
  }

  // ---- Runs ---------------------------------------------------------------------------

  ghost predicate StepAt(r: seq<State>, i: nat)
    requires 0 < i < |r|
  {
    Next(r[i - 1], r[i])
  }

  ghost predicate Run(r: seq<State>) {
    && r != [] && Init(r[0])
    && forall i :: 0 < i < |r| ==> StepAt(r, i)
  }

  lemma {:induction false} RunInv(r: seq<State>, i: nat)
    requires Run(r) && i < |r|
    ensures Inv(r[i])
  {
    if i == 0 {
      InitInv(r[0]);
    } else {
      RunInv(r, i - 1);
      StepAtKeepsInv(r, i);
    }
  }

  lemma StepAtKeepsInv(r: seq<State>, i: nat)
    requires 0 < i < |r| && StepAt(r, i) && Inv(r[i - 1])
    ensures Inv(r[i])
  {
    StepKeepsInv(r[i - 1], r[i]);
  }

  /** In every run of both together, heads, tails and claimers agree, and a consumer that the
      protocol lets advance the head can always take its indices from the sub-queue. */
  lemma ClaimIsServed(r: seq<State>, i: nat, t: nat)
    requires Run(r) && i < |r| && t < |r[i].queue.pcs| && t < |r[i].claims.pcs| && r[i].claims.pcs[t].Take?
    ensures Agree(r[i])
    ensures r[i].queue.pcs[t].Away? && Q.ConsumerEnabled(r[i].queue, t, Claimed(r[i], t))
    ensures exists s': State :: Takes(r[i], s', t)
  {
    var s := r[i];
    RunInv(r, i);
    assert C.ThreadInv(s.claims, t);
    C.StepClaims(s.claims, t, C.Dequeue(1));
    var s' := State(C.Step(s.claims, t, C.Dequeue(1)), Q.ConsumerStep(s.queue, t, Claimed(s, t)));
    assert Takes(s, s', t);
  }

  /** A consumer that has indices can always go on with them. */
  lemma WorkGoesOn(r: seq<State>, i: nat, t: nat)
    requires Run(r) && i < |r| && t < |r[i].queue.pcs| && !r[i].queue.pcs[t].Away?
    ensures exists s': State :: Works(r[i], s', t)
  {
    var s := r[i];
    RunInv(r, i);
    SubQueueRuns.ConsumerGoesOn(s.queue, t);
    var s' := s.(queue := Q.ConsumerStep(s.queue, t, Q.Go));
    assert Works(s, s', t);
  }
}
