/** Adding up a weight over the threads of a system, one program counter per thread. */
module Tally {

  ghost function Total<P>(ps: seq<P>, w: P -> nat): nat
  {
    if ps == [] then 0 else Total(ps[..|ps| - 1], w) + w(ps[|ps| - 1])
  }

  /** Moving one thread changes the total by that thread's old and new weight. */
  lemma {:induction false} TotalUpdate<P>(ps: seq<P>, w: P -> nat, t: nat, p: P)
    requires t < |ps|
    ensures Total(ps[t := p], w) == Total(ps, w) - w(ps[t]) + w(p)
    ensures w(ps[t]) <= Total(ps, w)
  {
    var last := |ps| - 1;
    if t == last {
      assert ps[t := p][..last] == ps[..last];
    } else {
      assert ps[t := p][..last] == ps[..last][t := p];
      TotalUpdate(ps[..last], w, t, p);
    }
  }

  /** Weights of at most `c` add up to at most `c` per thread. */
  lemma {:induction false} TotalBound<P>(ps: seq<P>, w: P -> nat, c: nat)
    requires forall t :: 0 <= t < |ps| ==> w(ps[t]) <= c
    ensures Total(ps, w) <= c * |ps|
  {
    if ps != [] {
      TotalBound(ps[..|ps| - 1], w, c);
    }
  }

  /** A positive total has a thread that contributes to it. */
  lemma {:induction false} TotalWitness<P>(ps: seq<P>, w: P -> nat) returns (t: nat)
    requires Total(ps, w) > 0
    ensures t < |ps| && w(ps[t]) > 0
  {
    t := |ps| - 1;
    if w(ps[t]) == 0 {
      t := TotalWitness(ps[..|ps| - 1], w);
    }
  }

  /** Two threads that both contribute push the total to at least the sum of their weights. */
  lemma TotalTwo<P>(ps: seq<P>, w: P -> nat, t: nat, u: nat)
    requires t < |ps| && u < |ps| && t != u
    ensures w(ps[t]) + w(ps[u]) <= Total(ps, w)
  {
    var last := |ps| - 1;
    if t == last {
      TotalUpdate(ps[..last], w, u, ps[u]);
    } else if u == last {
      TotalUpdate(ps[..last], w, t, ps[t]);
    } else {
      TotalTwo(ps[..last], w, t, u);
    }
  }

  /** If every thread weighs nothing, so does the system. */
  lemma {:induction false} TotalNone<P>(ps: seq<P>, w: P -> nat)
    requires forall t :: 0 <= t < |ps| ==> w(ps[t]) == 0
    ensures Total(ps, w) == 0
  {
    if ps != [] {
      TotalNone(ps[..|ps| - 1], w);
    }
  }

  /** If only one thread weighs anything, the total is its weight. */
  lemma {:induction false} TotalOnly<P>(ps: seq<P>, w: P -> nat, t: nat)
    requires t < |ps|
    requires forall u :: 0 <= u < |ps| && u != t ==> w(ps[u]) == 0
    ensures Total(ps, w) == w(ps[t])
  {
    var last := |ps| - 1;
    if t == last {
      TotalNone(ps[..last], w);
    } else {
      TotalOnly(ps[..last], w, t);
    }
  }

  /** Weights of at most one, with one thread that weighs nothing, stay below the thread count. */
  lemma {:induction false} TotalBelow<P>(ps: seq<P>, w: P -> nat, t: nat)
    requires t < |ps| && w(ps[t]) == 0
    requires forall u :: 0 <= u < |ps| ==> w(ps[u]) <= 1
    ensures Total(ps, w) <= |ps| - 1
  {
    var last := |ps| - 1;
    if t == last {
      TotalBound(ps[..last], w, 1);
    } else {
      TotalBelow(ps[..last], w, t);
    }
  }

  /** A weight that is nowhere larger has no larger total. */
  lemma {:induction false} TotalOrdered<P>(ps: seq<P>, v: P -> nat, w: P -> nat)
    requires forall t :: 0 <= t < |ps| ==> v(ps[t]) <= w(ps[t])
    ensures Total(ps, v) <= Total(ps, w)
  {
    if ps != [] {
      TotalOrdered(ps[..|ps| - 1], v, w);
    }
  }
}
