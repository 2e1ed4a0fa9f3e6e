/** The reference-counted lock-free free list of blocks. Every atomic operation of `add`,
    `try_get` and `add_knowing_refcount_is_zero` is one step of one thread; steps of
    different threads interleave freely. */
module FreeList {
  import opened Tally

  /** Identity of a node: its position in allocation order. */
  type Node = nat

  datatype Link = Null | Ptr(node: Node)

  const SHOULD_BE_ON_FREELIST: nat := 0x8000_0000

  /** What follows a push: `add` returns, `try_get` goes on with the head it last saw. */
  datatype After = Return | Resume(head: Link)

  /** Program counters, each naming the atomic operation the thread performs next. */
  datatype Pc =
    | Idle
    | AddFlag(node: Node)
    | PushLoad(node: Node, ret: After)
    | PushNext(node: Node, head: Link, ret: After)
    | PushRefs(node: Node, head: Link, ret: After)
    | PushCas(node: Node, head: Link, ret: After)
    | PushUndo(node: Node, head: Link, ret: After)
    | GetLoad
    | GetTest(head: Link)
    | GetRef(node: Node, refs: nat)
    | GetNext(node: Node)
    | GetCas(node: Node, next: Link)
    | GetTake(node: Node)
    | GetDrop(node: Node, head: Link)

  /** `head`, `refs` and `next` are the shared words. `owned` is what the clients hold, and
      `chain` is a history variable: the nodes of the list from the head on. */
  datatype State = State(
    head: Link,
    refs: seq<nat>,
    next: seq<Link>,
    pcs: seq<Pc>,
    owned: set<Node>,
    chain: seq<Node>)

  /** What an idle thread may call. */
  datatype Call = Add(node: Node) | TryGet | Allocate

  ghost predicate Init(s: State) {
    && s == State(Null, [], [], s.pcs, {}, [])
    && (forall t :: 0 <= t < |s.pcs| ==> s.pcs[t] == Idle)
    && |s.pcs| + 2 < SHOULD_BE_ON_FREELIST
  }

  ghost predicate Enabled(s: State, t: nat, c: Call) {
    && t < |s.pcs|
    && |s.next| == |s.refs|
    && InRange(s.pcs[t], |s.refs|)
    && (s.pcs[t].Idle? && c.Add? ==> c.node in s.owned)
  }

  ghost predicate LinkInRange(l: Link, n: nat) {
    l.Ptr? ==> l.node < n
  }

  ghost predicate InRange(p: Pc, n: nat) {
    match p
    case Idle => true
    case GetLoad => true
    case GetTest(h) => LinkInRange(h, n)
    case AddFlag(x) => x < n
    case PushLoad(x, ret) => x < n && (ret.Resume? ==> LinkInRange(ret.head, n))
    case PushNext(x, h, ret) => x < n && LinkInRange(h, n) && (ret.Resume? ==> LinkInRange(ret.head, n))
    case PushRefs(x, h, ret) => x < n && LinkInRange(h, n) && (ret.Resume? ==> LinkInRange(ret.head, n))
    case PushCas(x, h, ret) => x < n && LinkInRange(h, n) && (ret.Resume? ==> LinkInRange(ret.head, n))
    case PushUndo(x, h, ret) => x < n && LinkInRange(h, n) && (ret.Resume? ==> LinkInRange(ret.head, n))
    case GetRef(x, _) => x < n
    case GetNext(x) => x < n
    case GetCas(x, nx) => x < n && LinkInRange(nx, n)
    case GetTake(x) => x < n
    case GetDrop(x, h) => x < n && LinkInRange(h, n)
  }

  ghost function Continue(ret: After): Pc {
    if ret.Return? then Idle else GetTest(ret.head)
  }

  ghost function Goto(s: State, t: nat, p: Pc): State
    requires t < |s.pcs|
  {
    s.(pcs := s.pcs[t := p])
  }

  /** 32-bit addition and subtraction, as the hardware does them. */
  function Add32(x: nat, y: nat): nat {
    (x + y) % 0x1_0000_0000
  }

  function Sub32(x: nat, y: nat): nat {
    (x - y) % 0x1_0000_0000
  }

  ghost function Rest(q: seq<Node>): seq<Node> {
    if q == [] then [] else q[1..]
  }

  /** One atomic operation of thread `t`. */
  ghost function Step(s: State, t: nat, c: Call): State
    requires Enabled(s, t, c)
  {
    match s.pcs[t]
    case Idle => (
      match c
      case Add(n) => Goto(s, t, AddFlag(n)).(owned := s.owned - {n})
      case TryGet => Goto(s, t, GetLoad)
      case Allocate =>
        s.(refs := s.refs + [0], next := s.next + [Null], owned := s.owned + {|s.refs|})
      )
    case AddFlag(n) =>
      var s1 := s.(refs := s.refs[n := Add32(s.refs[n], SHOULD_BE_ON_FREELIST)]);
      Goto(s1, t, if s.refs[n] == 0 then PushLoad(n, Return) else Idle)
    case PushLoad(n, ret) => Goto(s, t, PushNext(n, s.head, ret))
    case PushNext(n, h, ret) => Goto(s.(next := s.next[n := h]), t, PushRefs(n, h, ret))
    case PushRefs(n, h, ret) => Goto(s.(refs := s.refs[n := 1]), t, PushCas(n, h, ret))
    case PushCas(n, h, ret) =>
      if s.head == h
      then Goto(s.(head := Ptr(n), chain := [n] + s.chain), t, Continue(ret))
      else Goto(s, t, PushUndo(n, s.head, ret))
    case PushUndo(n, h, ret) =>
      var s1 := s.(refs := s.refs[n := Add32(s.refs[n], SHOULD_BE_ON_FREELIST - 1)]);
      Goto(s1, t, if s.refs[n] == 1 then PushNext(n, h, ret) else Continue(ret))
    case GetLoad => Goto(s, t, GetTest(s.head))
    case GetTest(h) =>
      if h.Null? then Goto(s, t, Idle)
      else if s.refs[h.node] % SHOULD_BE_ON_FREELIST == 0 then Goto(s, t, GetLoad)
      else Goto(s, t, GetRef(h.node, s.refs[h.node]))
    case GetRef(n, r) =>
      if s.refs[n] == r
      then Goto(s.(refs := s.refs[n := Add32(r, 1)]), t, GetNext(n))
      else Goto(s, t, GetLoad)
    case GetNext(n) => Goto(s, t, GetCas(n, s.next[n]))
    case GetCas(n, nx) =>
      if s.head == Ptr(n)
      then Goto(s.(head := nx, chain := Rest(s.chain)), t, GetTake(n))
      else Goto(s, t, GetDrop(n, s.head))
    case GetTake(n) =>
      Goto(s.(refs := s.refs[n := Sub32(s.refs[n], 2)], owned := s.owned + {n}), t, Idle)
    case GetDrop(n, h) =>
      var s1 := s.(refs := s.refs[n := Sub32(s.refs[n], 1)]);
      Goto(s1, t, if s.refs[n] == SHOULD_BE_ON_FREELIST + 1 then PushLoad(n, Resume(h)) else GetTest(h))
  }

  // ---- Who has a node -----------------------------------------------------------------

  ghost function One(b: bool): nat { if b then 1 else 0 }

  /** Where a node is, counted: the clients, the list, the threads, and its reference word. */
  datatype Counts = Counts(own: nat, listed: nat, adds: nat, early: nat, late: nat, takes: nat, holds: nat)
  {
    /** How many hands the node is in. */
    ghost function Places(): nat { own + listed + adds + early + late + takes }

    /** Nobody has the node: its flag is up and a reference holder still has to push it. */
    ghost predicate Flagged() { Places() == 0 }

    /** What the reference word must read. */
    ghost function Word(): nat {
      holds + listed + late + takes + (if Flagged() || early == 1 then SHOULD_BE_ON_FREELIST else 0)
    }

    ghost predicate Valid() {
      && Places() <= 1
      && (early == 1 ==> holds == 0)
      && (Flagged() ==> holds >= 1)
    }
  }

  const NOTHING := Counts(0, 0, 0, 0, 0, 0, 0)

  /** What one thread contributes to the counts of node `n`: entering `add` with it, pushing it
      before or after giving it the list's reference, having taken it off the list, or merely
      counting in its reference word. */
  ghost function Share(p: Pc, n: Node): Counts {
    match p
    case AddFlag(x) => if x == n then NOTHING.(adds := 1) else NOTHING
    case PushLoad(x, _) => if x == n then NOTHING.(early := 1) else NOTHING
    case PushNext(x, _, _) => if x == n then NOTHING.(early := 1) else NOTHING
    case PushRefs(x, _, _) => if x == n then NOTHING.(early := 1) else NOTHING
    case PushCas(x, _, _) => if x == n then NOTHING.(late := 1) else NOTHING
    case PushUndo(x, _, _) => if x == n then NOTHING.(late := 1) else NOTHING
    case GetNext(x) => if x == n then NOTHING.(holds := 1) else NOTHING
    case GetCas(x, _) => if x == n then NOTHING.(holds := 1) else NOTHING
    case GetDrop(x, _) => if x == n then NOTHING.(holds := 1) else NOTHING
    case GetTake(x) => if x == n then NOTHING.(holds := 1, takes := 1) else NOTHING
    case _ => NOTHING
  }

  ghost function Adds(n: Node): Pc -> nat { (p: Pc) => Share(p, n).adds }
  ghost function Early(n: Node): Pc -> nat { (p: Pc) => Share(p, n).early }
  ghost function Late(n: Node): Pc -> nat { (p: Pc) => Share(p, n).late }
  ghost function Takes(n: Node): Pc -> nat { (p: Pc) => Share(p, n).takes }
  ghost function Holds(n: Node): Pc -> nat { (p: Pc) => Share(p, n).holds }

  ghost function CountsOf(s: State, n: Node): Counts {
    Counts(One(n in s.owned), One(n in s.chain), Total(s.pcs, Adds(n)), Total(s.pcs, Early(n)),
           Total(s.pcs, Late(n)), Total(s.pcs, Takes(n)), Total(s.pcs, Holds(n)))
  }

  ghost predicate NodeInv(s: State, n: Node)
    requires n < |s.refs|
  {
    CountsOf(s, n).Valid() && s.refs[n] == CountsOf(s, n).Word()
  }

  ghost predicate ThreadInv(s: State, p: Pc)
    requires |s.next| == |s.refs|
  {
    && InRange(p, |s.refs|)
    && (p.GetRef? ==> p.refs % SHOULD_BE_ON_FREELIST != 0)
    && (p.GetCas? ==> p.next == s.next[p.node])
    && (p.PushRefs? || p.PushCas? ==> s.next[p.node] == p.head)
  }

  /** The list reached from position `i` of the chain on. */
  ghost function LinkTo(chain: seq<Node>, i: nat): Link {
    if i < |chain| then Ptr(chain[i]) else Null
  }

  ghost predicate LinkAt(next: seq<Link>, chain: seq<Node>, i: nat)
    requires i < |chain|
  {
    chain[i] < |next| && next[chain[i]] == LinkTo(chain, i + 1)
  }

  /** A walk from `head` through `next` visits exactly `chain`. */
  ghost predicate Linked(head: Link, next: seq<Link>, chain: seq<Node>) {
    && head == LinkTo(chain, 0)
    && forall i :: 0 <= i < |chain| ==> LinkAt(next, chain, i)
  }

  ghost predicate Distinct(q: seq<Node>) {
    forall i, j :: 0 <= i < j < |q| ==> q[i] != q[j]
  }

  ghost predicate Inv(s: State) {
    && |s.next| == |s.refs|
    && |s.pcs| + 2 < SHOULD_BE_ON_FREELIST
    && (forall n :: n in s.owned ==> n < |s.refs|)
    && (forall n :: 0 <= n < |s.next| ==> LinkInRange(s.next[n], |s.refs|))
    && Linked(s.head, s.next, s.chain)
    && Distinct(s.chain)
    && (forall t :: 0 <= t < |s.pcs| ==> ThreadInv(s, s.pcs[t]))
    && (forall n :: 0 <= n < |s.refs| ==> NodeInv(s, n))
  }

  // ---- Proof --------------------------------------------------------------------------

  /** A node's counts after one thread went from share `a` to share `b`. */
  ghost predicate Moves(c: Counts, a: Counts, b: Counts, c': Counts) {
    && c.adds >= a.adds && c'.adds == c.adds - a.adds + b.adds
    && c.early >= a.early && c'.early == c.early - a.early + b.early
    && c.late >= a.late && c'.late == c.late - a.late + b.late
    && c.takes >= a.takes && c'.takes == c.takes - a.takes + b.takes
    && c.holds >= a.holds && c'.holds == c.holds - a.holds + b.holds
  }

  lemma CountsMove(s: State, s': State, t: nat, n: Node)
    requires t < |s.pcs| == |s'.pcs| && s'.pcs == s.pcs[t := s'.pcs[t]]
    ensures Moves(CountsOf(s, n), Share(s.pcs[t], n), Share(s'.pcs[t], n), CountsOf(s', n))
    ensures CountsOf(s, n).holds <= |s.pcs|
  {
    TotalUpdate(s.pcs, Holds(n), t, s'.pcs[t]);
    TotalUpdate(s.pcs, Early(n), t, s'.pcs[t]);
    TotalUpdate(s.pcs, Late(n), t, s'.pcs[t]);
    TotalUpdate(s.pcs, Takes(n), t, s'.pcs[t]);
    TotalUpdate(s.pcs, Adds(n), t, s'.pcs[t]);
    TotalBound(s.pcs, Holds(n), 1);
  }

  /** All that one step needs to know to keep one node's counts. */
  ghost predicate Local(s: State, t: nat, call: Call, n: Node, c: Counts, c': Counts) {
    && Enabled(s, t, call)
    && n < |s.refs|
    && c.holds <= |s.pcs| && |s.pcs| + 2 < SHOULD_BE_ON_FREELIST
    && ThreadInv(s, s.pcs[t])
    && c.Valid() && s.refs[n] == c.Word()
    && Moves(c, Share(s.pcs[t], n), Share(Step(s, t, call).pcs[t], n), c')
    && c.own == One(n in s.owned) && c.listed == One(n in s.chain)
    && c'.own == One(n in Step(s, t, call).owned) && c'.listed == One(n in Step(s, t, call).chain)
  }

  lemma PushKeepsNode(s: State, t: nat, call: Call, n: Node, c: Counts, c': Counts)
    requires Local(s, t, call, n, c, c')
    requires s.pcs[t].PushLoad? || s.pcs[t].PushNext? || s.pcs[t].PushRefs?
    ensures c'.Valid() && Step(s, t, call).refs[n] == c'.Word()
  {
  }

  lemma PushCasKeepsNode(s: State, t: nat, call: Call, n: Node, c: Counts, c': Counts)
    requires Local(s, t, call, n, c, c')
    requires s.pcs[t].PushCas?
    ensures c'.Valid() && Step(s, t, call).refs[n] == c'.Word()
  {
  }

  lemma PushUndoKeepsNode(s: State, t: nat, call: Call, n: Node, c: Counts, c': Counts)
    requires Local(s, t, call, n, c, c')
    requires s.pcs[t].PushUndo?
    ensures c'.Valid() && Step(s, t, call).refs[n] == c'.Word()
  {
  }

  lemma GetLoadKeepsNode(s: State, t: nat, call: Call, n: Node, c: Counts, c': Counts)
    requires Local(s, t, call, n, c, c')
    requires s.pcs[t].GetLoad? || s.pcs[t].GetTest?
    ensures c'.Valid() && Step(s, t, call).refs[n] == c'.Word()
  {
  }

  lemma GetNextKeepsNode(s: State, t: nat, call: Call, n: Node, c: Counts, c': Counts)
    requires Local(s, t, call, n, c, c')
    requires s.pcs[t].GetNext?
    ensures c'.Valid() && Step(s, t, call).refs[n] == c'.Word()
  {
  }

  /** A word whose count part is not zero may be counted up. */
  lemma CountedUp(c: Counts, c': Counts)
    requires c.Valid() && c.holds + 2 < SHOULD_BE_ON_FREELIST && c.Word() % SHOULD_BE_ON_FREELIST != 0
    requires c' == c.(holds := c.holds + 1)
    ensures c'.Valid() && c'.Word() == Add32(c.Word(), 1)
  {
  }

  lemma GetRefKeepsNode(s: State, t: nat, call: Call, n: Node, c: Counts, c': Counts)
    requires Local(s, t, call, n, c, c')
    requires s.pcs[t].GetRef?
    ensures c'.Valid() && Step(s, t, call).refs[n] == c'.Word()
  {
    if s.pcs[t].node == n && s.refs[n] == s.pcs[t].refs {
      CountedUp(c, c');
    } else {
      assert c' == c;
    }
  }

  lemma GetCasKeepsNode(s: State, t: nat, call: Call, n: Node, c: Counts, c': Counts)
    requires Local(s, t, call, n, c, c') && Linked(s.head, s.next, s.chain) && Distinct(s.chain)
    requires s.pcs[t].GetCas?
    ensures c'.Valid() && Step(s, t, call).refs[n] == c'.Word()
  {
  }

  lemma GetTakeKeepsNode(s: State, t: nat, call: Call, n: Node, c: Counts, c': Counts)
    requires Local(s, t, call, n, c, c')
    requires s.pcs[t].GetTake?
    ensures c'.Valid() && Step(s, t, call).refs[n] == c'.Word()
  {
  }

  /** Counting down a word: the last holder of a flagged node becomes its pusher. */
  lemma CountedDown(c: Counts, c': Counts)
    requires c.Valid() && 1 <= c.holds && c.holds + 2 < SHOULD_BE_ON_FREELIST
    requires if c.Word() == SHOULD_BE_ON_FREELIST + 1 then c' == c.(holds := c.holds - 1, early := c.early + 1)
             else c' == c.(holds := c.holds - 1)
    ensures c'.Valid() && c'.Word() == Sub32(c.Word(), 1)
  {
    assert c.Word() < 2 * SHOULD_BE_ON_FREELIST;
    assert Sub32(c.Word(), 1) == c.Word() - 1;
  }

  lemma GetDropKeepsNode(s: State, t: nat, call: Call, n: Node, c: Counts, c': Counts)
    requires Local(s, t, call, n, c, c')
    requires s.pcs[t].GetDrop?
    ensures c'.Valid() && Step(s, t, call).refs[n] == c'.Word()
  {
    if s.pcs[t].node == n {
      CountedDown(c, c');
    } else {
      assert c' == c;
    }
  }

  lemma AddKeepsNode(s: State, t: nat, call: Call, n: Node, c: Counts, c': Counts)
    requires Local(s, t, call, n, c, c')
    requires s.pcs[t].AddFlag? || s.pcs[t].Idle?
    ensures c'.Valid() && Step(s, t, call).refs[n] == c'.Word()
  {
  }

  lemma StepKeepsNode(s: State, t: nat, call: Call, n: Node)
    requires Inv(s) && Enabled(s, t, call) && n < |s.refs|
    ensures NodeInv(Step(s, t, call), n)
  {
    var s' := Step(s, t, call);
    var c, c' := CountsOf(s, n), CountsOf(s', n);
    CountsMove(s, s', t, n);
    assert NodeInv(s, n);
    assert Local(s, t, call, n, c, c');
    match s.pcs[t] {
      case Idle => AddKeepsNode(s, t, call, n, c, c');
      case AddFlag(_) => AddKeepsNode(s, t, call, n, c, c');
      case PushLoad(_, _) => PushKeepsNode(s, t, call, n, c, c');
      case PushNext(_, _, _) => PushKeepsNode(s, t, call, n, c, c');
      case PushRefs(_, _, _) => PushKeepsNode(s, t, call, n, c, c');
      case PushCas(_, _, _) => PushCasKeepsNode(s, t, call, n, c, c');
      case PushUndo(_, _, _) => PushUndoKeepsNode(s, t, call, n, c, c');
      case GetLoad => GetLoadKeepsNode(s, t, call, n, c, c');
      case GetTest(_) => GetLoadKeepsNode(s, t, call, n, c, c');
      case GetRef(_, _) => GetRefKeepsNode(s, t, call, n, c, c');
      case GetNext(_) => GetNextKeepsNode(s, t, call, n, c, c');
      case GetCas(_, _) => GetCasKeepsNode(s, t, call, n, c, c');
      case GetTake(_) => GetTakeKeepsNode(s, t, call, n, c, c');
      case GetDrop(_, _) => GetDropKeepsNode(s, t, call, n, c, c');
    }
  }

  /** A node allocated just now is in nobody's hands but the client's. */
  lemma NewNode(s: State, t: nat)
    requires Inv(s) && t < |s.pcs| && s.pcs[t].Idle?
    ensures NodeInv(Step(s, t, Allocate), |s.refs|)
  {
    var n := |s.refs|;
    ChainInRange(s.head, s.next, s.chain);
    forall u | 0 <= u < |s.pcs|
      ensures Share(s.pcs[u], n) == NOTHING
    {
      assert ThreadInv(s, s.pcs[u]);
    }
    TotalNone(s.pcs, Holds(n));
    TotalNone(s.pcs, Early(n));
    TotalNone(s.pcs, Late(n));
    TotalNone(s.pcs, Takes(n));
    TotalNone(s.pcs, Adds(n));
  }

  /** The pusher is alone: nobody else pushes the node, and nobody reads its next pointer. */
  lemma PusherIsAlone(s: State, t: nat, u: nat)
    requires Inv(s) && t < |s.pcs| && u < |s.pcs| && t != u
    requires s.pcs[t].PushNext?
    ensures var n := s.pcs[t].node;
      n !in s.chain && Share(s.pcs[u], n).early == Share(s.pcs[u], n).late == Share(s.pcs[u], n).holds == 0
  {
    var n := s.pcs[t].node;
    assert ThreadInv(s, s.pcs[t]);
    assert NodeInv(s, n);
    TotalTwo(s.pcs, Early(n), t, u);
    TotalUpdate(s.pcs, Early(n), t, s.pcs[t]);
    TotalUpdate(s.pcs, Late(n), u, s.pcs[u]);
    TotalUpdate(s.pcs, Holds(n), u, s.pcs[u]);
  }

  /** The moving thread's own facts. */
  lemma MoverKeepsThread(s: State, t: nat, call: Call)
    requires Enabled(s, t, call) && ThreadInv(s, s.pcs[t])
    requires LinkInRange(s.head, |s.refs|) && (forall n :: n in s.owned ==> n < |s.refs|)
    requires s.pcs[t].GetNext? ==> LinkInRange(s.next[s.pcs[t].node], |s.refs|)
    ensures ThreadInv(Step(s, t, call), Step(s, t, call).pcs[t])
  {
    if s.pcs[t].GetTest? || s.pcs[t].GetRef? || s.pcs[t].GetNext? || s.pcs[t].GetCas? {
    } else if s.pcs[t].GetLoad? || s.pcs[t].GetTake? || s.pcs[t].GetDrop? {
    } else if s.pcs[t].PushCas? || s.pcs[t].PushUndo? {
    } else {
    }
  }

  /** The facts of a thread that stands still. */
  lemma OthersKeepThread(s: State, t: nat, call: Call, u: nat)
    requires Enabled(s, t, call) && u < |s.pcs| && u != t
    requires ThreadInv(s, s.pcs[u])
    requires s.pcs[t].PushNext? ==>
      var h := Share(s.pcs[u], s.pcs[t].node); h.early == h.late == h.holds == 0
    ensures ThreadInv(Step(s, t, call), s.pcs[u])
  {
  }

  lemma ChainPush(head: Link, next: seq<Link>, chain: seq<Node>, n: Node)
    requires Linked(head, next, chain) && Distinct(chain)
    requires n < |next| && n !in chain && next[n] == head
    ensures Linked(Ptr(n), next, [n] + chain) && Distinct([n] + chain)
  {
    forall i | 0 <= i < |chain| + 1 ensures LinkAt(next, [n] + chain, i) {
      if i > 0 { assert LinkAt(next, chain, i - 1); }
    }
  }

  lemma ChainPop(head: Link, next: seq<Link>, chain: seq<Node>)
    requires Linked(head, next, chain) && Distinct(chain) && head.Ptr?
    ensures chain != [] && chain[0] == head.node < |next|
    ensures Linked(next[head.node], next, Rest(chain)) && Distinct(Rest(chain))
  {
    assert LinkAt(next, chain, 0);
    forall i | 0 <= i < |chain| - 1 ensures LinkAt(next, chain[1..], i) {
      assert LinkAt(next, chain, i + 1);
    }
  }

  lemma ChainUnlinked(head: Link, next: seq<Link>, chain: seq<Node>, n: Node, l: Link)
    requires Linked(head, next, chain)
    requires n < |next| && n !in chain
    ensures Linked(head, next[n := l], chain)
  {
    var next' := next[n := l];
    forall i | 0 <= i < |chain| ensures LinkAt(next', chain, i) {
      assert LinkAt(next, chain, i);
    }
  }

  lemma ChainGrow(head: Link, next: seq<Link>, chain: seq<Node>)
    requires Linked(head, next, chain)
    ensures Linked(head, next + [Null], chain)
  {
    var next' := next + [Null];
    forall i | 0 <= i < |chain| ensures LinkAt(next', chain, i) {
      assert LinkAt(next, chain, i);
    }
  }

  lemma ChainInRange(head: Link, next: seq<Link>, chain: seq<Node>)
    requires Linked(head, next, chain)
    ensures LinkInRange(head, |next|) && (forall n :: n in chain ==> n < |next|)
  {
    assert chain != [] ==> LinkAt(next, chain, 0);
    forall n | n in chain ensures n < |next| {
      var i :| 0 <= i < |chain| && chain[i] == n;
      assert LinkAt(next, chain, i);
    }
  }

  lemma StepKeepsChain(s: State, t: nat, call: Call)
    requires Enabled(s, t, call) && ThreadInv(s, s.pcs[t])
    requires Linked(s.head, s.next, s.chain) && Distinct(s.chain)
    requires s.pcs[t].PushNext? || s.pcs[t].PushCas? ==> s.pcs[t].node !in s.chain
    ensures var s' := Step(s, t, call); Linked(s'.head, s'.next, s'.chain) && Distinct(s'.chain)
  {
    match s.pcs[t] {
      case Idle => ChainGrow(s.head, s.next, s.chain);
      case PushNext(n, h, _) => ChainUnlinked(s.head, s.next, s.chain, n, h);
      case PushCas(n, h, _) => if s.head == h { ChainPush(s.head, s.next, s.chain, n); }
      case GetCas(n, _) => if s.head == Ptr(n) { ChainPop(s.head, s.next, s.chain); }
      case _ =>
    }
  }

  /** What a pusher may rely on. */
  lemma PusherOffList(s: State, t: nat)
    requires Inv(s) && t < |s.pcs|
    requires s.pcs[t].PushNext? || s.pcs[t].PushCas?
    ensures s.pcs[t].node !in s.chain
  {
    var n := s.pcs[t].node;
    assert ThreadInv(s, s.pcs[t]);
    assert NodeInv(s, n);
    TotalUpdate(s.pcs, Early(n), t, s.pcs[t]);
    TotalUpdate(s.pcs, Late(n), t, s.pcs[t]);
  }

  lemma NextInRange(s: State, n: Node)
    requires Inv(s) && n < |s.refs|
    ensures LinkInRange(s.next[n], |s.refs|)
  {
  }

  /** The invariant is inductive: any step of any thread keeps it. */
  lemma StepKeepsInv(s: State, t: nat, call: Call)
    requires Inv(s) && Enabled(s, t, call)
    ensures Inv(Step(s, t, call))
  {
    var s' := Step(s, t, call);
    assert ThreadInv(s, s.pcs[t]);
    if s.pcs[t].PushNext? || s.pcs[t].PushCas? { PusherOffList(s, t); }
    ChainInRange(s.head, s.next, s.chain);
    StepKeepsChain(s, t, call);
    forall u | 0 <= u < |s'.pcs| ensures ThreadInv(s', s'.pcs[u]) {
      assert ThreadInv(s, s.pcs[u]);
      if u == t {
        if s.pcs[t].GetNext? { NextInRange(s, s.pcs[t].node); }
        MoverKeepsThread(s, t, call);
      } else {
        if s.pcs[t].PushNext? { PusherIsAlone(s, t, u); }
        OthersKeepThread(s, t, call, u);
      }
    }
    forall n | 0 <= n < |s'.refs| ensures NodeInv(s', n) {
      if n < |s.refs| { StepKeepsNode(s, t, call, n); } else { NewNode(s, t); }
    }
  }

  // ---- Runs ---------------------------------------------------------------------------

  ghost predicate StepBy(s: State, s': State, t: nat, c: Call) {
    Enabled(s, t, c) && s' == Step(s, t, c)
  }

  ghost predicate Next(s: State, s': State) {
    exists t: nat, c: Call :: StepBy(s, s', t, c)
  }

  ghost predicate StepAt(r: seq<State>, i: nat)
    requires 0 < i < |r|
  {
    Next(r[i - 1], r[i])
  }

  ghost predicate Run(r: seq<State>) {
    && r != [] && Init(r[0])
    && forall i :: 0 < i < |r| ==> StepAt(r, i)
  }

  lemma InitInv(s: State)
    requires Init(s)
    ensures Inv(s)
  {
  }

  /** The invariant holds in every state of every interleaving. */
  lemma {:induction false} RunInv(r: seq<State>, i: nat)
    requires Run(r) && i < |r|
    ensures Inv(r[i])
  {
    if i == 0 {
      InitInv(r[0]);
    } else {
      RunInv(r, i - 1);
      assert StepAt(r, i);
      var t: nat, c: Call :| StepBy(r[i - 1], r[i], t, c);
      StepKeepsInv(r[i - 1], t, c);
    }
  }

  // ---- What the invariant means -------------------------------------------------------

  /** Thread `t` is handing the node over or has just taken it off the list. */
  ghost predicate InHand(s: State, t: nat, n: Node) {
    t < |s.pcs| && (s.pcs[t] == AddFlag(n) || s.pcs[t] == GetTake(n))
  }

  ghost predicate WithClient(s: State, n: Node) {
    n in s.owned || exists t: nat :: InHand(s, t, n)
  }

  ghost predicate Pushes(s: State, t: nat, n: Node) {
    && t < |s.pcs|
    && var p := s.pcs[t];
       (p.PushLoad? || p.PushNext? || p.PushRefs? || p.PushCas? || p.PushUndo?) && p.node == n
  }

  ghost predicate PushedByOne(s: State, n: Node) {
    exists t: nat :: Pushes(s, t, n) && forall u: nat :: Pushes(s, u, n) ==> u == t
  }

  ghost predicate Refers(s: State, t: nat, n: Node) {
    && t < |s.pcs|
    && var p := s.pcs[t];
       (p.GetNext? || p.GetCas? || p.GetDrop?) && p.node == n
  }

  /** The flag is up, nobody is pushing, and some thread in `try_get` holds a reference. */
  ghost predicate AwaitsPush(s: State, n: Node)
    requires n < |s.refs|
  {
    && s.refs[n] > SHOULD_BE_ON_FREELIST
    && (forall t: nat :: !Pushes(s, t, n))
    && exists t: nat :: Refers(s, t, n)
  }

  ghost predicate OnListOnce(s: State, n: Node) {
    n in s.chain && Linked(s.head, s.next, s.chain) && Distinct(s.chain)
  }

  lemma ClientCount(s: State, n: Node)
    requires Inv(s) && n < |s.refs|
    ensures WithClient(s, n) <==> CountsOf(s, n).own + CountsOf(s, n).adds + CountsOf(s, n).takes == 1
    ensures !WithClient(s, n) <==> CountsOf(s, n).own + CountsOf(s, n).adds + CountsOf(s, n).takes == 0
  {
    var c := CountsOf(s, n);
    assert NodeInv(s, n);
    if WithClient(s, n) && n !in s.owned {
      var t: nat :| InHand(s, t, n);
      TotalUpdate(s.pcs, Adds(n), t, s.pcs[t]);
      TotalUpdate(s.pcs, Takes(n), t, s.pcs[t]);
    }
    if c.adds > 0 {
      var t := TotalWitness(s.pcs, Adds(n));
      assert InHand(s, t, n);
    }
    if c.takes > 0 {
      var t := TotalWitness(s.pcs, Takes(n));
      assert InHand(s, t, n);
    }
  }

  lemma TwoPushers(s: State, n: Node, t: nat, u: nat)
    requires Pushes(s, t, n) && Pushes(s, u, n) && t != u
    ensures CountsOf(s, n).early + CountsOf(s, n).late >= 2
  {
    TotalTwo(s.pcs, Early(n), t, u);
    TotalTwo(s.pcs, Late(n), t, u);
    TotalUpdate(s.pcs, Early(n), t, s.pcs[t]);
    TotalUpdate(s.pcs, Late(n), t, s.pcs[t]);
    TotalUpdate(s.pcs, Early(n), u, s.pcs[u]);
    TotalUpdate(s.pcs, Late(n), u, s.pcs[u]);
  }

  lemma PushCount(s: State, n: Node)
    requires Inv(s) && n < |s.refs|
    ensures PushedByOne(s, n) <==> CountsOf(s, n).early + CountsOf(s, n).late == 1
    ensures CountsOf(s, n).early + CountsOf(s, n).late == 0 <==> forall t: nat :: !Pushes(s, t, n)
  {
    var c := CountsOf(s, n);
    assert NodeInv(s, n);
    forall t: nat | Pushes(s, t, n) ensures c.early + c.late == 1 {
      TotalUpdate(s.pcs, Early(n), t, s.pcs[t]);
      TotalUpdate(s.pcs, Late(n), t, s.pcs[t]);
    }
    if c.early + c.late == 1 {
      var t := if c.early > 0 then FirstWith(s.pcs, Early(n)) else FirstWith(s.pcs, Late(n));
      assert Pushes(s, t, n);
      forall u: nat | Pushes(s, u, n) ensures u == t {
        if u != t { TwoPushers(s, n, t, u); }
      }
    }
  }

  ghost function FirstWith(pcs: seq<Pc>, w: Pc -> nat): (t: nat)
    requires Total(pcs, w) > 0
    ensures t < |pcs| && w(pcs[t]) > 0
  {
    TotalWitnessExists(pcs, w);
    var t: nat :| t < |pcs| && w(pcs[t]) > 0;
    t
  }

  lemma TotalWitnessExists(pcs: seq<Pc>, w: Pc -> nat)
    requires Total(pcs, w) > 0
    ensures exists t: nat :: t < |pcs| && w(pcs[t]) > 0
  {
    var t := TotalWitness(pcs, w);
  }

  /** Every node is in exactly one place: with a client, on the list once, being pushed by
      one thread, or flagged with a reference holder who must push it. */
  lemma ExactlyOnePlace(r: seq<State>, i: nat, n: Node)
    requires Run(r) && i < |r| && n < |r[i].refs|
    ensures One(WithClient(r[i], n)) + One(OnListOnce(r[i], n)) + One(PushedByOne(r[i], n))
            + One(AwaitsPush(r[i], n)) == 1
  {
    var s := r[i];
    RunInv(r, i);
    assert NodeInv(s, n);
    ClientCount(s, n);
    PushCount(s, n);
    TotalBound(s.pcs, Holds(n), 1);
    if CountsOf(s, n).Flagged() {
      var t := TotalWitness(s.pcs, Holds(n));
      TotalUpdate(s.pcs, Takes(n), t, s.pcs[t]);
      assert Refers(s, t, n);
    }
  }

  /** A head exchange that succeeds, in `try_get` or in a push, works on the current list:
      what it installs is what the node's next pointer holds at that moment (no ABA). */
  lemma ExchangeIsCurrent(r: seq<State>, i: nat, t: nat)
    requires Run(r) && i < |r| && t < |r[i].pcs|
    ensures var s := r[i]; var p := s.pcs[t];
      && (p.GetCas? && s.head == Ptr(p.node) ==>
            s.chain != [] && s.chain[0] == p.node && p.next == LinkTo(s.chain, 1))
      && (p.PushCas? && s.head == p.head ==>
            p.node !in s.chain && p.node < |s.next| && s.next[p.node] == LinkTo(s.chain, 0))
  {
    var s := r[i];
    RunInv(r, i);
    assert ThreadInv(s, s.pcs[t]);
    if s.pcs[t].PushCas? { PusherOffList(s, t); }
    if s.chain != [] { assert LinkAt(s.next, s.chain, 0); }
  }

  /** The flag is down on every node that was just taken off the list, and both references
      to drop are there: the subtraction never wraps. */
  lemma TakenNodeIsUnflagged(r: seq<State>, i: nat, t: nat)
    requires Run(r) && i < |r| && t < |r[i].pcs| && r[i].pcs[t].GetTake?
    ensures r[i].pcs[t].node < |r[i].refs|
    ensures 2 <= r[i].refs[r[i].pcs[t].node] < SHOULD_BE_ON_FREELIST
  {
    var s := r[i];
    var n := s.pcs[t].node;
    RunInv(r, i);
    assert ThreadInv(s, s.pcs[t]);
    assert NodeInv(s, n);
    TotalUpdate(s.pcs, Takes(n), t, s.pcs[t]);
    CountsMove(s, s, t, n);
  }

  // ---- The list is a set --------------------------------------------------------------

  /** The free nodes: those no client has. */
  ghost function Pool(s: State): set<Node> {
    set n: nat | n < |s.refs| && !WithClient(s, n)
  }

  ghost predicate Gives(s: State, t: nat, n: Node)
    requires t < |s.pcs|
  {
    s.pcs[t] == AddFlag(n)
  }

  ghost predicate Gets(s: State, t: nat, n: Node)
    requires t < |s.pcs|
  {
    s.pcs[t].GetCas? && s.pcs[t].node == n && s.head == Ptr(n)
  }

  lemma ClientShare(s: State, t: nat, call: Call, n: Node, c: Counts, c': Counts)
    requires Local(s, t, call, n, c, c') && Linked(s.head, s.next, s.chain)
    ensures c'.own + c'.adds + c'.takes + One(Gives(s, t, n)) == c.own + c.adds + c.takes + One(Gets(s, t, n))
    ensures Gets(s, t, n) ==> c.listed == 1
    ensures Gives(s, t, n) ==> c.adds == 1
  {
  }

  lemma ClientStep(s: State, t: nat, call: Call, n: Node)
    requires Inv(s) && Enabled(s, t, call) && n < |s.refs|
    ensures WithClient(Step(s, t, call), n)
        == if Gives(s, t, n) then false else if Gets(s, t, n) then true else WithClient(s, n)
    ensures Gives(s, t, n) ==> WithClient(s, n)
    ensures Gets(s, t, n) ==> !WithClient(s, n)
  {
    var s' := Step(s, t, call);
    var c, c' := CountsOf(s, n), CountsOf(s', n);
    assert Local(s, t, call, n, c, c') by {
      assert NodeInv(s, n) && ThreadInv(s, s.pcs[t]);
      CountsMove(s, s', t, n);
    }
    ClientShare(s, t, call, n, c, c');
    ClientCount(s, n);
    StepKeepsInv(s, t, call);
    ClientCount(s', n);
  }

  /** What a step does to the pool: `add` gives one node that was not there, `try_get` takes
      one node that was, and every other step leaves the pool alone. */
  lemma StepRefinesPool(s: State, t: nat, c: Call)
    requires Inv(s) && Enabled(s, t, c)
    ensures var s' := Step(s, t, c); var p := s.pcs[t];
      if p.AddFlag? then p.node !in Pool(s) && Pool(s') == Pool(s) + {p.node}
      else if p.GetCas? && s.head == Ptr(p.node) then p.node in Pool(s) && Pool(s') == Pool(s) - {p.node}
      else Pool(s') == Pool(s)
  {
    var s' := Step(s, t, c);
    forall n: nat | n < |s'.refs|
      ensures n in Pool(s') <==> (n in Pool(s) || Gives(s, t, n)) && !Gets(s, t, n)
      ensures Gives(s, t, n) ==> n !in Pool(s)
      ensures Gets(s, t, n) ==> n in Pool(s)
    {
      if n < |s.refs| { ClientStep(s, t, c, n); } else { assert n in s'.owned; }
    }
  }

  lemma AtRestCounts(pcs: seq<Pc>, n: Node)
    requires forall t :: 0 <= t < |pcs| ==> pcs[t] == Idle
    ensures Total(pcs, Holds(n)) == Total(pcs, Early(n)) == Total(pcs, Late(n)) == 0
    ensures Total(pcs, Takes(n)) == Total(pcs, Adds(n)) == 0
  {
    TotalNone(pcs, Holds(n));
    TotalNone(pcs, Early(n));
    TotalNone(pcs, Late(n));
    TotalNone(pcs, Takes(n));
    TotalNone(pcs, Adds(n));
  }

  /** When every thread is back from its calls, no node is lost: each one is with the clients
      or on the list, and not on both. */
  lemma NothingLostAtRest(r: seq<State>, i: nat, n: Node)
    requires Run(r) && i < |r| && n < |r[i].refs|
    requires forall t :: 0 <= t < |r[i].pcs| ==> r[i].pcs[t] == Idle
    ensures n in r[i].owned <==> n !in r[i].chain
    ensures r[i].refs[n] == One(n in r[i].chain)
  {
    AtRestCounts(r[i].pcs, n);
    RunInv(r, i);
    assert NodeInv(r[i], n);
  }

  // ---- What a call comes back with ----------------------------------------------------

  /** Inside `try_get`. */
  ghost predicate Getting(p: Pc) {
    || p.GetLoad? || p.GetTest? || p.GetRef? || p.GetNext? || p.GetCas? || p.GetTake? || p.GetDrop?
    || ((p.PushLoad? || p.PushNext? || p.PushRefs? || p.PushCas? || p.PushUndo?) && p.ret.Resume?)
  }

  /** Thread `t` calls `try_get` at `i` and is back at `j`. */
  ghost predicate TryGetCall(r: seq<State>, i: nat, j: nat, t: nat) {
    && i + 1 < j < |r|
    && (forall m :: i <= m <= j ==> t < |r[m].pcs|)
    && r[i].pcs[t].Idle? && StepBy(r[i], r[i + 1], t, TryGet) && r[j].pcs[t].Idle?
    && (forall m :: i < m < j ==> !r[m].pcs[t].Idle?)
  }

  /** The head that thread `t` saw last and has still to look at is empty. */
  ghost predicate HasSeenNull(p: Pc) {
    || (p.GetTest? && p.head == Null) || (p.GetDrop? && p.head == Null)
    || ((p.PushLoad? || p.PushNext? || p.PushRefs? || p.PushCas? || p.PushUndo?) && p.ret == Resume(Null))
  }

  /** How a step of its own takes a thread through `try_get` and back to the caller. */
  ghost predicate GetMove(s: State, s': State, p: Pc, p': Pc) {
    && (Getting(p') || p'.Idle?)
    && (HasSeenNull(p') ==> HasSeenNull(p) || s.head == Null)
    && (p'.GetTake? ==> p.GetCas? && p.node == p'.node && s.head == Ptr(p.node) && s'.chain == Rest(s.chain))
    && (p'.Idle? ==> p == GetTest(Null) || p.GetTake?)
    && s'.owned == (if p.GetTake? then s.owned + {p.node} else s.owned)
  }

  lemma GettingStep(s: State, t: nat, c: Call)
    requires Enabled(s, t, c) && Getting(s.pcs[t])
    ensures var s' := Step(s, t, c);
      |s'.pcs| == |s.pcs| && s'.pcs[t] != s.pcs[t] && GetMove(s, s', s.pcs[t], s'.pcs[t])
  {
  }

  lemma OthersStand(s: State, u: nat, c: Call, t: nat)
    requires Enabled(s, u, c) && t < |s.pcs| && t != u
    ensures |Step(s, u, c).pcs| == |s.pcs| && Step(s, u, c).pcs[t] == s.pcs[t]
  {
  }

  lemma GetMoveAt(r: seq<State>, i: nat, t: nat)
    requires Run(r) && i + 1 < |r| && t < |r[i].pcs| && Getting(r[i].pcs[t])
    ensures |r[i + 1].pcs| == |r[i].pcs|
    ensures r[i + 1].pcs[t] == r[i].pcs[t] || GetMove(r[i], r[i + 1], r[i].pcs[t], r[i + 1].pcs[t])
  {
    assert StepAt(r, i + 1);
    var u: nat, c: Call :| StepBy(r[i], r[i + 1], u, c);
    if u == t { GettingStep(r[i], t, c); } else { OthersStand(r[i], u, c, t); }
  }

  lemma GetCallEnters(r: seq<State>, i: nat, j: nat, t: nat)
    requires TryGetCall(r, i, j, t)
    ensures r[i + 1].pcs[t] == GetLoad
  {
  }

  /** The step from `r[m]` takes node `n` off the list for thread `t`. */
  ghost predicate TookAt(r: seq<State>, m: nat, t: nat, n: Node) {
    && m + 1 < |r| && t < |r[m].pcs| && r[m].pcs[t].GetCas? && r[m].pcs[t].node == n
    && r[m].chain != [] && r[m].chain[0] == n && r[m + 1].chain == r[m].chain[1..]
  }

  lemma TookHere(r: seq<State>, m: nat, t: nat)
    requires Run(r) && m + 1 < |r| && t < |r[m].pcs| == |r[m + 1].pcs|
    requires r[m + 1].pcs[t].GetTake? && GetMove(r[m], r[m + 1], r[m].pcs[t], r[m + 1].pcs[t])
    ensures TookAt(r, m, t, r[m + 1].pcs[t].node)
  {
    RunInv(r, m);
    ChainHead(r[m]);
  }

  lemma ChainHead(s: State)
    requires Inv(s)
    ensures s.head == (if s.chain == [] then Null else Ptr(s.chain[0]))
  {
  }

  lemma {:induction false} CallIsGetting(r: seq<State>, i: nat, j: nat, t: nat, m: nat)
    requires Run(r) && TryGetCall(r, i, j, t) && i < m < j
    ensures Getting(r[m].pcs[t])
  {
    if m == i + 1 {
      GetCallEnters(r, i, j, t);
    } else {
      CallIsGetting(r, i, j, t, m - 1);
      GetMoveAt(r, m - 1, t);
    }
  }

  lemma {:induction false} FindNull(r: seq<State>, i: nat, j: nat, t: nat, m: nat) returns (k: nat)
    requires Run(r) && TryGetCall(r, i, j, t) && i < m < j && HasSeenNull(r[m].pcs[t])
    ensures i < k < m && r[k].head == Null
    decreases m
  {
    GetCallEnters(r, i, j, t);
    k := m - 1;
    CallIsGetting(r, i, j, t, k);
    GetMoveAt(r, k, t);
    if r[k].head != Null {
      k := FindNull(r, i, j, t, k);
    }
  }

  lemma {:induction false} FindTake(r: seq<State>, i: nat, j: nat, t: nat, m: nat) returns (k: nat)
    requires Run(r) && TryGetCall(r, i, j, t) && i < m < j && r[m].pcs[t].GetTake?
    ensures i < k < m && TookAt(r, k, t, r[m].pcs[t].node)
    decreases m
  {
    GetCallEnters(r, i, j, t);
    k := m - 1;
    CallIsGetting(r, i, j, t, k);
    GetMoveAt(r, k, t);
    if r[m].pcs[t] == r[k].pcs[t] {
      k := FindTake(r, i, j, t, k);
    } else {
      TookHere(r, k, t);
    }
  }

  /** What a call of `try_get` comes back with, whatever the other threads do: a node that it took
      off the front of the list during the call and that its caller now has, or nothing, and then
      the list was empty at some moment during the call. */
  lemma TryGetIsHonest(r: seq<State>, i: nat, j: nat, t: nat) returns (k: nat, n: Node)
    requires Run(r) && TryGetCall(r, i, j, t)
    ensures i < k < j
    ensures || (r[j].owned == r[j - 1].owned && r[k].head == Null && r[k].chain == [])
            || (TookAt(r, k, t, n) && n !in r[j - 1].owned && r[j].owned == r[j - 1].owned + {n})
  {
    CallIsGetting(r, i, j, t, j - 1);
    GetMoveAt(r, j - 1, t);
    n := 0;
    if r[j - 1].pcs[t].GetTake? {
      n := r[j - 1].pcs[t].node;
      k := FindTake(r, i, j, t, j - 1);
      TakenIsNotOwned(r, j - 1, t);
    } else {
      k := FindNull(r, i, j, t, j - 1);
      assert r[k].chain == [] by { RunInv(r, k); ChainHead(r[k]); }
    }
  }

  lemma TakenIsNotOwned(r: seq<State>, i: nat, t: nat)
    requires Run(r) && i < |r| && t < |r[i].pcs| && r[i].pcs[t].GetTake?
    ensures r[i].pcs[t].node !in r[i].owned
  {
    var s := r[i];
    var n := s.pcs[t].node;
    RunInv(r, i);
    assert ThreadInv(s, s.pcs[t]);
    assert NodeInv(s, n);
    TotalUpdate(s.pcs, Takes(n), t, s.pcs[t]);
  }

  // ---- A call on its own --------------------------------------------------------------

  ghost predicate AtRest(s: State) {
    forall t :: 0 <= t < |s.pcs| ==> s.pcs[t] == Idle
  }

  /** Thread `t` running alone from call to return. */
  ghost predicate Alone(a: seq<State>, t: nat, c: Call) {
    && |a| > 1
    && (forall i :: 0 < i < |a| ==> StepBy(a[i - 1], a[i], t, c))
    && (forall i :: 0 < i < |a| - 1 ==> t < |a[i].pcs| && !a[i].pcs[t].Idle?)
  }

  lemma HeadNode(s: State)
    requires Inv(s) && AtRest(s) && s.chain != []
    ensures var n := s.chain[0];
      && s.head == Ptr(n) && n < |s.refs| == |s.next| && s.refs[n] == 1 && n !in s.owned
      && LinkInRange(s.next[n], |s.refs|)
  {
    var n := s.chain[0];
    assert LinkAt(s.next, s.chain, 0);
    assert NodeInv(s, n);
    AtRestCounts(s.pcs, n);
  }

  lemma ClientNode(s: State, n: Node)
    requires Inv(s) && AtRest(s) && n in s.owned
    ensures n < |s.refs| == |s.next| && s.refs[n] == 0 && LinkInRange(s.head, |s.refs|)
  {
    assert NodeInv(s, n);
    AtRestCounts(s.pcs, n);
    if s.chain != [] { assert LinkAt(s.next, s.chain, 0); }
  }

  /** The way of a lone `try_get` on a list with front `n`, up to its reference ... */
  lemma GetPathIn(s: State, t: nat, n: Node) returns (a: seq<State>)
    requires t < |s.pcs| && s.pcs[t] == Idle && s.head == Ptr(n) && n < |s.refs| == |s.next| && s.refs[n] == 1
    ensures Alone(a, t, TryGet) && a[0] == s
    ensures a[|a| - 1] == s.(pcs := s.pcs[t := GetNext(n)], refs := s.refs[n := 2])
  {
    var s1 := s.(pcs := s.pcs[t := GetLoad]);
    var s2 := s.(pcs := s.pcs[t := GetTest(Ptr(n))]);
    var s3 := s.(pcs := s.pcs[t := GetRef(n, 1)]);
    var s4 := s.(pcs := s.pcs[t := GetNext(n)], refs := s.refs[n := 2]);
    assert StepBy(s, s1, t, TryGet);
    assert StepBy(s1, s2, t, TryGet);
    assert StepBy(s2, s3, t, TryGet);
    assert StepBy(s3, s4, t, TryGet);
    a := [s, s1, s2, s3, s4];
  }

  /** ... and on from there. */
  lemma GetPathOut(s: State, t: nat, n: Node) returns (a: seq<State>)
    requires t < |s.pcs| && s.pcs[t] == GetNext(n) && s.head == Ptr(n) && n < |s.refs| == |s.next|
    requires s.refs[n] == 2 && LinkInRange(s.next[n], |s.refs|)
    ensures Alone(a, t, TryGet) && a[0] == s
    ensures a[|a| - 1].pcs == s.pcs[t := Idle] && a[|a| - 1].chain == Rest(s.chain)
    ensures a[|a| - 1].owned == s.owned + {n}
  {
    var s1 := s.(pcs := s.pcs[t := GetCas(n, s.next[n])]);
    var s2 := s.(pcs := s.pcs[t := GetTake(n)], head := s.next[n], chain := Rest(s.chain));
    var s3 := s2.(pcs := s.pcs[t := Idle], refs := s.refs[n := 0], owned := s.owned + {n});
    assert StepBy(s, s1, t, TryGet);
    assert StepBy(s1, s2, t, TryGet);
    assert StepBy(s2, s3, t, TryGet);
    a := [s, s1, s2, s3];
  }

  lemma AloneOn(a: seq<State>, b: seq<State>, t: nat, c: Call)
    requires Alone(a, t, c) && Alone(b, t, c) && a[|a| - 1] == b[0] && t < |b[0].pcs| && !b[0].pcs[t].Idle?
    ensures Alone(a + b[1..], t, c)
  {
    var d := a + b[1..];
    forall i | 0 < i < |d| ensures StepBy(d[i - 1], d[i], t, c) {
      if i >= |a| { assert d[i - 1] == b[i - |a|] && d[i] == b[i - |a| + 1]; }
    }
  }

  /** The way of a lone `try_get` on a list with front `n`. */
  lemma GetPath(s: State, t: nat, n: Node) returns (a: seq<State>)
    requires t < |s.pcs| && s.pcs[t] == Idle && s.head == Ptr(n) && n < |s.refs| == |s.next|
    requires s.refs[n] == 1 && LinkInRange(s.next[n], |s.refs|)
    ensures Alone(a, t, TryGet) && a[0] == s
    ensures a[|a| - 1].pcs == s.pcs && a[|a| - 1].chain == Rest(s.chain) && a[|a| - 1].owned == s.owned + {n}
  {
    var x := GetPathIn(s, t, n);
    var y := GetPathOut(x[|x| - 1], t, n);
    AloneOn(x, y, t, TryGet);
    a := x + y[1..];
    assert a[|a| - 1] == y[|y| - 1];
    assert s.pcs[t := GetNext(n)][t := Idle] == s.pcs;
  }

  /** The way of a lone `add`: the first exchange succeeds. */
  lemma AddPath(s: State, t: nat, n: Node) returns (a: seq<State>)
    requires t < |s.pcs| && s.pcs[t] == Idle && n in s.owned && n < |s.refs| == |s.next|
    requires s.refs[n] == 0 && LinkInRange(s.head, |s.refs|)
    ensures Alone(a, t, Add(n)) && a[0] == s
    ensures a[|a| - 1].pcs == s.pcs && a[|a| - 1].chain == [n] + s.chain && a[|a| - 1].owned == s.owned - {n}
  {
    var c := Add(n);
    var s1 := s.(pcs := s.pcs[t := AddFlag(n)], owned := s.owned - {n});
    var s2 := s1.(pcs := s.pcs[t := PushLoad(n, Return)], refs := s.refs[n := SHOULD_BE_ON_FREELIST]);
    var s3 := s2.(pcs := s.pcs[t := PushNext(n, s.head, Return)]);
    var s4 := s2.(pcs := s.pcs[t := PushRefs(n, s.head, Return)], next := s.next[n := s.head]);
    var s5 := s4.(pcs := s.pcs[t := PushCas(n, s.head, Return)], refs := s2.refs[n := 1]);
    var s6 := s5.(pcs := s.pcs, head := Ptr(n), chain := [n] + s.chain);
    assert StepBy(s, s1, t, c);
    assert StepBy(s1, s2, t, c);
    assert StepBy(s2, s3, t, c);
    assert StepBy(s3, s4, t, c);
    assert StepBy(s4, s5, t, c);
    assert StepBy(s5, s6, t, c);
    a := [s, s1, s2, s3, s4, s5, s6];
  }

  /** From rest, a thread that calls `try_get` alone gets the front of the list, or nothing
      exactly if the list is empty. */
  lemma LoneTryGetIsExact(s: State, t: nat) returns (a: seq<State>)
    requires Inv(s) && AtRest(s) && t < |s.pcs|
    ensures Alone(a, t, TryGet) && a[0] == s
    ensures var s' := a[|a| - 1];
      && AtRest(s') && |s'.pcs| == |s.pcs|
      && s'.chain == (if s.chain == [] then [] else s.chain[1..])
      && s'.owned == (if s.chain == [] then s.owned else s.owned + {s.chain[0]})
      && (s.chain != [] ==> s.chain[0] !in s.owned)
  {
    if s.chain == [] {
      ChainHead(s);
      var s1 := s.(pcs := s.pcs[t := GetLoad]);
      var s2 := s.(pcs := s.pcs[t := GetTest(Null)]);
      assert s.pcs[t := Idle] == s.pcs;
      assert StepBy(s, s1, t, TryGet);
      assert StepBy(s1, s2, t, TryGet);
      assert StepBy(s2, s, t, TryGet);
      a := [s, s1, s2, s];
    } else {
      HeadNode(s);
      a := GetPath(s, t, s.chain[0]);
    }
  }

  /** From rest, a thread that adds a node of its client's alone puts it at the front. */
  lemma LoneAddIsExact(s: State, t: nat, n: Node) returns (a: seq<State>)
    requires Inv(s) && AtRest(s) && t < |s.pcs| && n in s.owned
    ensures Alone(a, t, Add(n)) && a[0] == s
    ensures var s' := a[|a| - 1];
      AtRest(s') && |s'.pcs| == |s.pcs| && s'.chain == [n] + s.chain && s'.owned == s.owned - {n}
  {
    ClientNode(s, n);
    a := AddPath(s, t, n);
  }
}
