/** Which session an incoming packet belongs to. A session's zero foreign address, foreign port
    or local address is a wildcard; its local port is not. */
module Sessions {
  import opened Basics

  /** A session's four fields, or the four-tuple of a packet. */
  datatype Key = Key(faddr: nat, fport: nat, laddr: nat, lport: nat)

  // ---- Scoring ------------------------------------------------------------------------

  function AddrMatch(ours: nat, theirs: nat): int {
    if ours == 0 then 0 else if ours == theirs then 1 else -1
  }

  /** What `Find` makes of one session: how many of its fields it matches exactly, or -1. */
  function Score(k: Key, q: Key): int {
    if k.lport != q.lport then -1
    else if k.fport != 0 && k.fport != q.fport then -1
    else if AddrMatch(k.faddr, q.faddr) == -1 then -1
    else if AddrMatch(k.laddr, q.laddr) == -1 then -1
    else 1 + (if k.fport != 0 then 1 else 0) + AddrMatch(k.faddr, q.faddr) + AddrMatch(k.laddr, q.laddr)
  }

  /** A session accepts a packet if every field it has set is the packet's. */
  predicate Accepts(k: Key, q: Key) {
    && k.lport == q.lport
    && (k.fport != 0 ==> k.fport == q.fport)
    && (k.faddr != 0 ==> k.faddr == q.faddr)
    && (k.laddr != 0 ==> k.laddr == q.laddr)
  }

  /** Everything that `l` has set, `k` has set too. */
  predicate AtLeastAsSpecific(k: Key, l: Key) {
    && (l.fport != 0 ==> k.fport != 0)
    && (l.faddr != 0 ==> k.faddr != 0)
    && (l.laddr != 0 ==> k.laddr != 0)
  }

  predicate MoreSpecific(k: Key, l: Key) {
    AtLeastAsSpecific(k, l) && !AtLeastAsSpecific(l, k)
  }

  /** How many of its wildcards a session has replaced. */
  function Specificity(k: Key): nat {
    |(if k.fport != 0 then {0} else {}) + (if k.faddr != 0 then {1} else {}) + (if k.laddr != 0 then {2} else {})|
  }

  lemma ScoreIsSpecificity(k: Key, q: Key)
    ensures Score(k, q) == if Accepts(k, q) then 1 + Specificity(k) else -1
  {
  }

  lemma ScoreSaysAccepts(k: Key, q: Key)
    ensures Score(k, q) >= 0 <==> Accepts(k, q)
    ensures Score(k, q) == 4 <==> k == q && q.fport != 0 && q.faddr != 0 && q.laddr != 0
    ensures Score(k, q) <= 4
  {
  }

  /** Among sessions that accept a packet, the more specific scores higher. */
  lemma ScoreFollowsSpecificity(k: Key, l: Key, q: Key)
    requires Accepts(k, q) && Accepts(l, q) && MoreSpecific(k, l)
    ensures Score(k, q) > Score(l, q)
  {
  }

  // ---- Sessions and their lookup ------------------------------------------------------

  class Session {
    var faddr: nat
    var fport: nat
    var laddr: nat
    var lport: nat

    function Tuple(): Key
      reads this
    {
      Key(faddr, fport, laddr, lport)
    }

    constructor (stackAddr: nat)
      ensures Tuple() == Key(0, 0, stackAddr, 0)
    {
      faddr, fport, laddr, lport := 0, 0, stackAddr, 0;
    }

    /** `port` is the protocol's next available local port. */
    method Connect(faddr: nat, fport: nat, port: nat) returns (r: int)
      modifies this
      ensures r == 0 && Tuple() == Connected(old(Tuple()), faddr, fport, port)
    {
      this.faddr := faddr;
      this.fport := fport;
      if lport == 0 {
        lport := port;
      }
      r := 0;
    }

    method Disconnect()
      modifies this
      ensures Tuple() == Disconnected(old(Tuple()))
    {
      faddr := 0;
      fport := 0;
    }
  }

  /** The tuples of the sessions that are still alive. */
  function Live(c: seq<Session?>): (ks: seq<Option<Key>>)
    reads set s: Session | s in c
    ensures |ks| == |c|
    ensures forall i :: 0 <= i < |c| ==> ks[i] == if c[i] == null then None else Some(c[i].Tuple())
  {
    if c == [] then []
    else [if c[0] == null then None else Some(c[0].Tuple())] + Live(c[1..])
  }

  function ScoreAt(ks: seq<Option<Key>>, i: nat, q: Key): int
    requires i < |ks|
  {
    if ks[i].None? then -1 else Score(ks[i].value, q)
  }

  ghost predicate AcceptsAt(ks: seq<Option<Key>>, i: nat, q: Key) {
    i < |ks| && ks[i].Some? && Accepts(ks[i].value, q)
  }

  /** Of the live sessions that accept the packet, the first of those with the fewest wildcards. */
  ghost predicate FirstBest(ks: seq<Option<Key>>, q: Key, at: nat) {
    && AcceptsAt(ks, at, q)
    && (forall i: nat :: AcceptsAt(ks, i, q) ==> Specificity(ks[i].value) <= Specificity(ks[at].value))
    && (forall i: nat :: i < at && AcceptsAt(ks, i, q) ==> Specificity(ks[i].value) < Specificity(ks[at].value))
  }

  lemma ScoreAtIs(ks: seq<Option<Key>>, i: nat, q: Key)
    requires i < |ks|
    ensures ScoreAt(ks, i, q) == if AcceptsAt(ks, i, q) then 1 + Specificity(ks[i].value) else -1
  {
    if ks[i].Some? { ScoreIsSpecificity(ks[i].value, q); }
  }

  lemma BestScoreIsFirstBest(ks: seq<Option<Key>>, q: Key, at: nat)
    requires at < |ks| && ScoreAt(ks, at, q) > 0
    requires forall i :: 0 <= i < |ks| ==> ScoreAt(ks, i, q) <= ScoreAt(ks, at, q)
    requires forall i :: 0 <= i < at ==> ScoreAt(ks, i, q) < ScoreAt(ks, at, q)
    ensures FirstBest(ks, q, at)
  {
    ScoreAtIs(ks, at, q);
    forall i: nat | AcceptsAt(ks, i, q)
      ensures Specificity(ks[i].value) <= Specificity(ks[at].value)
      ensures i < at ==> Specificity(ks[i].value) < Specificity(ks[at].value)
    {
      ScoreAtIs(ks, i, q);
    }
  }

  ghost predicate NobodyAccepts(ks: seq<Option<Key>>, q: Key) {
    forall i :: 0 <= i < |ks| && ks[i].Some? ==> !Accepts(ks[i].value, q)
  }

  /** Expired entries are null. */
  method Find(c: seq<Session?>, faddr: nat, fport: nat, laddr: nat, lport: nat) returns (pcb: Session?)
    ensures pcb == null <==> NobodyAccepts(Live(c), Key(faddr, fport, laddr, lport))
    ensures pcb != null ==> exists at: nat :: FirstBest(Live(c), Key(faddr, fport, laddr, lport), at) && c[at] == pcb
  {
    ghost var q := Key(faddr, fport, laddr, lport);
    ghost var ks := Live(c);
    ghost var at := 0;
    pcb := null;
    var best := -1;
    for i := 0 to |c|
      invariant pcb == null ==> best == -1
      invariant pcb != null ==> at < i && c[at] == pcb && best == ScoreAt(ks, at, q) && best > 0
      invariant forall j :: 0 <= j < i ==> ScoreAt(ks, j, q) <= best
      invariant pcb != null ==> forall j :: 0 <= j < at ==> ScoreAt(ks, j, q) < best
    {
      var curr := c[i];
      if curr == null { continue; }
      var accum := 0;
      if curr.lport != lport { continue; }
      accum := accum + 1;
      if curr.fport != 0 {
        if curr.fport != fport { continue; }
        accum := accum + 1;
      }
      var match0 := AddrMatch(curr.faddr, faddr);
      if match0 == -1 { continue; }
      accum := accum + match0;
      var match1 := AddrMatch(curr.laddr, laddr);
      if match1 == -1 { continue; }
      accum := accum + match1;
      assert ScoreAt(ks, i, q) == accum;
      if accum > best {
        pcb, best, at := curr, accum, i;
      }
    }
    if pcb == null {
      forall i | 0 <= i < |ks| && ks[i].Some? ensures !Accepts(ks[i].value, q) {
        assert ScoreAt(ks, i, q) <= -1;
        ScoreSaysAccepts(ks[i].value, q);
      }
    } else {
      BestScoreIsFirstBest(ks, q, at);
    }
  }

  // ---- What the lookup promises -------------------------------------------------------

  /** The session found is never less specific than another that accepts the packet. */
  lemma NeverLessSpecific(ks: seq<Option<Key>>, q: Key, at: nat, i: nat)
    requires FirstBest(ks, q, at) && i < |ks| && ks[i].Some? && Accepts(ks[i].value, q)
    ensures !MoreSpecific(ks[i].value, ks[at].value)
  {
    assert AcceptsAt(ks, i, q);
  }

  /** If a live session is the packet's own four-tuple, such a session is found. */
  lemma ExactWins(ks: seq<Option<Key>>, q: Key, at: nat, i: nat)
    requires FirstBest(ks, q, at) && i < |ks| && ks[i] == Some(q)
    requires q.fport != 0 && q.faddr != 0 && q.laddr != 0
    ensures ks[at] == Some(q) && at <= i
  {
    assert AcceptsAt(ks, i, q) && AcceptsAt(ks, at, q);
  }

  // ---- Connecting and disconnecting ---------------------------------------------------

  function Connected(k: Key, faddr: nat, fport: nat, port: nat): Key {
    Key(faddr, fport, k.laddr, if k.lport == 0 then port else k.lport)
  }

  function Disconnected(k: Key): Key {
    k.(faddr := 0, fport := 0)
  }

  datatype Op = Connecting(who: nat, faddr: nat, fport: nat, port: nat) | Disconnecting(who: nat)

  function Apply(ks: seq<Key>, op: Op): seq<Key> {
    if op.who >= |ks| then ks
    else if op.Connecting? then ks[op.who := Connected(ks[op.who], op.faddr, op.fport, op.port)]
    else ks[op.who := Disconnected(ks[op.who])]
  }

  function ApplyAll(ks: seq<Key>, ops: seq<Op>): seq<Key> {
    if ops == [] then ks else Apply(ApplyAll(ks, ops[..|ops| - 1]), ops[|ops| - 1])
  }

  /** The peer that the last operation on session `i` left it with, and the local port that the
      first connecting operation gave it. */
  function PeerOf(ops: seq<Op>, i: nat): (nat, nat) {
    if ops == [] then (0, 0)
    else var op := ops[|ops| - 1];
      if op.who != i then PeerOf(ops[..|ops| - 1], i)
      else if op.Connecting? then (op.faddr, op.fport) else (0, 0)
  }

  function PortOf(ops: seq<Op>, i: nat): nat {
    if ops == [] then 0
    else var before := PortOf(ops[..|ops| - 1], i); var op := ops[|ops| - 1];
      if before == 0 && op.who == i && op.Connecting? then op.port else before
  }

  lemma {:induction false} HistoryDecides(ks: seq<Key>, ops: seq<Op>, addr: nat, i: nat)
    requires i < |ks| && ks[i] == Key(0, 0, addr, 0)
    ensures |ApplyAll(ks, ops)| == |ks|
    ensures ApplyAll(ks, ops)[i] == Key(PeerOf(ops, i).0, PeerOf(ops, i).1, addr, PortOf(ops, i))
  {
    if ops != [] {
      HistoryDecides(ks, ops[..|ops| - 1], addr, i);
    }
  }

  ghost predicate Fresh(ks: seq<Key>, addr: nat) {
    forall i :: 0 <= i < |ks| ==> ks[i] == Key(0, 0, addr, 0)
  }

  /** After any sequence of connects and disconnects, a packet from the peer that session `i`
      was last connected to, to its address and port, goes to a session connected to exactly
      that peer, whatever wildcard sessions there are. Which sessions are alive does not matter
      as long as `i` is. */
  lemma ConnectedSessionGetsItsPackets(ks: seq<Key>, ops: seq<Op>, addr: nat, i: nat, live: seq<Option<Key>>, at: nat)
    requires Fresh(ks, addr) && addr != 0 && i < |ks| == |live|
    requires PeerOf(ops, i).0 != 0 && PeerOf(ops, i).1 != 0
    requires forall j :: 0 <= j < |live| && j < |ApplyAll(ks, ops)| ==>
        live[j] == None || live[j] == Some(ApplyAll(ks, ops)[j])
    requires live[i].Some?
    requires FirstBest(live, Key(PeerOf(ops, i).0, PeerOf(ops, i).1, addr, PortOf(ops, i)), at)
    ensures PeerOf(ops, at) == PeerOf(ops, i) && PortOf(ops, at) == PortOf(ops, i)
  {
    HistoryDecides(ks, ops, addr, i);
    HistoryDecides(ks, ops, addr, at);
    ExactWins(live, Key(PeerOf(ops, i).0, PeerOf(ops, i).1, addr, PortOf(ops, i)), at, i);
  }

  /** No session ever gets a packet of a peer other than the one it was last connected to. */
  lemma NeverAnotherPeer(ks: seq<Key>, ops: seq<Op>, addr: nat, live: seq<Option<Key>>, q: Key, at: nat)
    requires Fresh(ks, addr) && |ks| == |live|
    requires forall j :: 0 <= j < |live| && j < |ApplyAll(ks, ops)| ==>
        live[j] == None || live[j] == Some(ApplyAll(ks, ops)[j])
    requires FirstBest(live, q, at)
    ensures PortOf(ops, at) == q.lport
    ensures PeerOf(ops, at).0 != 0 ==> PeerOf(ops, at).0 == q.faddr
    ensures PeerOf(ops, at).1 != 0 ==> PeerOf(ops, at).1 == q.fport
  {
    HistoryDecides(ks, ops, addr, at);
  }
}
