/** The table in which each thread finds its own implicit producer: a chain of open-addressing
    hash tables, the newest in front, shared by any number of threads. Every atomic operation
    of `get_or_add_implicit_producer` is one step. Slots are never emptied again, because
    thread-exit support is compiled out. */
module ProducerHash {
  import opened Modular

  const INITIAL_IMPLICIT_PRODUCER_HASH_SIZE: nat := 32

  datatype Key = Empty | Id(thread: nat)

  /** `dist` is history: how many slots past its home position the key was put. */
  datatype Slot = Slot(key: Key, value: nat, dist: nat)

  /** A table of `32 * 2^bits` slots. */
  datatype Table = Table(bits: nat, slots: seq<Slot>)

  datatype Result = Nothing | Null | Got(producer: nat)

  /** Program counters, each naming the atomic operation the thread performs next. `main` and
      `h` are positions in the chain of tables, `d` counts the probes made in a table, `n` is
      the count the thread drew. */
  datatype Pc =
    | Idle(last: Result)
    | LoadMain
    | Probe(main: nat, h: nat, d: nat)
    | ReadValue(main: nat, h: nat, d: nat)
    | LazyLoad(main: nat, d: nat, value: nat)
    | LazyCas(main: nat, d: nat, value: nat)
    | LazyStore(main: nat, d: nat, value: nat)
    | Draw(main: nat)
    | TestLock(main: nat, n: nat)
    | Reload(n: nat)
    | Publish(main: nat, n: nat)
    | FailCount
    | FailUnlock
    | Unlock(main: nat, n: nat)
    | TryAdd(main: nat, n: nat)
    | GiveUp
    | LoadAgain(n: nat)
    | InsertLoad(main: nat, d: nat, value: nat)
    | InsertCas(main: nat, d: nat, value: nat)
    | InsertStore(main: nat, d: nat, value: nat)

  /** `tables`, `count`, `locked` and `producers` (how many were created) are shared; `hash` is
      each thread's hashed id. The rest is history: the threads that count, in the order they
      drew, what each drew, which producer each created, where each was first put, and who has
      the resize lock. */
  datatype State = State(
    tables: seq<Table>,
    count: nat,
    locked: bool,
    producers: nat,
    hash: seq<nat>,
    pcs: seq<Pc>,
    live: seq<nat>,
    ticket: map<nat, nat>,
    made: map<nat, nat>,
    home: map<nat, (nat, nat)>,
    holder: int)

  ghost function Capacity(bits: nat): (c: nat)
    ensures c >= 32 && c % 4 == 0
  {
    if bits == 0 then INITIAL_IMPLICIT_PRODUCER_HASH_SIZE else 2 * Capacity(bits - 1)
  }

  /** Three quarters of the slots: the most a table may ever be asked to hold. */
  ghost function Limit(bits: nat): nat {
    Capacity(bits) / 2 + Capacity(bits) / 4
  }

  /** Doubling until the drawn count is below half the slots. */
  ghost function Fitting(bits: nat, n: nat): (b: nat)
    ensures b >= bits && n < Capacity(b) / 2
    decreases if n < Capacity(bits) / 2 then 0 else 1 + n - Capacity(bits) / 2
  {
    if n < Capacity(bits) / 2 then bits else Fitting(bits + 1, n)
  }

  /** The slot of the `d`-th probe. */
  ghost function Pos(hash: nat, d: nat, capacity: nat): (p: nat)
    requires capacity > 0
    ensures p < capacity
  {
    (hash + d) % capacity
  }

  ghost function NewTable(bits: nat): Table {
    Table(bits, seq(Capacity(bits), _ => Slot(Empty, 0, 0)))
  }

  ghost predicate Init(s: State) {
    && s == State([NewTable(0)], 0, false, 0, s.hash, s.pcs, [], map[], map[], map[], -1)
    && |s.hash| == |s.pcs|
    && forall t :: 0 <= t < |s.pcs| ==> s.pcs[t] == Idle(Nothing)
  }

  // ---- Steps ----------------------------------------------------------------------------

  ghost predicate Shaped(s: State) {
    && s.tables != [] && |s.hash| == |s.pcs|
    && forall h :: 0 <= h < |s.tables| ==> |s.tables[h].slots| == Capacity(s.tables[h].bits)
  }

  ghost predicate InRange(s: State, p: Pc) {
    match p
    case Probe(main, h, _) => h <= main < |s.tables|
    case ReadValue(main, h, _) => h <= main < |s.tables|
    case LazyLoad(main, _, _) => main < |s.tables|
    case LazyCas(main, _, _) => main < |s.tables|
    case LazyStore(main, _, _) => main < |s.tables|
    case Draw(main) => main < |s.tables|
    case TestLock(main, _) => main < |s.tables|
    case Publish(main, _) => main < |s.tables|
    case Unlock(main, _) => main < |s.tables|
    case TryAdd(main, _) => main < |s.tables|
    case InsertLoad(main, _, _) => main < |s.tables|
    case InsertCas(main, _, _) => main < |s.tables|
    case InsertStore(main, _, _) => main < |s.tables|
    case FailCount => s.count > 0
    case GiveUp => s.count > 0
    case _ => true
  }

  ghost predicate Enabled(s: State, t: nat) {
    Shaped(s) && t < |s.pcs| && InRange(s, s.pcs[t])
  }

  /** Where the `d`-th probe of thread `t` in table `h` lands, and what is there. */
  ghost function At(s: State, t: nat, h: nat, d: nat): (p: nat)
    requires Shaped(s) && t < |s.pcs| && h < |s.tables|
    ensures p < |s.tables[h].slots|
  {
    Pos(s.hash[t], d, |s.tables[h].slots|)
  }

  ghost function Probed(slots: seq<Slot>, hash: nat, d: nat): Slot
    requires slots != []
  {
    slots[Pos(hash, d, |slots|)]
  }

  ghost function SlotAt(s: State, t: nat, h: nat, d: nat): Slot
    requires Shaped(s) && t < |s.pcs| && h < |s.tables|
  {
    Probed(s.tables[h].slots, s.hash[t], d)
  }

  ghost function WithSlot(s: State, h: nat, q: nat, slot: Slot): State
    requires h < |s.tables| && q < |s.tables[h].slots|
  {
    s.(tables := s.tables[h := s.tables[h].(slots := s.tables[h].slots[q := slot])])
  }

  ghost function Goto(s: State, t: nat, p: Pc): State
    requires t < |s.pcs|
  {
    s.(pcs := s.pcs[t := p])
  }

  ghost function Without(q: seq<nat>, t: nat): seq<nat> {
    if q == [] then [] else if q[|q| - 1] == t then q[..|q| - 1] else Without(q[..|q| - 1], t) + [q[|q| - 1]]
  }

  ghost function Uncount(s: State, t: nat): State
    requires s.count > 0
  {
    s.(count := s.count - 1, live := Without(s.live, t))
  }

  /** One atomic operation of thread `t`; `fails` says whether an allocation made by it fails. */
  ghost function Step(s: State, t: nat, fails: bool): State
    requires Enabled(s, t)
  {
    match s.pcs[t]
    case Idle(_) => Goto(s, t, LoadMain)
    case LoadMain => Goto(s, t, Probe(|s.tables| - 1, |s.tables| - 1, 0))
    case Probe(main, h, d) =>
      var key := SlotAt(s, t, h, d).key;
      if key == Id(t) then Goto(s, t, ReadValue(main, h, d))
      else if key == Empty then Goto(s, t, if h == 0 then Draw(main) else Probe(main, h - 1, 0))
      else Goto(s, t, Probe(main, h, d + 1))
    case ReadValue(main, h, d) =>
      var value := SlotAt(s, t, h, d).value;
      Goto(s, t, if h == main then Idle(Got(value)) else LazyLoad(main, 0, value))
    case LazyLoad(main, d, value) =>
      Goto(s, t, if SlotAt(s, t, main, d).key == Empty then LazyCas(main, d, value) else LazyLoad(main, d + 1, value))
    case LazyCas(main, d, value) =>
      var slot := SlotAt(s, t, main, d);
      if slot.key == Empty
      then Goto(WithSlot(s, main, At(s, t, main, d), Slot(Id(t), slot.value, d)), t, LazyStore(main, d, value))
      else Goto(s, t, LazyLoad(main, d + 1, value))
    case LazyStore(main, d, value) =>
      Goto(WithSlot(s, main, At(s, t, main, d), SlotAt(s, t, main, d).(value := value)), t, Idle(Got(value)))
    case Draw(main) =>
      Goto(s.(count := s.count + 1, live := s.live + [t], ticket := s.ticket[t := s.count + 1]),
           t, TestLock(main, s.count + 1))
    case TestLock(main, n) =>
      if n >= Capacity(s.tables[main].bits) / 2 && !s.locked
      then Goto(s.(locked := true, holder := t), t, Reload(n))
      else Goto(s, t, TryAdd(main, n))
    case Reload(n) =>
      var main := |s.tables| - 1;
      Goto(s, t, if n >= Capacity(s.tables[main].bits) / 2 then Publish(main, n) else Unlock(main, n))
    case Publish(main, n) =>
      if fails then Goto(s, t, FailCount)
      else Goto(s.(tables := s.tables + [NewTable(Fitting(s.tables[main].bits + 1, n))]), t, Unlock(|s.tables|, n))
    case FailCount => Goto(Uncount(s, t), t, FailUnlock)
    case FailUnlock => Goto(s.(locked := false, holder := -1), t, Idle(Null))
    case Unlock(main, n) => Goto(s.(locked := false, holder := -1), t, TryAdd(main, n))
    case TryAdd(main, n) =>
      if n >= Limit(s.tables[main].bits) then Goto(s, t, LoadAgain(n))
      else if fails then Goto(s, t, GiveUp)
      else Goto(s.(producers := s.producers + 1, made := s.made[t := s.producers]), t, InsertLoad(main, 0, s.producers))
    case GiveUp => Goto(Uncount(s, t), t, Idle(Null))
    case LoadAgain(n) => Goto(s, t, TestLock(|s.tables| - 1, n))
    case InsertLoad(main, d, value) =>
      var key := SlotAt(s, t, main, d).key;
      Goto(s, t, if key == Empty then InsertCas(main, d, value) else InsertLoad(main, d + 1, value))
    case InsertCas(main, d, value) =>
      var slot := SlotAt(s, t, main, d);
      if slot.key == Empty
      then Goto(WithSlot(s, main, At(s, t, main, d), Slot(Id(t), slot.value, d)).(
                  home := s.home[t := (main, At(s, t, main, d))]), t, InsertStore(main, d, value))
      else Goto(s, t, InsertLoad(main, d + 1, value))
    case InsertStore(main, d, value) =>
      Goto(WithSlot(s, main, At(s, t, main, d), SlotAt(s, t, main, d).(value := value)), t, Idle(Got(value)))
  }

  // ---- The invariant ---------------------------------------------------------------------

  /** The first `d` probes meet taken slots. */
  ghost predicate PathTaken(slots: seq<Slot>, hash: nat, d: nat)
    requires slots != []
  {
    forall e: nat :: e < d ==> Probed(slots, hash, e).key != Empty
  }

  /** The first `d` probes do not meet thread `t`. */
  ghost predicate PathWithout(slots: seq<Slot>, hash: nat, d: nat, t: nat)
    requires slots != []
  {
    forall e: nat :: e < d ==> Probed(slots, hash, e).key != Id(t)
  }

  ghost predicate NotIn(slots: seq<Slot>, t: nat) {
    forall q :: 0 <= q < |slots| ==> slots[q].key != Id(t)
  }

  ghost predicate Storing(p: Pc, h: nat) {
    (p.LazyStore? || p.InsertStore?) && p.main == h
  }

  /** A taken slot is its thread's only one in the table, on the thread's probe path, within
      the table's limit, and holds the thread's producer unless the thread is storing it. */
  ghost predicate SlotInv(s: State, h: nat, q: nat)
    requires Shaped(s) && h < |s.tables| && q < |s.tables[h].slots|
  {
    var slot := s.tables[h].slots[q];
    slot.key.Id? ==>
      var u := slot.key.thread;
      && u < |s.pcs| && u in s.home && s.home[u].0 <= h && u in s.made && u in s.ticket
      && slot.dist < |s.tables[h].slots| && q == At(s, u, h, slot.dist)
          && PathTaken(s.tables[h].slots, s.hash[u], slot.dist)
      && s.ticket[u] < Limit(s.tables[h].bits)
      && (slot.value == s.made[u] || Storing(s.pcs[u], h))
  }

  ghost predicate UniqueKeys(slots: seq<Slot>) {
    forall p, q :: 0 <= p < q < |slots| && slots[p].key.Id? ==> slots[p].key != slots[q].key
  }

  ghost predicate HomeInv(s: State, u: nat)
    requires u in s.home
  {
    var (h, q) := s.home[u];
    && u < |s.pcs| && h < |s.tables| && q < |s.tables[h].slots| && s.tables[h].slots[q].key == Id(u)
  }

  /** The thread has drawn a count and not given it back. */
  ghost predicate Counted(s: State, t: nat)
    requires t < |s.pcs|
  {
    var p := s.pcs[t];
    || t in s.made
    || p.TestLock? || p.Reload? || p.Publish? || p.FailCount? || p.Unlock? || p.TryAdd? || p.GiveUp? || p.LoadAgain?
  }

  ghost predicate Holds(p: Pc) {
    p.Reload? || p.Publish? || p.FailCount? || p.FailUnlock? || p.Unlock?
  }

  /** Inside the insertion of a new producer, before the key is in. */
  ghost predicate Inserting(p: Pc) {
    p.InsertLoad? || p.InsertCas?
  }

  ghost predicate LiveInv(s: State) {
    && |s.live| == s.count
    && (forall i, j :: 0 <= i < j < |s.live| ==> s.live[i] != s.live[j])
    && (forall i :: 0 <= i < |s.live| ==> s.live[i] < |s.pcs| && s.live[i] in s.ticket && i < s.ticket[s.live[i]])
    && (forall t :: 0 <= t < |s.pcs| ==> (t in s.live <==> Counted(s, t)))
  }

  /** A probe sequence of `t` for a key that is not there. */
  ghost predicate Searching(s: State, t: nat, h: nat, d: nat)
    requires Shaped(s) && t < |s.pcs| && h < |s.tables|
  {
    d < |s.tables[h].slots| && PathTaken(s.tables[h].slots, s.hash[t], d)
  }

  ghost predicate Drawn(s: State, t: nat, n: nat) {
    t in s.ticket && s.ticket[t] == n && t !in s.made
  }

  ghost predicate ThreadInv(s: State, t: nat)
    requires Shaped(s) && t < |s.pcs|
  {
    && (t in s.home ==> t in s.made)
    && (t in s.made ==> t in s.home || Inserting(s.pcs[t]))
    && (Holds(s.pcs[t]) <==> s.holder == t)
    && InRange(s, s.pcs[t])
    && match s.pcs[t]
       case Idle(last) => if t in s.made then last == Got(s.made[t]) else !last.Got?
       case LoadMain => true
       case Probe(main, h, d) =>
         && Searching(s, t, h, d)
         && PathWithout(s.tables[h].slots, s.hash[t], d, t)
         && (h < main ==> NotIn(s.tables[main].slots, t))
         && (t in s.home ==> s.home[t].0 <= h)
       case ReadValue(main, h, d) => SlotAt(s, t, h, d).key == Id(t) && (h < main ==> NotIn(s.tables[main].slots, t))
       case LazyLoad(main, d, value) =>
         && Searching(s, t, main, d) && NotIn(s.tables[main].slots, t)
         && t in s.home && s.home[t].0 < main && t in s.made && value == s.made[t]
       case LazyCas(main, d, value) =>
         && Searching(s, t, main, d) && NotIn(s.tables[main].slots, t)
         && t in s.home && s.home[t].0 < main && t in s.made && value == s.made[t]
       case LazyStore(main, d, value) => SlotAt(s, t, main, d).key == Id(t) && t in s.made && value == s.made[t]
       case Draw(main) => t !in s.made
       case TestLock(main, n) => Drawn(s, t, n)
       case Reload(n) => Drawn(s, t, n)
       case Publish(main, n) => Drawn(s, t, n) && main == |s.tables| - 1
       case FailCount => t !in s.made
       case FailUnlock => t !in s.made
       case Unlock(main, n) => Drawn(s, t, n)
       case TryAdd(main, n) => Drawn(s, t, n)
       case GiveUp => t !in s.made
       case LoadAgain(n) => Drawn(s, t, n)
       case InsertLoad(main, d, value) =>
         && Searching(s, t, main, d) && t !in s.home && t in s.made && value == s.made[t]
         && t in s.ticket && s.ticket[t] < Limit(s.tables[main].bits)
       case InsertCas(main, d, value) =>
         && Searching(s, t, main, d) && t !in s.home && t in s.made && value == s.made[t]
         && t in s.ticket && s.ticket[t] < Limit(s.tables[main].bits)
       case InsertStore(main, d, value) => SlotAt(s, t, main, d).key == Id(t) && t in s.made && value == s.made[t]
  }

  ghost predicate Growing(s: State) {
    forall g, h :: 0 <= g < h < |s.tables| ==> s.tables[g].bits < s.tables[h].bits
  }

  ghost predicate MadeInv(s: State) {
    && (forall t :: t in s.made ==> t < |s.pcs| && s.made[t] < s.producers)
    && (forall t, u :: t in s.made && u in s.made && t != u ==> s.made[t] != s.made[u])
    && (s.locked <==> s.holder >= 0)
  }

  ghost predicate SlotsInv(s: State)
    requires Shaped(s)
  {
    forall h, q :: 0 <= h < |s.tables| && 0 <= q < |s.tables[h].slots| ==> SlotInv(s, h, q)
  }

  ghost predicate Inv(s: State) {
    && Shaped(s) && Growing(s) && MadeInv(s) && LiveInv(s)
    && SlotsInv(s)
    && (forall h :: 0 <= h < |s.tables| ==> UniqueKeys(s.tables[h].slots))
    && (forall u :: u in s.home ==> HomeInv(s, u))
    && (forall t :: 0 <= t < |s.pcs| ==> ThreadInv(s, t))
  }

  // ---- A table never fills up -------------------------------------------------------------

  /** The threads that are in a run of slots, in slot order. */
  ghost function Occupants(slots: seq<Slot>): seq<nat> {
    if slots == [] then []
    else if slots[|slots| - 1].key.Id? then Occupants(slots[..|slots| - 1]) + [slots[|slots| - 1].key.thread]
    else Occupants(slots[..|slots| - 1])
  }

  lemma {:induction false} OccupantIn(slots: seq<Slot>, u: nat)
    ensures u in Occupants(slots) <==> exists q :: 0 <= q < |slots| && slots[q].key == Id(u)
  {
    if slots != [] {
      var rest := slots[..|slots| - 1];
      OccupantIn(rest, u);
      if u in Occupants(rest) {
        var q :| 0 <= q < |rest| && rest[q].key == Id(u);
        assert slots[q].key == Id(u);
      } else if q :| 0 <= q < |slots| && slots[q].key == Id(u) {
        assert q < |rest| ==> rest[q].key == Id(u);
      }
    }
  }

  lemma {:induction false} OccupantsDistinct(slots: seq<Slot>)
    requires UniqueKeys(slots)
    ensures forall i, j :: 0 <= i < j < |Occupants(slots)| ==> Occupants(slots)[i] != Occupants(slots)[j]
  {
    if slots != [] {
      var rest := slots[..|slots| - 1];
      OccupantsDistinct(rest);
      if slots[|slots| - 1].key.Id? {
        var u := slots[|slots| - 1].key.thread;
        OccupantIn(rest, u);
      }
    }
  }

  /** Distinct numbers below `n` are at most `n` many. */
  lemma {:induction false} Pigeonhole(q: seq<nat>, n: nat)
    requires forall i, j :: 0 <= i < j < |q| ==> q[i] != q[j]
    requires forall i :: 0 <= i < |q| ==> q[i] < n
    ensures |q| <= n
  {
    assert |q| > 0 ==> q[0] < n;
    if n == 0 {
    } else if k :| 0 <= k < |q| && q[k] == n - 1 {
      Pigeonhole(q[..k] + q[k + 1..], n - 1);
    } else {
      Pigeonhole(q, n - 1);
    }
  }

  ghost function Rank(live: seq<nat>, u: nat): (i: nat)
    requires u in live
    ensures i < |live| && live[i] == u
  {
    var i :| 0 <= i < |live| && live[i] == u;
    i
  }

  /** Occupancy stays below three quarters in every table, old or new. */
  lemma OccupancyBelowLimit(s: State, h: nat)
    requires Inv(s) && h < |s.tables|
    ensures |Occupants(s.tables[h].slots)| < Limit(s.tables[h].bits) < |s.tables[h].slots|
  {
    var us, limit := Occupants(s.tables[h].slots), Limit(s.tables[h].bits);
    OccupantsDistinct(s.tables[h].slots);
    forall u | u in us ensures u in s.live && Rank(s.live, u) < limit - 1 {
      OccupantIn(s.tables[h].slots, u);
      var q :| 0 <= q < |s.tables[h].slots| && s.tables[h].slots[q].key == Id(u);
      assert SlotInv(s, h, q);
      assert Counted(s, u);
    }
    var ranks := seq(|us|, i requires 0 <= i < |us| => Rank(s.live, us[i]));
    Pigeonhole(ranks, limit - 1);
  }

  lemma {:induction false} AllTakenOccupants(slots: seq<Slot>)
    requires forall q :: 0 <= q < |slots| ==> slots[q].key.Id?
    ensures |Occupants(slots)| == |slots|
  {
    if slots != [] { AllTakenOccupants(slots[..|slots| - 1]); }
  }

  /** So there is an empty slot, and every probe sequence meets one in time. */
  lemma EmptySlotExists(s: State, h: nat) returns (q: nat)
    requires Inv(s) && h < |s.tables|
    ensures q < |s.tables[h].slots| && s.tables[h].slots[q].key == Empty
  {
    OccupancyBelowLimit(s, h);
    if forall p :: 0 <= p < |s.tables[h].slots| ==> s.tables[h].slots[p].key.Id? {
      AllTakenOccupants(s.tables[h].slots);
    }
    q :| 0 <= q < |s.tables[h].slots| && s.tables[h].slots[q].key == Empty;
  }

  /** Every slot is some thread's `e`-th probe, for one `e` below the capacity. */
  lemma ProbeReaches(hash: nat, capacity: nat, q: nat) returns (e: nat)
    requires q < capacity
    ensures e < capacity && Pos(hash, e, capacity) == q
  {
    var start := hash % capacity;
    var quot := hash / capacity;
    assert hash == quot * capacity + start;
    if start <= q {
      e := q - start;
      DivUnique(hash + e, quot, q, capacity);
    } else {
      e := q + capacity - start;
      DivUnique(hash + e, quot + 1, q, capacity);
    }
  }

  /** A probe sequence that met only taken slots has not used up the table. */
  lemma ProbesStayInTable(s: State, hash: nat, h: nat, d: nat)
    requires Inv(s) && h < |s.tables| && PathTaken(s.tables[h].slots, hash, d)
    ensures d < |s.tables[h].slots|
  {
    var q := EmptySlotExists(s, h);
    var e := ProbeReaches(hash, |s.tables[h].slots|, q);
    assert Probed(s.tables[h].slots, hash, e).key == Empty;
  }

  // ---- Steps that only move a program counter or the lock ----------------------------------

  ghost predicate OnlyControl(s: State, s': State, t: nat) {
    && t < |s.pcs| == |s'.pcs|
    && s' == s.(pcs := s.pcs[t := s'.pcs[t]], locked := s'.locked, holder := s'.holder)
    && (s'.holder == s.holder || (s.holder < 0 && s'.holder == t) || (s.holder == t && s'.holder < 0))
    && (s'.locked <==> s'.holder >= 0)
    && !s.pcs[t].LazyStore? && !s.pcs[t].InsertStore?
    && (Counted(s, t) <==> Counted(s', t))
  }

  lemma ControlKeepsOther(s: State, s': State, t: nat, u: nat)
    requires Shaped(s) && OnlyControl(s, s', t) && u < |s.pcs| && u != t && ThreadInv(s, u)
    ensures ThreadInv(s', u)
  {
  }

  lemma ControlKeepsSlot(s: State, s': State, t: nat, h: nat, q: nat)
    requires Shaped(s) && OnlyControl(s, s', t) && h < |s.tables| && q < |s.tables[h].slots| && SlotInv(s, h, q)
    ensures SlotInv(s', h, q)
  {
  }

  /** Who counts does not change unless somebody draws, gives back or creates. */
  lemma SameLive(s: State, s': State, t: nat)
    requires LiveInv(s) && t < |s.pcs| == |s'.pcs| && s'.pcs == s.pcs[t := s'.pcs[t]]
    requires s'.live == s.live && s'.ticket == s.ticket && s'.made == s.made && s'.count == s.count
    requires Counted(s, t) <==> Counted(s', t)
    ensures LiveInv(s')
  {
    forall u | 0 <= u < |s'.pcs| ensures u in s'.live <==> Counted(s', u) { assert u in s.live <==> Counted(s, u); }
  }

  lemma ControlKeepsInv(s: State, s': State, t: nat)
    requires Inv(s) && OnlyControl(s, s', t) && ThreadInv(s', t)
    ensures Inv(s')
  {
    forall h, q | 0 <= h < |s'.tables| && 0 <= q < |s'.tables[h].slots| ensures SlotInv(s', h, q) {
      ControlKeepsSlot(s, s', t, h, q);
    }
    forall u | u in s'.home ensures HomeInv(s', u) { assert HomeInv(s, u); }
    forall u | 0 <= u < |s'.pcs| ensures ThreadInv(s', u) { if u != t { ControlKeepsOther(s, s', t, u); } }
    SameLive(s, s', t);
  }

  /** A search that meets an empty slot has shown that its key is not in the table. */
  lemma EmptyMeansAbsent(s: State, t: nat, h: nat, d: nat)
    requires Inv(s) && t < |s.pcs| && h < |s.tables|
    requires PathWithout(s.tables[h].slots, s.hash[t], d, t)
    requires SlotAt(s, t, h, d).key == Empty
    ensures NotIn(s.tables[h].slots, t)
  {
    var slots := s.tables[h].slots;
    forall q | 0 <= q < |slots| ensures slots[q].key != Id(t) {
      assert SlotInv(s, h, q);
      var e := slots[q].dist;
      assert slots[q].key == Id(t) ==> Probed(slots, s.hash[t], e).key == Id(t);
    }
  }

  /** The next probe, after one that met a taken slot. */
  lemma NextProbe(s: State, t: nat, h: nat, d: nat)
    requires Inv(s) && t < |s.pcs| && h < |s.tables|
    requires PathTaken(s.tables[h].slots, s.hash[t], d) && SlotAt(s, t, h, d).key != Empty
    ensures Searching(s, t, h, d + 1)
  {
    ProbesStayInTable(s, s.hash[t], h, d + 1);
  }

  /** All that a moving thread relies on. */
  ghost predicate Local(s: State, t: nat) {
    Enabled(s, t) && ThreadInv(s, t) && (s.locked <==> s.holder >= 0)
  }

  lemma StartLands(s: State, t: nat, fails: bool)
    requires Local(s, t) && (s.pcs[t].Idle? || s.pcs[t].LoadMain?)
    requires t in s.home ==> HomeInv(s, t)
    ensures OnlyControl(s, Step(s, t, fails), t) && ThreadInv(Step(s, t, fails), t)
  {
  }

  lemma ProbeHitLands(s: State, t: nat, fails: bool)
    requires Local(s, t) && s.pcs[t].Probe? && SlotAt(s, t, s.pcs[t].h, s.pcs[t].d).key == Id(t)
    ensures OnlyControl(s, Step(s, t, fails), t) && ThreadInv(Step(s, t, fails), t)
  {
  }

  lemma ProbeMissLands(s: State, t: nat, fails: bool)
    requires Local(s, t) && s.pcs[t].Probe? && SlotAt(s, t, s.pcs[t].h, s.pcs[t].d).key == Empty
    requires NotIn(s.tables[s.pcs[t].h].slots, t) && (t in s.home ==> HomeInv(s, t))
    ensures OnlyControl(s, Step(s, t, fails), t) && ThreadInv(Step(s, t, fails), t)
  {
  }

  lemma ProbeOnLands(s: State, t: nat, fails: bool)
    requires Local(s, t) && s.pcs[t].Probe?
    requires SlotAt(s, t, s.pcs[t].h, s.pcs[t].d).key.Id? && SlotAt(s, t, s.pcs[t].h, s.pcs[t].d).key != Id(t)
    requires Searching(s, t, s.pcs[t].h, s.pcs[t].d + 1)
    ensures OnlyControl(s, Step(s, t, fails), t) && ThreadInv(Step(s, t, fails), t)
  {
    var p := s.pcs[t];
    PathGrows(s.tables[p.h].slots, s.hash[t], p.d, t);
  }

  lemma PathGrows(slots: seq<Slot>, hash: nat, d: nat, t: nat)
    requires slots != [] && PathWithout(slots, hash, d, t) && Probed(slots, hash, d).key != Id(t)
    ensures PathWithout(slots, hash, d + 1, t)
  {
  }

  lemma ReadValueLands(s: State, t: nat, fails: bool)
    requires Local(s, t) && (s.pcs[t].ReadValue?)
    requires var p := s.pcs[t]; SlotInv(s, p.h, At(s, t, p.h, p.d))
    ensures OnlyControl(s, Step(s, t, fails), t) && ThreadInv(Step(s, t, fails), t)
  {
  }

  lemma LazyLands(s: State, t: nat, fails: bool)
    requires Local(s, t) && (s.pcs[t].LazyLoad? || s.pcs[t].LazyCas?)
    requires SlotAt(s, t, s.pcs[t].main, s.pcs[t].d).key != Empty ==> Searching(s, t, s.pcs[t].main, s.pcs[t].d + 1)
    requires s.pcs[t].LazyCas? ==> SlotAt(s, t, s.pcs[t].main, s.pcs[t].d).key != Empty
    ensures OnlyControl(s, Step(s, t, fails), t) && ThreadInv(Step(s, t, fails), t)
  {
  }

  lemma InsertLands(s: State, t: nat, fails: bool)
    requires Local(s, t) && (s.pcs[t].InsertLoad? || s.pcs[t].InsertCas?)
    requires SlotAt(s, t, s.pcs[t].main, s.pcs[t].d).key != Empty ==> Searching(s, t, s.pcs[t].main, s.pcs[t].d + 1)
    requires s.pcs[t].InsertCas? ==> SlotAt(s, t, s.pcs[t].main, s.pcs[t].d).key != Empty
    ensures OnlyControl(s, Step(s, t, fails), t) && ThreadInv(Step(s, t, fails), t)
  {
  }

  lemma ResizeLands(s: State, t: nat, fails: bool)
    requires Local(s, t)
    requires var p := s.pcs[t]; p.TestLock? || p.Reload? || p.FailUnlock? || p.Unlock? || p.LoadAgain?
    ensures OnlyControl(s, Step(s, t, fails), t) && ThreadInv(Step(s, t, fails), t)
  {
  }

  lemma RefuseLands(s: State, t: nat, fails: bool)
    requires Local(s, t) && (s.pcs[t].Publish? || s.pcs[t].TryAdd?)
    requires s.count > 0
    requires fails || (s.pcs[t].TryAdd? && s.pcs[t].n >= Limit(s.tables[s.pcs[t].main].bits))
    ensures OnlyControl(s, Step(s, t, fails), t) && ThreadInv(Step(s, t, fails), t)
  {
  }

  lemma SearchStep(s: State, t: nat, fails: bool)
    requires Inv(s) && Enabled(s, t) && (s.pcs[t].Idle? || s.pcs[t].LoadMain? || s.pcs[t].Probe? || s.pcs[t].ReadValue?)
    ensures Inv(Step(s, t, fails))
  {
    var p := s.pcs[t];
    assert ThreadInv(s, t);
    assert t in s.home ==> HomeInv(s, t);
    if p.Probe? {
      if SlotAt(s, t, p.h, p.d).key == Empty {
        EmptyMeansAbsent(s, t, p.h, p.d);
        ProbeMissLands(s, t, fails);
      } else if SlotAt(s, t, p.h, p.d).key == Id(t) {
        ProbeHitLands(s, t, fails);
      } else {
        NextProbe(s, t, p.h, p.d);
        ProbeOnLands(s, t, fails);
      }
    } else if p.ReadValue? {
      assert SlotInv(s, p.h, At(s, t, p.h, p.d));
      ReadValueLands(s, t, fails);
    } else {
      StartLands(s, t, fails);
    }
    ControlKeepsInv(s, Step(s, t, fails), t);
  }

  /** Nobody who has drawn a count finds the count at zero. */
  lemma CountedIsPositive(s: State, t: nat)
    requires LiveInv(s) && t < |s.pcs| && Counted(s, t)
    ensures s.count > 0
  {
    assert t in s.live;
  }

  lemma WaitStep(s: State, t: nat, fails: bool)
    requires Inv(s) && Enabled(s, t)
    requires var p := s.pcs[t];
      || p.TestLock? || p.Reload? || p.FailUnlock? || p.Unlock? || p.LoadAgain?
      || (p.Publish? && fails) || (p.TryAdd? && (fails || p.n >= Limit(s.tables[p.main].bits)))
    ensures Inv(Step(s, t, fails))
  {
    assert ThreadInv(s, t);
    if s.pcs[t].Publish? || s.pcs[t].TryAdd? {
      CountedIsPositive(s, t);
      RefuseLands(s, t, fails);
    } else {
      ResizeLands(s, t, fails);
    }
    ControlKeepsInv(s, Step(s, t, fails), t);
  }

  /** Probing for a free slot: everything but the exchange that succeeds. */
  lemma PlaceStep(s: State, t: nat, fails: bool)
    requires Inv(s) && Enabled(s, t)
    requires var p := s.pcs[t];
      || p.LazyLoad? || p.InsertLoad?
      || ((p.LazyCas? || p.InsertCas?) && SlotAt(s, t, p.main, p.d).key != Empty)
    ensures Inv(Step(s, t, fails))
  {
    var p := s.pcs[t];
    assert ThreadInv(s, t);
    if SlotAt(s, t, p.main, p.d).key != Empty { NextProbe(s, t, p.main, p.d); }
    if p.LazyLoad? || p.LazyCas? { LazyLands(s, t, fails); } else { InsertLands(s, t, fails); }
    ControlKeepsInv(s, Step(s, t, fails), t);
  }

  // ---- Filling a slot ---------------------------------------------------------------------

  /** Thread `t` put its key into the empty slot its `d`-th probe in table `h` met. */
  ghost predicate Fills(s: State, s': State, t: nat, h: nat, d: nat) {
    && Shaped(s) && t < |s.pcs| == |s'.pcs| && h < |s.tables|
    && SlotAt(s, t, h, d).key == Empty
    && var q := At(s, t, h, d);
    && s' == WithSlot(s, h, q, Slot(Id(t), s.tables[h].slots[q].value, d)).(
               pcs := s.pcs[t := s'.pcs[t]], home := s'.home)
    && (forall u :: u != t ==> (u in s.home <==> u in s'.home))
    && (forall u :: u != t && u in s.home ==> s'.home[u] == s.home[u])
    && (t in s.home ==> t in s'.home && s'.home[t] == s.home[t])
    && Storing(s'.pcs[t], h) && !Holds(s.pcs[t]) && (Counted(s, t) <==> Counted(s', t))
  }

  lemma FillKeepsPath(slots: seq<Slot>, q: nat, slot: Slot, hash: nat, d: nat, u: nat)
    requires q < |slots| && slot.key.Id? && slot.key != Id(u)
    ensures PathTaken(slots, hash, d) ==> PathTaken(slots[q := slot], hash, d)
    ensures PathWithout(slots, hash, d, u) ==> PathWithout(slots[q := slot], hash, d, u)
    ensures NotIn(slots, u) ==> NotIn(slots[q := slot], u)
  {
    var slots' := slots[q := slot];
    forall e: nat | e < d && PathTaken(slots, hash, d) ensures Probed(slots', hash, e).key != Empty {
      assert Probed(slots, hash, e).key != Empty;
    }
    forall e: nat | e < d && PathWithout(slots, hash, d, u) ensures Probed(slots', hash, e).key != Id(u) {
      assert Probed(slots, hash, e).key != Id(u);
    }
  }

  /** What a thread's facts say about a table they mention survives another thread's fill. */
  lemma FillKeepsOther(s: State, s': State, t: nat, h: nat, d: nat, u: nat)
    requires Fills(s, s', t, h, d) && u < |s.pcs| && u != t && ThreadInv(s, u)
    ensures ThreadInv(s', u)
  {
    var p := s.pcs[u];
    var q := At(s, t, h, d);
    var slot := Slot(Id(t), s.tables[h].slots[q].value, d);
    if p.Probe? {
      FillKeepsPath(s.tables[h].slots, q, slot, s.hash[u], p.d, u);
    } else if p.ReadValue? || p.LazyLoad? || p.LazyCas? || p.InsertLoad? || p.InsertCas? {
      FillKeepsPath(s.tables[h].slots, q, slot, s.hash[u], p.d, u);
    }
  }

  lemma FillKeepsSlot(s: State, s': State, t: nat, h: nat, d: nat, g: nat, q: nat)
    requires Fills(s, s', t, h, d) && g < |s.tables| && q < |s.tables[g].slots| && SlotInv(s, g, q)
    requires (g, q) != (h, At(s, t, h, d)) && !Storing(s.pcs[t], g)
    ensures SlotInv(s', g, q)
  {
    var slot := s.tables[g].slots[q];
    if slot.key.Id? && g == h {
      var at := At(s, t, h, d);
      var filled := Slot(Id(t), s.tables[h].slots[at].value, d);
      FillKeepsPath(s.tables[h].slots, at, filled, s.hash[slot.key.thread], slot.dist, t + 1);
    }
  }

  lemma FilledSlot(s: State, s': State, t: nat, h: nat, d: nat)
    requires Fills(s, s', t, h, d) && Searching(s, t, h, d)
    requires t in s'.home && s'.home[t].0 <= h && t in s.made && t in s.ticket && s.ticket[t] < Limit(s.tables[h].bits)
    ensures SlotInv(s', h, At(s, t, h, d))
  {
    var at := At(s, t, h, d);
    FillKeepsPath(s.tables[h].slots, at, Slot(Id(t), s.tables[h].slots[at].value, d), s.hash[t], d, t + 1);
  }

  lemma FillKeepsUnique(slots: seq<Slot>, q: nat, slot: Slot)
    requires UniqueKeys(slots) && q < |slots| && slot.key.Id? && NotIn(slots, slot.key.thread)
    ensures UniqueKeys(slots[q := slot])
  {
  }

  lemma FillKeepsHome(s: State, s': State, t: nat, h: nat, d: nat, u: nat)
    requires Fills(s, s', t, h, d) && u in s.home && HomeInv(s, u)
    ensures u in s'.home && HomeInv(s', u)
  {
  }

  lemma FillKeepsSlots(s: State, s': State, t: nat, h: nat, d: nat)
    requires Inv(s) && Fills(s, s', t, h, d) && Searching(s, t, h, d) && NotIn(s.tables[h].slots, t)
    requires !s.pcs[t].LazyStore? && !s.pcs[t].InsertStore?
    requires t in s'.home && s'.home[t].0 <= h && t in s.made && t in s.ticket && s.ticket[t] < Limit(s.tables[h].bits)
    ensures Shaped(s') && SlotsInv(s') && forall g :: 0 <= g < |s'.tables| ==> UniqueKeys(s'.tables[g].slots)
  {
    var at := At(s, t, h, d);
    forall g, q | 0 <= g < |s'.tables| && 0 <= q < |s'.tables[g].slots| ensures SlotInv(s', g, q) {
      if (g, q) == (h, at) { FilledSlot(s, s', t, h, d); } else { FillKeepsSlot(s, s', t, h, d, g, q); }
    }
    forall g | 0 <= g < |s'.tables| ensures UniqueKeys(s'.tables[g].slots) {
      if g == h { FillKeepsUnique(s.tables[h].slots, at, s'.tables[h].slots[at]); }
    }
  }

  lemma FillKeepsInv(s: State, s': State, t: nat, h: nat, d: nat)
    requires Inv(s) && Fills(s, s', t, h, d) && Searching(s, t, h, d) && NotIn(s.tables[h].slots, t)
    requires !s.pcs[t].LazyStore? && !s.pcs[t].InsertStore?
    requires t in s'.home && s'.home[t].0 <= h && t in s.made && t in s.ticket && s.ticket[t] < Limit(s.tables[h].bits)
    requires t !in s.home ==> HomeInv(s', t)
    requires ThreadInv(s', t)
    ensures Inv(s')
  {
    FillKeepsSlots(s, s', t, h, d);
    forall u | u in s'.home ensures HomeInv(s', u) { if u in s.home { FillKeepsHome(s, s', t, h, d, u); } }
    forall u | 0 <= u < |s'.pcs| ensures ThreadInv(s', u) { if u != t { FillKeepsOther(s, s', t, h, d, u); } }
    SameLive(s, s', t);
  }

  lemma LimitGrows(a: nat, b: nat)
    requires a <= b
    ensures Capacity(a) <= Capacity(b) && Limit(a) <= Limit(b)
    decreases b
  {
    if a < b { LimitGrows(a, b - 1); }
  }

  /** A thread that goes into a later table is within that table's limit too. */
  lemma LaterTableHasRoom(s: State, t: nat, h: nat)
    requires Inv(s) && t in s.home && s.home[t].0 < h < |s.tables|
    ensures t in s.ticket && s.ticket[t] < Limit(s.tables[h].bits)
  {
    assert HomeInv(s, t);
    assert SlotInv(s, s.home[t].0, s.home[t].1);
    LimitGrows(s.tables[s.home[t].0].bits, s.tables[h].bits);
  }

  lemma FillLands(s: State, t: nat, fails: bool)
    requires Local(s, t) && (s.pcs[t].LazyCas? || s.pcs[t].InsertCas?)
    requires SlotAt(s, t, s.pcs[t].main, s.pcs[t].d).key == Empty
    ensures var s' := Step(s, t, fails); var p := s.pcs[t];
      && Fills(s, s', t, p.main, p.d) && ThreadInv(s', t)
      && t in s'.home && s'.home[t].0 <= p.main && (t !in s.home ==> HomeInv(s', t))
  {
  }

  lemma FillStep(s: State, t: nat, fails: bool)
    requires Inv(s) && Enabled(s, t) && (s.pcs[t].LazyCas? || s.pcs[t].InsertCas?)
    requires SlotAt(s, t, s.pcs[t].main, s.pcs[t].d).key == Empty
    ensures Inv(Step(s, t, fails))
  {
    var p := s.pcs[t];
    assert ThreadInv(s, t);
    FillLands(s, t, fails);
    if p.LazyCas? {
      LaterTableHasRoom(s, t, p.main);
    } else {
      HomelessIsAbsent(s, t, p.main);
    }
    FillKeepsInv(s, Step(s, t, fails), t, p.main, p.d);
  }

  lemma HomelessIsAbsent(s: State, t: nat, h: nat)
    requires Inv(s) && t !in s.home && h < |s.tables|
    ensures NotIn(s.tables[h].slots, t)
  {
    forall q | 0 <= q < |s.tables[h].slots| ensures s.tables[h].slots[q].key != Id(t) { assert SlotInv(s, h, q); }
  }

  // ---- Storing the value --------------------------------------------------------------------

  ghost predicate Stores(s: State, s': State, t: nat, h: nat, q: nat) {
    && Shaped(s) && t < |s.pcs| == |s'.pcs| && h < |s.tables| && q < |s.tables[h].slots|
    && s.tables[h].slots[q].key == Id(t) && t in s.made && Storing(s.pcs[t], h)
    && s' == WithSlot(s, h, q, s.tables[h].slots[q].(value := s.made[t])).(pcs := s.pcs[t := Idle(Got(s.made[t]))])
  }

  /** The keys along every path are what they were. */
  lemma StoreKeepsPaths(slots: seq<Slot>, q: nat, v: nat, hash: nat, d: nat, u: nat)
    requires q < |slots|
    ensures PathTaken(slots, hash, d) ==> PathTaken(slots[q := slots[q].(value := v)], hash, d)
    ensures PathWithout(slots, hash, d, u) ==> PathWithout(slots[q := slots[q].(value := v)], hash, d, u)
    ensures NotIn(slots, u) ==> NotIn(slots[q := slots[q].(value := v)], u)
    ensures UniqueKeys(slots) ==> UniqueKeys(slots[q := slots[q].(value := v)])
  {
    var slots' := slots[q := slots[q].(value := v)];
    assert forall p :: 0 <= p < |slots| ==> slots'[p].key == slots[p].key;
    forall e: nat | e < d && PathTaken(slots, hash, d) ensures Probed(slots', hash, e).key != Empty {
      assert Probed(slots, hash, e).key != Empty;
    }
    forall e: nat | e < d && PathWithout(slots, hash, d, u) ensures Probed(slots', hash, e).key != Id(u) {
      assert Probed(slots, hash, e).key != Id(u);
    }
  }

  lemma StoreKeepsOther(s: State, s': State, t: nat, h: nat, q: nat, u: nat)
    requires Stores(s, s', t, h, q) && u < |s.pcs| && u != t && ThreadInv(s, u)
    ensures ThreadInv(s', u)
  {
    var p := s.pcs[u];
    if p.Probe? || p.ReadValue? || p.LazyLoad? || p.LazyCas? || p.InsertLoad? || p.InsertCas? {
      StoreKeepsPaths(s.tables[h].slots, q, s.made[t], s.hash[u], p.d, u);
    }
  }

  lemma StoreKeepsSlot(s: State, s': State, t: nat, h: nat, q: nat, g: nat, p: nat)
    requires Stores(s, s', t, h, q) && g < |s.tables| && p < |s.tables[g].slots| && SlotInv(s, g, p)
    requires g == h && p != q ==> s.tables[g].slots[p].key != Id(t)
    ensures SlotInv(s', g, p)
  {
    var slot := s.tables[g].slots[p];
    if slot.key.Id? {
      StoreKeepsPaths(s.tables[h].slots, q, s.made[t], s.hash[slot.key.thread], slot.dist, t);
    }
  }

  lemma StoreKeepsSlots(s: State, s': State, t: nat, h: nat, q: nat)
    requires Inv(s) && Stores(s, s', t, h, q)
    ensures Shaped(s') && SlotsInv(s') && forall g :: 0 <= g < |s'.tables| ==> UniqueKeys(s'.tables[g].slots)
  {
    forall g, p | 0 <= g < |s'.tables| && 0 <= p < |s'.tables[g].slots| ensures SlotInv(s', g, p) {
      StoreKeepsSlot(s, s', t, h, q, g, p);
    }
    forall g | 0 <= g < |s'.tables| ensures UniqueKeys(s'.tables[g].slots) {
      if g == h { StoreKeepsPaths(s.tables[h].slots, q, s.made[t], 0, 0, t); }
    }
  }

  lemma StoreKeepsHome(s: State, s': State, t: nat, h: nat, q: nat, u: nat)
    requires Stores(s, s', t, h, q) && u in s.home && HomeInv(s, u)
    ensures HomeInv(s', u)
  {
    var (g, p) := s.home[u];
    assert |s'.tables[g].slots| == |s.tables[g].slots|;
    assert s'.tables[g].slots[p].key == s.tables[g].slots[p].key;
  }

  lemma StoreKeepsInv(s: State, s': State, t: nat, h: nat, q: nat)
    requires Inv(s) && Stores(s, s', t, h, q)
    ensures Inv(s')
  {
    assert ThreadInv(s, t);
    StoreKeepsSlots(s, s', t, h, q);
    SameLive(s, s', t);
    forall u | u in s'.home ensures HomeInv(s', u) { StoreKeepsHome(s, s', t, h, q, u); }
    forall u | 0 <= u < |s'.pcs| ensures ThreadInv(s', u) { if u != t { StoreKeepsOther(s, s', t, h, q, u); } }
  }

  lemma StoreStep(s: State, t: nat, fails: bool)
    requires Inv(s) && Enabled(s, t) && (s.pcs[t].LazyStore? || s.pcs[t].InsertStore?)
    ensures Inv(Step(s, t, fails))
  {
    var p := s.pcs[t];
    assert ThreadInv(s, t);
    StoreKeepsInv(s, Step(s, t, fails), t, p.main, At(s, t, p.main, p.d));
  }

  // ---- Drawing a count, giving it back --------------------------------------------------------

  /** Thread `t`, which is nowhere in the tables, changed only who counts. */
  ghost predicate OnlyCount(s: State, s': State, t: nat) {
    && t < |s.pcs| == |s'.pcs| && t !in s.made && t !in s.home
    && s' == s.(pcs := s.pcs[t := s'.pcs[t]], count := s'.count, live := s'.live, ticket := s'.ticket)
    && (forall u :: u != t ==> (u in s.ticket <==> u in s'.ticket))
    && (forall u :: u != t && u in s.ticket ==> s'.ticket[u] == s.ticket[u])
    && (Holds(s.pcs[t]) <==> Holds(s'.pcs[t])) && !s.pcs[t].LazyStore? && !s.pcs[t].InsertStore?
  }

  lemma CountKeepsSlot(s: State, s': State, t: nat, h: nat, q: nat)
    requires Shaped(s) && OnlyCount(s, s', t) && h < |s.tables| && q < |s.tables[h].slots| && SlotInv(s, h, q)
    ensures SlotInv(s', h, q)
  {
  }

  lemma CountKeepsOther(s: State, s': State, t: nat, u: nat)
    requires Shaped(s) && OnlyCount(s, s', t) && u < |s.pcs| && u != t && ThreadInv(s, u)
    requires s.pcs[u].FailCount? || s.pcs[u].GiveUp? ==> s'.count > 0
    ensures ThreadInv(s', u)
  {
  }

  lemma CountKeepsInv(s: State, s': State, t: nat)
    requires Inv(s) && OnlyCount(s, s', t) && LiveInv(s') && ThreadInv(s', t)
    ensures Inv(s')
  {
    forall h, q | 0 <= h < |s'.tables| && 0 <= q < |s'.tables[h].slots| ensures SlotInv(s', h, q) {
      CountKeepsSlot(s, s', t, h, q);
    }
    forall u | u in s'.home ensures HomeInv(s', u) { assert HomeInv(s, u); }
    forall u | 0 <= u < |s'.pcs| ensures ThreadInv(s', u) {
      if u != t {
        if s'.pcs[u].FailCount? || s'.pcs[u].GiveUp? { CountedIsPositive(s', u); }
        CountKeepsOther(s, s', t, u);
      }
    }
  }

  lemma DrawKeepsLive(s: State, s': State, t: nat, n: nat)
    requires LiveInv(s) && t < |s.pcs| == |s'.pcs| && !Counted(s, t) && n == s.count + 1
    requires s'.pcs == s.pcs[t := s'.pcs[t]] && s'.pcs[t].TestLock? && s'.made == s.made
    requires s'.live == s.live + [t] && s'.ticket == s.ticket[t := n] && s'.count == n
    ensures LiveInv(s')
  {
    assert t !in s.live;
    forall u | 0 <= u < |s'.pcs| ensures u in s'.live <==> Counted(s', u) { assert u in s.live <==> Counted(s, u); }
  }

  lemma {:induction false} WithoutIs(q: seq<nat>, t: nat)
    requires t in q && forall i, j :: 0 <= i < j < |q| ==> q[i] != q[j]
    ensures var w := Without(q, t);
      && |w| == |q| - 1
      && (forall i, j :: 0 <= i < j < |w| ==> w[i] != w[j])
      && (forall u :: u in w <==> u in q && u != t)
      && (forall i :: 0 <= i < |w| ==> (w[i] == q[i] || w[i] == q[i + 1]))
  {
    var last := |q| - 1;
    var rest := q[..last];
    assert q == rest + [q[last]];
    if q[last] != t {
      assert t in rest;
      WithoutIs(rest, t);
      var w := Without(rest, t);
      assert Without(q, t) == w + [q[last]];
      assert q[last] !in rest;
    }
  }

  lemma UncountKeepsLive(s: State, s': State, t: nat)
    requires LiveInv(s) && t < |s.pcs| == |s'.pcs| && Counted(s, t) && t !in s.made
    requires s'.pcs == s.pcs[t := s'.pcs[t]] && (s'.pcs[t].FailUnlock? || s'.pcs[t].Idle?) && s'.made == s.made
    requires s'.live == Without(s.live, t) && s'.ticket == s.ticket && s'.count == s.count - 1
    ensures LiveInv(s')
  {
    assert t in s.live;
    WithoutIs(s.live, t);
    forall i | 0 <= i < |s'.live| ensures s'.live[i] < |s'.pcs| && s'.live[i] in s'.ticket
      && i < s'.ticket[s'.live[i]] {
      assert s'.live[i] == s.live[i] || s'.live[i] == s.live[i + 1];
    }
    forall u | 0 <= u < |s'.pcs| ensures u in s'.live <==> Counted(s', u) { assert u in s.live <==> Counted(s, u); }
  }

  lemma DrawStep(s: State, t: nat, fails: bool)
    requires Inv(s) && Enabled(s, t) && s.pcs[t].Draw?
    ensures Inv(Step(s, t, fails))
  {
    var s' := Step(s, t, fails);
    assert ThreadInv(s, t);
    DrawKeepsLive(s, s', t, s.count + 1);
    CountKeepsInv(s, s', t);
  }

  lemma UncountStep(s: State, t: nat, fails: bool)
    requires Inv(s) && Enabled(s, t) && (s.pcs[t].FailCount? || s.pcs[t].GiveUp?)
    ensures Inv(Step(s, t, fails))
  {
    var s' := Step(s, t, fails);
    assert ThreadInv(s, t);
    UncountKeepsLive(s, s', t);
    CountKeepsInv(s, s', t);
  }

  // ---- A new table, a new producer --------------------------------------------------------------

  ghost predicate Extends(s: State, s': State, t: nat, bits: nat) {
    && t < |s.pcs| == |s'.pcs| && s.pcs[t].Publish?
    && s' == s.(tables := s.tables + [NewTable(bits)], pcs := s.pcs[t := Unlock(|s.tables|, s.pcs[t].n)])
    && forall h :: 0 <= h < |s.tables| ==> s.tables[h].bits < bits
  }

  lemma ExtendKeepsSlot(s: State, s': State, t: nat, bits: nat, h: nat, q: nat)
    requires Shaped(s) && Extends(s, s', t, bits) && h < |s.tables| && q < |s.tables[h].slots| && SlotInv(s, h, q)
    ensures Shaped(s') && SlotInv(s', h, q)
  {
  }

  lemma ExtendKeepsOther(s: State, s': State, t: nat, bits: nat, u: nat)
    requires Shaped(s) && Extends(s, s', t, bits) && u < |s.pcs| && u != t && ThreadInv(s, u)
    requires ThreadInv(s, t)
    ensures Shaped(s') && ThreadInv(s', u)
  {
  }

  lemma ExtendKeepsInv(s: State, s': State, t: nat, bits: nat)
    requires Inv(s) && Extends(s, s', t, bits)
    ensures Inv(s')
  {
    assert ThreadInv(s, t);
    assert Shaped(s');
    forall h, q | 0 <= h < |s'.tables| && 0 <= q < |s'.tables[h].slots| ensures SlotInv(s', h, q) {
      if h < |s.tables| { ExtendKeepsSlot(s, s', t, bits, h, q); }
    }
    forall h | 0 <= h < |s'.tables| ensures UniqueKeys(s'.tables[h].slots) { }
    forall u | u in s'.home ensures HomeInv(s', u) { assert HomeInv(s, u); }
    forall u | 0 <= u < |s'.pcs| ensures ThreadInv(s', u) { if u != t { ExtendKeepsOther(s, s', t, bits, u); } }
    SameLive(s, s', t);
  }

  lemma PublishStep(s: State, t: nat)
    requires Inv(s) && Enabled(s, t) && s.pcs[t].Publish?
    ensures Inv(Step(s, t, false))
  {
    var p := s.pcs[t];
    assert ThreadInv(s, t);
    ExtendKeepsInv(s, Step(s, t, false), t, Fitting(s.tables[p.main].bits + 1, p.n));
  }

  ghost predicate Creates(s: State, s': State, t: nat) {
    && t < |s.pcs| == |s'.pcs| && s.pcs[t].TryAdd? && t !in s.made && t !in s.home
    && s' == s.(producers := s.producers + 1, made := s.made[t := s.producers],
                pcs := s.pcs[t := InsertLoad(s.pcs[t].main, 0, s.producers)])
  }

  lemma CreateKeepsSlot(s: State, s': State, t: nat, h: nat, q: nat)
    requires Shaped(s) && Creates(s, s', t) && h < |s.tables| && q < |s.tables[h].slots| && SlotInv(s, h, q)
    ensures SlotInv(s', h, q)
  {
  }

  lemma CreateKeepsOther(s: State, s': State, t: nat, u: nat)
    requires Shaped(s) && Creates(s, s', t) && u < |s.pcs| && u != t && ThreadInv(s, u)
    ensures ThreadInv(s', u)
  {
  }

  lemma CreateKeepsInv(s: State, s': State, t: nat)
    requires Inv(s) && Creates(s, s', t) && ThreadInv(s', t)
    ensures Inv(s')
  {
    forall h, q | 0 <= h < |s'.tables| && 0 <= q < |s'.tables[h].slots| ensures SlotInv(s', h, q) {
      CreateKeepsSlot(s, s', t, h, q);
    }
    forall u | u in s'.home ensures HomeInv(s', u) { assert HomeInv(s, u); }
    forall u | 0 <= u < |s'.pcs| ensures ThreadInv(s', u) { if u != t { CreateKeepsOther(s, s', t, u); } }
    forall u | 0 <= u < |s'.pcs| ensures u in s'.live <==> Counted(s', u) { assert u in s.live <==> Counted(s, u); }
  }

  lemma CreateStep(s: State, t: nat)
    requires Inv(s) && Enabled(s, t) && s.pcs[t].TryAdd? && s.pcs[t].n < Limit(s.tables[s.pcs[t].main].bits)
    ensures Inv(Step(s, t, false))
  {
    var s' := Step(s, t, false);
    assert ThreadInv(s, t);
    assert ThreadInv(s', t);
    CreateKeepsInv(s, s', t);
  }

  /** The invariant is inductive: any step of any thread keeps it. */
  lemma StepKeepsInv(s: State, t: nat, fails: bool)
    requires Inv(s) && Enabled(s, t)
    ensures Inv(Step(s, t, fails))
  {
    match s.pcs[t] {
      case Idle(_) => SearchStep(s, t, fails);
      case LoadMain => SearchStep(s, t, fails);
      case Probe(_, _, _) => SearchStep(s, t, fails);
      case ReadValue(_, _, _) => SearchStep(s, t, fails);
      case LazyLoad(_, _, _) => PlaceStep(s, t, fails);
      case LazyCas(main, d, _) =>
        if SlotAt(s, t, main, d).key == Empty { FillStep(s, t, fails); } else { PlaceStep(s, t, fails); }
      case LazyStore(_, _, _) => StoreStep(s, t, fails);
      case Draw(_) => DrawStep(s, t, fails);
      case TestLock(_, _) => WaitStep(s, t, fails);
      case Reload(_) => WaitStep(s, t, fails);
      case Publish(_, _) => if fails { WaitStep(s, t, fails); } else { PublishStep(s, t); }
      case FailCount => UncountStep(s, t, fails);
      case FailUnlock => WaitStep(s, t, fails);
      case Unlock(_, _) => WaitStep(s, t, fails);
      case TryAdd(main, n) =>
        if fails || n >= Limit(s.tables[main].bits) { WaitStep(s, t, fails); } else { CreateStep(s, t); }
      case GiveUp => UncountStep(s, t, fails);
      case LoadAgain(_) => WaitStep(s, t, fails);
      case InsertLoad(_, _, _) => PlaceStep(s, t, fails);
      case InsertCas(main, d, _) =>
        if SlotAt(s, t, main, d).key == Empty { FillStep(s, t, fails); } else { PlaceStep(s, t, fails); }
      case InsertStore(_, _, _) => StoreStep(s, t, fails);
    }
  }

  // ---- Runs ------------------------------------------------------------------------------------

  ghost predicate StepBy(s: State, s': State, t: nat, fails: bool) {
    Enabled(s, t) && s' == Step(s, t, fails)
  }

  ghost predicate Next(s: State, s': State) {
    exists t: nat, fails: bool :: StepBy(s, s', t, fails)
  }

  ghost predicate StepAt(r: seq<State>, i: nat)
    requires 0 < i < |r|
  {
    Next(r[i - 1], r[i])
  }

  ghost predicate Run(r: seq<State>) {
    && r != [] && Init(r[0])
    && forall i :: 0 < i < |r| ==> StepAt(r, i)
  }

  lemma InitInv(s: State)
    requires Init(s)
    ensures Inv(s)
  {
    forall t | 0 <= t < |s.pcs| ensures ThreadInv(s, t) { }
  }

  /** The invariant holds in every state of every interleaving. */
  lemma {:induction false} RunInv(r: seq<State>, i: nat)
    requires Run(r) && i < |r|
    ensures Inv(r[i])
  {
    if i == 0 {
      InitInv(r[0]);
    } else {
      RunInv(r, i - 1);
      assert StepAt(r, i);
      var t: nat, fails: bool :| StepBy(r[i - 1], r[i], t, fails);
      StepKeepsInv(r[i - 1], t, fails);
    }
  }

  /** If the thread is probing table `h`, it has made fewer than `n` probes there. */
  ghost predicate ProbesWithin(p: Pc, h: nat, n: nat) {
    && (p.Probe? && p.h == h ==> p.d < n)
    && ((p.LazyLoad? || p.LazyCas? || p.InsertLoad? || p.InsertCas?) && p.main == h ==> p.d < n)
  }

  /** Every table of the chain, in every state, is less than three quarters full, so it has an
      empty slot, and every probe loop that is under way has made fewer probes than the table
      has slots: the loops end. */
  lemma ProbeLoopsEnd(r: seq<State>, i: nat, h: nat)
    requires Run(r) && i < |r| && h < |r[i].tables|
    ensures |Occupants(r[i].tables[h].slots)| < Limit(r[i].tables[h].bits) < |r[i].tables[h].slots|
    ensures exists q :: 0 <= q < |r[i].tables[h].slots| && r[i].tables[h].slots[q].key == Empty
    ensures forall t :: 0 <= t < |r[i].pcs| ==> ProbesWithin(r[i].pcs[t], h, |r[i].tables[h].slots|)
  {
    RunInv(r, i);
    OccupancyBelowLimit(r[i], h);
    var q := EmptySlotExists(r[i], h);
    forall t | 0 <= t < |r[i].pcs| ensures ProbesWithin(r[i].pcs[t], h, |r[i].tables[h].slots|) {
      assert ThreadInv(r[i], t);
    }
  }

  /** No thread is ever stuck or out of bounds. */
  lemma AlwaysEnabled(r: seq<State>, i: nat, t: nat)
    requires Run(r) && i < |r| && t < |r[i].pcs|
    ensures Enabled(r[i], t)
  {
    RunInv(r, i);
    assert ThreadInv(r[i], t);
  }

  lemma StepKeepsMade(s: State, s': State, t: nat, fails: bool, u: nat)
    requires StepBy(s, s', t, fails) && u in s.made && (s.pcs[t].TryAdd? ==> t !in s.made)
    ensures u in s'.made && s'.made[u] == s.made[u]
  {
    var p := s.pcs[t];
    if Counting(p) {
      CountingKeepsMade(s, s', t, fails);
    } else if !p.TryAdd? {
      ProbingKeepsMade(s, s', t, fails);
    }
  }

  ghost predicate Counting(p: Pc) {
    || p.Draw? || p.TestLock? || p.Reload? || p.Publish? || p.FailCount? || p.FailUnlock?
    || p.Unlock? || p.GiveUp? || p.LoadAgain?
  }

  lemma CountingKeepsMade(s: State, s': State, t: nat, fails: bool)
    requires StepBy(s, s', t, fails) && Counting(s.pcs[t])
    ensures s'.made == s.made
  {
  }

  lemma ProbingKeepsMade(s: State, s': State, t: nat, fails: bool)
    requires StepBy(s, s', t, fails) && !Counting(s.pcs[t]) && !s.pcs[t].TryAdd?
    ensures s'.made == s.made
  {
  }

  lemma {:induction false} MadeStays(r: seq<State>, i: nat, j: nat, u: nat)
    requires Run(r) && i <= j < |r| && u in r[i].made
    ensures u in r[j].made && r[j].made[u] == r[i].made[u]
    decreases j
  {
    if i < j {
      MadeStays(r, i, j - 1, u);
      RunInv(r, j - 1);
      assert StepAt(r, j);
      var t: nat, fails: bool :| StepBy(r[j - 1], r[j], t, fails);
      assert ThreadInv(r[j - 1], t);
      StepKeepsMade(r[j - 1], r[j], t, fails, u);
    }
  }

  /** A thread that was once given a producer gets the same one from every later call, however
      many times the table has been resized meanwhile; it never fails again. */
  lemma SameProducerForever(r: seq<State>, i: nat, j: nat, t: nat, p: nat)
    requires Run(r) && i <= j < |r| && t < |r[i].pcs| && t < |r[j].pcs|
    requires r[i].pcs[t] == Idle(Got(p)) && r[j].pcs[t].Idle?
    ensures r[j].pcs[t] == Idle(Got(p))
  {
    RunInv(r, i);
    RunInv(r, j);
    assert ThreadInv(r[i], t) && ThreadInv(r[j], t);
    MadeStays(r, i, j, t);
  }

  /** No two threads are given the same producer, at whatever times they ask. */
  lemma NoSharing(r: seq<State>, i: nat, j: nat, t: nat, u: nat, p: nat, q: nat)
    requires Run(r) && i <= j < |r| && t < |r[i].pcs| && u < |r[j].pcs| && t != u
    requires r[i].pcs[t] == Idle(Got(p)) && r[j].pcs[u] == Idle(Got(q))
    ensures p != q
  {
    RunInv(r, i);
    RunInv(r, j);
    assert ThreadInv(r[i], t) && ThreadInv(r[j], u);
    MadeStays(r, i, j, t);
  }

  /** A thread between taking the resize lock and adding its producer: as soon as it knows its
      table, that table has room for its number. */
  ghost predicate RoomAhead(s: State, t: nat) {
    && t < |s.pcs|
    && var p := s.pcs[t];
    || p.Reload? || p.Publish?
    || ((p.Unlock? || p.TryAdd?) && p.main < |s.tables| && p.n < Limit(s.tables[p.main].bits))
  }

  /** A step that moves thread `u` only and resizes no table. */
  ghost predicate KeepsBits(s: State, s': State, u: nat) {
    && u < |s.pcs| == |s'.pcs| && s'.pcs == s.pcs[u := s'.pcs[u]]
    && |s.tables| <= |s'.tables|
    && forall h :: 0 <= h < |s.tables| ==> s'.tables[h].bits == s.tables[h].bits
  }

  lemma WithSlotKeepsBits(s: State, s1: State, u: nat, h: nat, q: nat, slot: Slot, p: Pc)
    requires u < |s.pcs| && h < |s.tables| && q < |s.tables[h].slots|
    requires s1.tables == WithSlot(s, h, q, slot).tables && s1.pcs == s.pcs
    ensures KeepsBits(s, Goto(s1, u, p), u)
  {
  }

  lemma CasKeepsBits(s: State, s': State, u: nat, fails: bool)
    requires StepBy(s, s', u, fails) && (s.pcs[u].LazyCas? || s.pcs[u].InsertCas?)
    ensures KeepsBits(s, s', u)
  {
    var p := s.pcs[u];
    var q, slot := At(s, u, p.main, p.d), SlotAt(s, u, p.main, p.d);
    if slot.key == Empty {
      var made := Slot(Id(u), slot.value, p.d);
      var s1 := WithSlot(s, p.main, q, made);
      if p.LazyCas? {
        WithSlotKeepsBits(s, s1, u, p.main, q, made, s'.pcs[u]);
      } else {
        WithSlotKeepsBits(s, s1.(home := s'.home), u, p.main, q, made, s'.pcs[u]);
      }
    }
  }

  lemma StoreKeepsBits(s: State, s': State, u: nat, fails: bool)
    requires StepBy(s, s', u, fails) && (s.pcs[u].LazyStore? || s.pcs[u].InsertStore?)
    ensures KeepsBits(s, s', u)
  {
    var p := s.pcs[u];
    var q, slot := At(s, u, p.main, p.d), SlotAt(s, u, p.main, p.d).(value := p.value);
    WithSlotKeepsBits(s, WithSlot(s, p.main, q, slot), u, p.main, q, slot, s'.pcs[u]);
  }

  lemma ProbeKeepsBits(s: State, s': State, u: nat, fails: bool)
    requires StepBy(s, s', u, fails) && (s.pcs[u].Probe? || s.pcs[u].LazyLoad? || s.pcs[u].InsertLoad?)
    ensures KeepsBits(s, s', u)
  {
  }

  lemma LocalKeepsBits(s: State, s': State, u: nat, fails: bool)
    requires StepBy(s, s', u, fails)
    requires s.pcs[u].Idle? || s.pcs[u].LoadMain? || s.pcs[u].ReadValue? || s.pcs[u].TryAdd?
    ensures KeepsBits(s, s', u)
  {
  }

  lemma CountingKeepsBits(s: State, s': State, u: nat, fails: bool)
    requires StepBy(s, s', u, fails) && Counting(s.pcs[u])
    ensures KeepsBits(s, s', u)
  {
  }

  lemma StepKeepsBits(s: State, s': State, u: nat, fails: bool)
    requires StepBy(s, s', u, fails)
    ensures KeepsBits(s, s', u)
  {
    var p := s.pcs[u];
    if Counting(p) {
      CountingKeepsBits(s, s', u, fails);
    } else if p.LazyCas? || p.InsertCas? {
      CasKeepsBits(s, s', u, fails);
    } else if p.LazyStore? || p.InsertStore? {
      StoreKeepsBits(s, s', u, fails);
    } else if p.Probe? || p.LazyLoad? || p.InsertLoad? {
      ProbeKeepsBits(s, s', u, fails);
    } else {
      LocalKeepsBits(s, s', u, fails);
    }
  }

  lemma OwnStepKeepsRoom(s: State, s': State, t: nat, fails: bool)
    requires StepBy(s, s', t, fails) && RoomAhead(s, t) && !s.pcs[t].TryAdd?
    requires t < |s'.pcs| && !s'.pcs[t].FailCount?
    ensures RoomAhead(s', t)
  {
  }

  lemma StepKeepsRoom(r: seq<State>, i: nat, t: nat)
    requires Run(r) && 0 < i < |r| && RoomAhead(r[i - 1], t)
    requires t < |r[i].pcs|
        && (r[i].pcs[t].Reload? || r[i].pcs[t].Publish? || r[i].pcs[t].Unlock? || r[i].pcs[t].TryAdd?)
    requires r[i - 1].pcs[t].TryAdd? ==> r[i].pcs[t] == r[i - 1].pcs[t]
    ensures RoomAhead(r[i], t)
  {
    assert StepAt(r, i);
    var s, s' := r[i - 1], r[i];
    var u: nat, fails: bool :| StepBy(s, s', u, fails);
    StepKeepsBits(s, s', u, fails);
    if u == t && !s.pcs[t].TryAdd? { OwnStepKeepsRoom(s, s', t, fails); }
  }

  /** Thread `t` took the resize lock at `i` and has come to add its producer at `j`. */
  ghost predicate Resizes(r: seq<State>, i: nat, j: nat, t: nat) {
    && i < j < |r|
    && (forall m :: i <= m <= j ==> t < |r[m].pcs|)
    && r[i].pcs[t].Reload? && r[j].pcs[t].TryAdd?
    && (forall m :: i <= m < j ==> r[m].pcs[t].Reload? || r[m].pcs[t].Publish? || r[m].pcs[t].Unlock?)
  }

  lemma {:induction false} RoomStaysAhead(r: seq<State>, i: nat, j: nat, t: nat, m: nat)
    requires Run(r) && Resizes(r, i, j, t) && i <= m <= j
    ensures RoomAhead(r[m], t)
    decreases m
  {
    if m > i {
      RoomStaysAhead(r, i, j, t, m - 1);
      StepKeepsRoom(r, m, t);
    }
  }

  /** A thread that went through a resize, whether it published a larger table or found one, has
      room in its table when it comes to add: it does not have to try again. */
  lemma ResizeMakesRoom(r: seq<State>, i: nat, j: nat, t: nat, fails: bool)
    requires Run(r) && Resizes(r, i, j, t)
    ensures Enabled(r[j], t)
    ensures var p := Step(r[j], t, fails).pcs; t < |p| && (p[t].InsertLoad? || (fails && p[t].GiveUp?))
  {
    RoomStaysAhead(r, i, j, t, j);
    AlwaysEnabled(r, j, t);
  }
}
