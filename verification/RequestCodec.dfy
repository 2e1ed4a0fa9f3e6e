/** The generated codec of the `Request` message. Its nested messages differ only in their
    fields, which `Schema` lists; their code is one and the same otherwise. */
module RequestCodec {
  import opened Basics
  import opened Wire

  // ---- Messages -----------------------------------------------------------------------

  datatype Type = Int32 | Boolean | Bytes

  /** A oneof member is known by its field number. */
  const SOCKET: nat := 1
  const CONNECT: nat := 2
  const RECVFROM: nat := 4
  const SENDTO: nat := 5
  const ATSTART: nat := 16
  const PID: nat := 15

  predicate IsKind(k: nat) { 1 <= k <= 12 || k == ATSTART }

  /** The types of fields 1, 2, 3 of each nested message. */
  function Schema(k: nat): seq<Type> {
    if k == SOCKET then [Int32, Int32, Int32]
    else if k == CONNECT then [Bytes]
    else if k == RECVFROM then [Int32, Int32, Boolean]
    else if k == SENDTO then [Bytes, Int32, Bytes]
    else if k == ATSTART then [Bytes]
    else []
  }

  datatype Value = Scalar(n: int) | Text(b: seq<Byte>)

  /** `fields[i]` is field `i + 1`, present if its has-bit is set. */
  datatype Sub = Sub(fields: seq<Option<Value>>, unknown: seq<Field>)

  datatype Calling = NotSet | Call(kind: nat, sub: Sub)

  datatype Request = Request(pid: Option<nat>, calling: Calling, unknown: seq<Field>)

  function EmptySub(k: nat): Sub { Sub(seq(|Schema(k)|, _ => None), []) }

  const EMPTY: Request := Request(None, NotSet, [])

  // ---- Values -------------------------------------------------------------------------

  ghost predicate ValidValue(t: Type, v: Value) {
    match t
    case Int32 => v.Scalar? && -0x8000_0000 <= v.n < 0x8000_0000
    case Boolean => v.Scalar? && (v.n == 0 || v.n == 1)
    case Bytes => v.Text? && |v.b| < WORD64
  }

  function WireType(t: Type): nat { if t.Bytes? then 2 else 0 }

  function Tag(number: nat, t: Type): nat { 8 * number + WireType(t) }

  /** Negative numbers are written sign-extended to 64 bits. */
  function ToField(number: nat, t: Type, v: Value): Field
    requires ValidValue(t, v)
  {
    match v
    case Scalar(n) => Number(Tag(number, t), if n < 0 then n + WORD64 else n)
    case Text(b) => Data(Tag(number, t), b)
  }

  /** Integers are cut to 32 bits; any nonzero varint is true. */
  function FromField(t: Type, f: Field): Value
    requires if t.Bytes? then f.Data? else f.Number?
  {
    match t
    case Int32 => var low := f.value % WORD32; Scalar(if low < 0x8000_0000 then low else low - WORD32)
    case Boolean => Scalar(if f.value == 0 then 0 else 1)
    case Bytes => Text(f.data)
  }

  lemma ValueRoundTrip(number: nat, t: Type, v: Value)
    requires ValidValue(t, v)
    ensures FromField(t, ToField(number, t, v)) == v
  {
  }

  // ---- Parsing ------------------------------------------------------------------------

  /** Whether a tag is that of a field of the message: the switch on the number and the test of
      the tag's low byte. */
  predicate Handles(types: seq<Type>, f: Field) {
    var number := f.tag / 8;
    && 1 <= number <= |types|
    && f.tag % 256 == Tag(number, types[number - 1]) % 256
    && if types[number - 1].Bytes? then f.Data? else f.Number?
  }

  function ApplySub(types: seq<Type>, m: Sub, f: Field): Sub
    requires |m.fields| == |types|
  {
    if Handles(types, f) then
      var i := f.tag / 8 - 1;
      m.(fields := m.fields[i := Some(FromField(types[i], f))])
    else
      m.(unknown := m.unknown + [f])
  }

  function ParseSub(types: seq<Type>, b: seq<Byte>, m: Sub): (r: Option<Sub>)
    requires |m.fields| == |types|
    ensures r.Some? ==> |r.value.fields| == |types|
    decreases |b|
  {
    if b == [] then Some(m)
    else match ReadField(b)
      case None => None
      case Some(r) => ParseSub(types, r.1, ApplySub(types, m, r.0))
  }

  /** The oneof's accessor for writing: the member if it is the current one, else a new one. */
  function MutableSub(c: Calling, k: nat): Sub {
    if c.Call? && c.kind == k then c.sub else EmptySub(k)
  }

  /** The tag of a oneof member, and that of the process identifier. */
  predicate IsMember(f: Field) {
    var number := f.tag / 8;
    IsKind(number) && f.tag % 256 == (8 * number + 2) % 256 && f.Data?
  }

  predicate IsPid(f: Field) {
    f.tag / 8 == PID && f.tag % 256 == 120 && f.Number?
  }

  function ApplyMember(m: Request, k: nat, data: seq<Byte>): Option<Request>
    requires Shaped(m) && IsKind(k)
  {
    match ParseSub(Schema(k), data, MutableSub(m.calling, k))
    case None => None
    case Some(sub) => Some(m.(calling := Call(k, sub)))
  }

  function ApplyRequest(m: Request, f: Field): Option<Request>
    requires Shaped(m)
  {
    if IsMember(f) then ApplyMember(m, f.tag / 8, f.data)
    else if IsPid(f) then Some(m.(pid := Some(f.value)))
    else Some(m.(unknown := m.unknown + [f]))
  }

  ghost predicate Shaped(m: Request) {
    m.calling.Call? ==> IsKind(m.calling.kind) && |m.calling.sub.fields| == |Schema(m.calling.kind)|
  }

  function Parse(b: seq<Byte>, m: Request): (r: Option<Request>)
    requires Shaped(m)
    ensures r.Some? ==> Shaped(r.value)
    decreases |b|
  {
    if b == [] then Some(m)
    else match ReadField(b)
      case None => None
      case Some(r) =>
        match ApplyRequest(m, r.0)
        case None => None
        case Some(m') => Parse(r.1, m')
  }

  // ---- Serialising --------------------------------------------------------------------

  /** The present fields among the first `n`, in order. */
  function Known(types: seq<Type>, fields: seq<Option<Value>>, n: nat): seq<Field>
    requires n <= |types| == |fields| && ValidFields(types, fields)
  {
    if n == 0 then []
    else
      Known(types, fields, n - 1) +
      if fields[n - 1].Some? then [ToField(n, types[n - 1], fields[n - 1].value)] else []
  }

  ghost predicate ValidFields(types: seq<Type>, fields: seq<Option<Value>>) {
    && |fields| == |types| <= 15
    && forall i :: 0 <= i < |types| && fields[i].Some? ==> ValidValue(types[i], fields[i].value)
  }

  function SubFields(types: seq<Type>, m: Sub): seq<Field>
    requires ValidFields(types, m.fields)
  {
    Known(types, m.fields, |types|) + m.unknown
  }

  function SerializeSub(types: seq<Type>, m: Sub): seq<Byte>
    requires ValidFields(types, m.fields)
  {
    WriteFields(SubFields(types, m))
  }

  /** Preserved fields of a nested message are ones that its parser does not know. */
  ghost predicate ValidSub(types: seq<Type>, m: Sub) {
    && ValidFields(types, m.fields)
    && (forall f :: f in m.unknown ==> WellFormed(f) && !Handles(types, f))
    && |SerializeSub(types, m)| < WORD64
  }

  ghost predicate Valid(m: Request) {
    && (m.pid.Some? ==> m.pid.value < WORD64)
    && (m.calling.Call? ==> IsKind(m.calling.kind) && ValidSub(Schema(m.calling.kind), m.calling.sub))
    && (forall f :: f in m.unknown ==> WellFormed(f) && !IsMember(f) && !IsPid(f))
  }

  function CallField(k: nat, sub: Sub): Field
    requires ValidFields(Schema(k), sub.fields)
  {
    Data(8 * k + 2, SerializeSub(Schema(k), sub))
  }

  /** Members 1 to 12 come before the process identifier, member 16 after it. */
  function RequestFields(m: Request): seq<Field>
    requires Valid(m)
  {
    (if m.calling.Call? && m.calling.kind != ATSTART then [CallField(m.calling.kind, m.calling.sub)] else [])
    + (if m.pid.Some? then [Number(120, m.pid.value)] else [])
    + (if m.calling.Call? && m.calling.kind == ATSTART then [CallField(m.calling.kind, m.calling.sub)] else [])
    + m.unknown
  }

  function Serialize(m: Request): seq<Byte>
    requires Valid(m)
  {
    WriteFields(RequestFields(m))
  }

  // ---- Merging ------------------------------------------------------------------------

  function MergeSub(a: Sub, b: Sub): Sub
    requires |a.fields| == |b.fields|
  {
    Sub(seq(|a.fields|, i requires 0 <= i < |a.fields| => if b.fields[i].Some? then b.fields[i] else a.fields[i]),
        a.unknown + b.unknown)
  }

  /** The last process identifier wins; the same oneof member is merged, another replaces it. */
  function Merge(a: Request, b: Request): Request
    requires Shaped(a) && Shaped(b)
  {
    Request(
      if b.pid.Some? then b.pid else a.pid,
      if b.calling.NotSet? then a.calling
      else Call(b.calling.kind, MergeSub(MutableSub(a.calling, b.calling.kind), b.calling.sub)),
      a.unknown + b.unknown)
  }

  // ---- Parsing what was serialised: nested messages -----------------------------------

  function ApplySubs(types: seq<Type>, m: Sub, fs: seq<Field>): (r: Sub)
    requires |m.fields| == |types|
    ensures |r.fields| == |types|
  {
    if fs == [] then m else ApplySub(types, ApplySubs(types, m, fs[..|fs| - 1]), fs[|fs| - 1])
  }

  lemma {:induction false} ApplySubsFirst(types: seq<Type>, m: Sub, fs: seq<Field>)
    requires |m.fields| == |types| && fs != []
    ensures ApplySubs(types, m, fs) == ApplySubs(types, ApplySub(types, m, fs[0]), fs[1..])
  {
    var n := |fs| - 1;
    if n > 0 {
      ApplySubsFirst(types, m, fs[..n]);
      assert fs[..n][1..] == fs[1..][..n - 1];
    }
  }

  /** The parser goes through serialised fields one by one, whatever follows them. */
  lemma {:induction false} ParsesFields(types: seq<Type>, fs: seq<Field>, rest: seq<Byte>, m: Sub)
    requires |m.fields| == |types| && forall f :: f in fs ==> WellFormed(f)
    ensures ParseSub(types, WriteFields(fs) + rest, m) == ParseSub(types, rest, ApplySubs(types, m, fs))
  {
    if fs == [] {
      assert WriteFields(fs) + rest == rest;
    } else {
      var more := WriteFields(fs[1..]) + rest;
      assert WriteFields(fs) + rest == WriteField(fs[0]) + more;
      ReadsField(fs[0], more);
      ParsesFields(types, fs[1..], rest, ApplySub(types, m, fs[0]));
      ApplySubsFirst(types, m, fs);
    }
  }

  lemma KnownIsHandled(types: seq<Type>, number: nat, v: Value)
    requires 1 <= number <= |types| <= 15 && ValidValue(types[number - 1], v)
    ensures var f := ToField(number, types[number - 1], v);
      WellFormed(f) && Handles(types, f) && f.tag / 8 == number
  {
  }

  /** Applying the known fields of `b` overwrites exactly the fields that `b` has. */
  lemma {:induction false} AppliesKnown(types: seq<Type>, m: Sub, fields: seq<Option<Value>>, n: nat)
    requires |m.fields| == |types| && n <= |types| && ValidFields(types, fields)
    ensures forall f :: f in Known(types, fields, n) ==> WellFormed(f)
    ensures var r := ApplySubs(types, m, Known(types, fields, n));
      && r.unknown == m.unknown
      && forall i :: 0 <= i < |types| ==> r.fields[i] == if i < n && fields[i].Some? then fields[i] else m.fields[i]
  {
    if n > 0 {
      AppliesKnown(types, m, fields, n - 1);
      if fields[n - 1].Some? {
        var before := Known(types, fields, n - 1);
        var all := Known(types, fields, n);
        assert all[..|all| - 1] == before;
        KnownIsHandled(types, n, fields[n - 1].value);
        ValueRoundTrip(n, types[n - 1], fields[n - 1].value);
      } else {
        assert Known(types, fields, n) == Known(types, fields, n - 1);
      }
    }
  }

  lemma {:induction false} AppliesUnknown(types: seq<Type>, m: Sub, fs: seq<Field>, us: seq<Field>)
    requires |m.fields| == |types| && forall f :: f in us ==> !Handles(types, f)
    ensures ApplySubs(types, m, fs + us)
         == ApplySubs(types, m, fs).(unknown := ApplySubs(types, m, fs).unknown + us)
  {
    if us == [] {
      assert fs + us == fs;
    } else {
      var n := |us| - 1;
      AppliesUnknown(types, m, fs, us[..n]);
      assert (fs + us)[..|fs + us| - 1] == fs + us[..n];
      assert us[..n] + [us[n]] == us;
    }
  }

  /** Parsing a serialised nested message into another one merges it. */
  lemma ParseSubIsMerge(types: seq<Type>, m: Sub, b: Sub)
    requires |m.fields| == |types| && ValidSub(types, b)
    ensures ParseSub(types, SerializeSub(types, b), m) == Some(MergeSub(m, b))
  {
    var known := Known(types, b.fields, |types|);
    AppliesKnown(types, m, b.fields, |types|);
    AppliesUnknown(types, m, known, b.unknown);
    var fs := SubFields(types, b);
    assert forall f :: f in fs ==> WellFormed(f);
    ParsesFields(types, fs, [], m);
    assert WriteFields(fs) + [] == WriteFields(fs);
    assert ApplySubs(types, m, fs).fields == MergeSub(m, b).fields;
  }

  // ---- Parsing what was serialised: requests ------------------------------------------

  function ApplyRequests(m: Request, fs: seq<Field>): (r: Option<Request>)
    requires Shaped(m)
    ensures r.Some? ==> Shaped(r.value)
    decreases |fs|
  {
    if fs == [] then Some(m)
    else match ApplyRequest(m, fs[0])
      case None => None
      case Some(m') => ApplyRequests(m', fs[1..])
  }

  lemma {:induction false} ParsesRequestFields(fs: seq<Field>, rest: seq<Byte>, m: Request)
    requires Shaped(m) && forall f :: f in fs ==> WellFormed(f)
    ensures var r := ApplyRequests(m, fs);
      Parse(WriteFields(fs) + rest, m) == if r.None? then None else Parse(rest, r.value)
  {
    if fs == [] {
      assert WriteFields(fs) + rest == rest;
    } else {
      var more := WriteFields(fs[1..]) + rest;
      assert WriteFields(fs) + rest == WriteField(fs[0]) + more;
      ReadsField(fs[0], more);
      var r := ApplyRequest(m, fs[0]);
      if r.Some? {
        ParsesRequestFields(fs[1..], rest, r.value);
      }
    }
  }

  lemma {:induction false} ApplyRequestsAppend(m: Request, fs: seq<Field>, gs: seq<Field>)
    requires Shaped(m)
    ensures var r := ApplyRequests(m, fs);
      ApplyRequests(m, fs + gs) == if r.None? then None else ApplyRequests(r.value, gs)
    decreases |fs|
  {
    if fs == [] {
      assert fs + gs == gs;
    } else {
      assert (fs + gs)[1..] == fs[1..] + gs;
      var r := ApplyRequest(m, fs[0]);
      if r.Some? {
        ApplyRequestsAppend(r.value, fs[1..], gs);
      }
    }
  }

  lemma {:induction false} AppliesUnknownTop(m: Request, us: seq<Field>)
    requires Shaped(m) && forall f :: f in us ==> !IsMember(f) && !IsPid(f)
    ensures ApplyRequests(m, us) == Some(m.(unknown := m.unknown + us))
    decreases |us|
  {
    if us == [] {
      assert m.unknown + us == m.unknown;
    } else {
      AppliesUnknownTop(m.(unknown := m.unknown + [us[0]]), us[1..]);
      assert m.unknown + [us[0]] + us[1..] == m.unknown + us;
    }
  }

  lemma ApplyOne(m: Request, f: Field)
    requires Shaped(m)
    ensures ApplyRequests(m, [f]) == ApplyRequest(m, f)
  {
    assert [f][1..] == [];
  }

  /** The tag of a oneof member leads the parser to that member. */
  lemma MemberTag(k: nat, data: seq<Byte>)
    requires IsKind(k) && |data| < WORD64
    ensures var f := Data(8 * k + 2, data);
      WellFormed(f) && f.tag / 8 == k && IsMember(f)
  {
  }

  lemma AppliesCall(m: Request, k: nat, sub: Sub)
    requires Shaped(m) && IsKind(k) && ValidSub(Schema(k), sub)
    ensures WellFormed(CallField(k, sub))
    ensures ApplyRequests(m, [CallField(k, sub)])
         == Some(m.(calling := Call(k, MergeSub(MutableSub(m.calling, k), sub))))
  {
    var f := CallField(k, sub);
    ApplyOne(m, f);
    MemberTag(k, f.data);
    AppliesMember(m, k, sub);
  }

  lemma AppliesMember(m: Request, k: nat, sub: Sub)
    requires Shaped(m) && IsKind(k) && ValidSub(Schema(k), sub)
    ensures ApplyMember(m, k, SerializeSub(Schema(k), sub))
         == Some(m.(calling := Call(k, MergeSub(MutableSub(m.calling, k), sub))))
  {
    ParseSubIsMerge(Schema(k), MutableSub(m.calling, k), sub);
  }

  lemma AppliesPid(m: Request, pid: nat)
    requires Shaped(m)
    ensures ApplyRequests(m, [Number(120, pid)]) == Some(m.(pid := Some(pid)))
  {
    ApplyOne(m, Number(120, pid));
  }

  /** Applying the fields of a serialised request to another merges it. */
  lemma AppliesRequest(m: Request, b: Request)
    requires Shaped(m) && Valid(b)
    ensures ApplyRequests(m, RequestFields(b)) == Some(Merge(m, b))
    ensures forall f :: f in RequestFields(b) ==> WellFormed(f)
  {
    var isCall := b.calling.Call?;
    var first := if isCall && b.calling.kind != ATSTART then [CallField(b.calling.kind, b.calling.sub)] else [];
    var second := if b.pid.Some? then [Number(120, b.pid.value)] else [];
    var third := if isCall && b.calling.kind == ATSTART then [CallField(b.calling.kind, b.calling.sub)] else [];
    var m1 := if first == [] then m else m.(calling := Merge(m, b).calling);
    var m2 := m1.(pid := Merge(m, b).pid);
    var m3 := if third == [] then m2 else m2.(calling := Merge(m, b).calling);
    if isCall {
      AppliesCall(m, b.calling.kind, b.calling.sub);
      AppliesCall(m2, b.calling.kind, b.calling.sub);
    }
    if b.pid.Some? { AppliesPid(m1, b.pid.value); }
    ApplyRequestsAppend(m, first, second);
    ApplyRequestsAppend(m, first + second, third);
    ApplyRequestsAppend(m, first + second + third, b.unknown);
    AppliesUnknownTop(m3, b.unknown);
  }

  // ---- The laws -----------------------------------------------------------------------

  /** Parsing a serialised request into any message, with anything after it. */
  lemma ParsesRequest(m: Request, b: Request, rest: seq<Byte>)
    requires Shaped(m) && Valid(b)
    ensures Parse(Serialize(b) + rest, m) == Parse(rest, Merge(m, b))
  {
    AppliesRequest(m, b);
    ParsesRequestFields(RequestFields(b), rest, m);
  }

  lemma MergeIntoEmpty(b: Request)
    requires Shaped(b)
    ensures Merge(EMPTY, b) == b
  {
    if b.calling.Call? {
      assert MergeSub(EmptySub(b.calling.kind), b.calling.sub).fields == b.calling.sub.fields;
      assert [] + b.calling.sub.unknown == b.calling.sub.unknown;
    }
    assert [] + b.unknown == b.unknown;
  }

  /** Parse undoes serialise. */
  lemma RoundTrip(m: Request)
    requires Valid(m)
    ensures Parse(Serialize(m), EMPTY) == Some(m)
  {
    ParsesRequest(EMPTY, m, []);
    assert Serialize(m) + [] == Serialize(m);
    MergeIntoEmpty(m);
  }

  /** Parsing two serialised requests in a row merges the second into the first. */
  lemma ConcatenationIsMerge(a: Request, b: Request)
    requires Valid(a) && Valid(b)
    ensures Parse(Serialize(a) + Serialize(b), EMPTY) == Some(Merge(a, b))
  {
    ParsesRequest(EMPTY, a, Serialize(b));
    MergeIntoEmpty(a);
    ParsesRequest(a, b, []);
    assert Serialize(b) + [] == Serialize(b);
  }

  lemma MergeSubAssociates(a: Sub, b: Sub, c: Sub)
    requires |a.fields| == |b.fields| == |c.fields|
    ensures MergeSub(MergeSub(a, b), c) == MergeSub(a, MergeSub(b, c))
  {
    assert MergeSub(MergeSub(a, b), c).fields == MergeSub(a, MergeSub(b, c)).fields;
    assert a.unknown + b.unknown + c.unknown == a.unknown + (b.unknown + c.unknown);
  }

  lemma MergeIntoEmptySub(k: nat, c: Sub)
    requires |c.fields| == |Schema(k)|
    ensures MergeSub(EmptySub(k), c) == c
  {
    assert MergeSub(EmptySub(k), c).fields == c.fields;
    assert [] + c.unknown == c.unknown;
  }

  /** `b` calls something else between two calls of the same kind. */
  predicate Interrupts(a: Request, b: Request, c: Request) {
    && a.calling.Call? && b.calling.Call? && c.calling.Call?
    && a.calling.kind == c.calling.kind != b.calling.kind
  }

  /** `c` has every field that `a` has, and `a` has nothing besides. */
  predicate Covers(a: Sub, c: Sub)
    requires |a.fields| == |c.fields|
  {
    a.unknown == [] && forall i :: 0 <= i < |a.fields| && a.fields[i].Some? ==> c.fields[i].Some?
  }

  /** Merging changes nothing exactly if every field is overwritten. */
  lemma MergeForgetsIff(a: Sub, c: Sub)
    requires |a.fields| == |c.fields|
    ensures MergeSub(a, c) == c <==> Covers(a, c)
  {
    var m := MergeSub(a, c);
    assert a.unknown + c.unknown == c.unknown <==> a.unknown == [] by {
      if a.unknown + c.unknown == c.unknown {
        assert |a.unknown| + |c.unknown| == |c.unknown|;
      } else {
        assert a.unknown == [] ==> a.unknown + c.unknown == c.unknown;
      }
    }
    assert m.fields == c.fields <==> forall i :: 0 <= i < |a.fields| ==> m.fields[i] == c.fields[i];
  }

  /** Merging is associative except where a call of another kind intervenes and the later call
      lacks something that the first one had: merging from the left forgets it, merging from the
      right brings it back. */
  lemma MergeAssociatesIff(a: Request, b: Request, c: Request)
    requires Shaped(a) && Shaped(b) && Shaped(c)
    ensures Shaped(Merge(a, b)) && Shaped(Merge(b, c))
    ensures Merge(Merge(a, b), c) == Merge(a, Merge(b, c)) <==>
      (Interrupts(a, b, c) ==> Covers(a.calling.sub, c.calling.sub))
  {
    assert a.unknown + b.unknown + c.unknown == a.unknown + (b.unknown + c.unknown);
    if c.calling.Call? {
      var k := c.calling.kind;
      MergeIntoEmptySub(k, c.calling.sub);
      if b.calling.Call? && b.calling.kind == k {
        MergeSubAssociates(MutableSub(a.calling, k), b.calling.sub, c.calling.sub);
      }
      if Interrupts(a, b, c) { MergeForgetsIff(a.calling.sub, c.calling.sub); }
    }
  }

  /** Three requests where the two ways differ: a connect with an address, a close, and a connect
      without one. */
  lemma MergeOrderMatters()
    ensures var addr: seq<Byte> := [1];
      var a := Request(None, Call(CONNECT, Sub([Some(Text(addr))], [])), []);
      var b := Request(None, Call(3, Sub([], [])), []);
      var c := Request(None, Call(CONNECT, Sub([None], [])), []);
      && Shaped(a) && Shaped(b) && Shaped(c) && Shaped(Merge(a, b)) && Shaped(Merge(b, c))
      && Merge(Merge(a, b), c).calling.sub.fields == [None]
      && Merge(a, Merge(b, c)).calling.sub.fields == [Some(Text(addr))]
  {
  }

  // ---- Sizes --------------------------------------------------------------------------

  function ValueSize(t: Type, v: Value): nat
    requires ValidValue(t, v)
  {
    match t
    case Int32 => if v.n < 0 then 10 else VarintSize(v.n)
    case Boolean => 1
    case Bytes => VarintSize(|v.b|) + |v.b|
  }

  function KnownSize(types: seq<Type>, fields: seq<Option<Value>>, n: nat): nat
    requires n <= |types| && ValidFields(types, fields)
  {
    if n == 0 then 0
    else
      KnownSize(types, fields, n - 1) +
      if fields[n - 1].Some? then 1 + ValueSize(types[n - 1], fields[n - 1].value) else 0
  }

  function UnknownSize(fs: seq<Field>): nat { |WriteFields(fs)| }

  function SubSize(types: seq<Type>, m: Sub): nat
    requires ValidFields(types, m.fields)
  {
    KnownSize(types, m.fields, |types|) + UnknownSize(m.unknown)
  }

  function CallSize(k: nat, sub: Sub): nat
    requires ValidFields(Schema(k), sub.fields)
  {
    var n := SubSize(Schema(k), sub);
    (if k == ATSTART then 2 else 1) + VarintSize(n) + n
  }

  /** `ByteSizeLong`. */
  function ByteSize(m: Request): nat
    requires Valid(m)
  {
    (if m.pid.Some? then 1 + VarintSize(m.pid.value) else 0)
    + (if m.calling.Call? then CallSize(m.calling.kind, m.calling.sub) else 0)
    + UnknownSize(m.unknown)
  }

  /** Sign-extended negative numbers take ten bytes. */
  lemma TenBytes(x: nat)
    requires WORD64 / 2 <= x < WORD64
    ensures VarintSize(x) == 10
  {
    Powers();
    SizeAtLeast(x, 10);
    SizeAtMost(x, 10);
  }

  lemma OneField(f: Field)
    ensures WriteFields([f]) == WriteField(f)
  {
    assert WriteField(f) + WriteFields([f][1..]) == WriteField(f);
  }

  lemma ValueLength(number: nat, t: Type, v: Value)
    requires 1 <= number <= 15 && ValidValue(t, v)
    ensures |WriteFields([ToField(number, t, v)])| == 1 + ValueSize(t, v)
  {
    var f := ToField(number, t, v);
    OneField(f);
    VarintLength(f.tag);
    match v
    case Scalar(n) =>
      VarintLength(f.value);
      if n < 0 { TenBytes(f.value); }
    case Text(b) => VarintLength(|b|);
  }

  lemma {:induction false} KnownLength(types: seq<Type>, fields: seq<Option<Value>>, n: nat)
    requires n <= |types| && ValidFields(types, fields)
    ensures |WriteFields(Known(types, fields, n))| == KnownSize(types, fields, n)
  {
    if n == 0 {
      assert Known(types, fields, n) == [];
    } else {
      assert |WriteFields(Known(types, fields, n - 1))| == KnownSize(types, fields, n - 1) by {
        KnownLength(types, fields, n - 1);
      }
      NextLength(types, fields, n);
    }
  }

  lemma NextLength(types: seq<Type>, fields: seq<Option<Value>>, n: nat)
    requires 0 < n <= |types| && ValidFields(types, fields)
    ensures |WriteFields(Known(types, fields, n))| - |WriteFields(Known(types, fields, n - 1))|
         == KnownSize(types, fields, n) - KnownSize(types, fields, n - 1)
  {
    var before := Known(types, fields, n - 1);
    if fields[n - 1].Some? {
      var f := ToField(n, types[n - 1], fields[n - 1].value);
      WriteFieldsAppend(before, [f]);
      ValueLength(n, types[n - 1], fields[n - 1].value);
    } else {
      assert Known(types, fields, n) == before;
    }
  }

  lemma SubLength(types: seq<Type>, m: Sub)
    requires ValidFields(types, m.fields)
    ensures |SerializeSub(types, m)| == SubSize(types, m)
  {
    KnownLength(types, m.fields, |types|);
    WriteFieldsAppend(Known(types, m.fields, |types|), m.unknown);
  }

  /** Only the last member's tag needs two bytes. */
  lemma MemberTagSize(k: nat)
    requires IsKind(k)
    ensures (8 * k + 2) % 8 == 2 && VarintSize(8 * k + 2) == if k == ATSTART then 2 else 1
  {
  }

  lemma CallLength(k: nat, sub: Sub)
    requires IsKind(k) && ValidFields(Schema(k), sub.fields)
    ensures |WriteFields([CallField(k, sub)])| == CallSize(k, sub)
  {
    var f := CallField(k, sub);
    OneField(f);
    VarintLength(f.tag);
    VarintLength(|f.data|);
    SubLength(Schema(k), sub);
    MemberTagSize(k);
  }

  /** The bytes written are as many as computed beforehand. */
  lemma SizeIsLength(m: Request)
    requires Valid(m)
    ensures |Serialize(m)| == ByteSize(m)
  {
    var isCall := m.calling.Call?;
    var first := if isCall && m.calling.kind != ATSTART then [CallField(m.calling.kind, m.calling.sub)] else [];
    var second := if m.pid.Some? then [Number(120, m.pid.value)] else [];
    var third := if isCall && m.calling.kind == ATSTART then [CallField(m.calling.kind, m.calling.sub)] else [];
    WriteFieldsAppend(first, second);
    WriteFieldsAppend(first + second, third);
    WriteFieldsAppend(first + second + third, m.unknown);
    if isCall { CallLength(m.calling.kind, m.calling.sub); }
    if m.pid.Some? {
      OneField(Number(120, m.pid.value));
      VarintLength(120);
      VarintLength(m.pid.value);
    }
  }

  // ---- The largest request ------------------------------------------------------------

  const RPC_MESSAGE_MAX_SIZE: nat := 81920
  const RPC_MESSAGE_BUF_MAX_SIZE: nat := 80000

  ghost predicate IsSendto(m: Request, buf: seq<Byte>, flags: int, addr: Option<seq<Byte>>) {
    && m.unknown == []
    && m.calling == Call(SENDTO, Sub([Some(Text(buf)), Some(Scalar(flags)),
                                      if addr.None? then None else Some(Text(addr.value))], []))
  }

  lemma VarintAtMostTen(n: nat)
    requires n < WORD64
    ensures VarintSize(n) <= 10
  {
    Powers();
    SizeAtMost(n, 10);
  }

  lemma VarintAtMostThree(n: nat)
    requires n < 0x20_0000
    ensures VarintSize(n) <= 3
  {
    Powers();
    SizeAtMost(n, 3);
  }

  lemma SendtoSize(m: Request, buf: seq<Byte>, flags: int, addr: Option<seq<Byte>>)
    requires Valid(m) && IsSendto(m, buf, flags, addr)
    requires |buf| <= RPC_MESSAGE_BUF_MAX_SIZE && (addr.Some? ==> |addr.value| == 16)
    ensures SubSize(Schema(SENDTO), m.calling.sub) <= RPC_MESSAGE_BUF_MAX_SIZE + 33
  {
    var types := Schema(SENDTO);
    var fields := m.calling.sub.fields;
    assert KnownSize(types, fields, 3) == KnownSize(types, fields, 2) + if addr.Some? then 18 else 0;
    assert KnownSize(types, fields, 2) == KnownSize(types, fields, 1) + 1 + ValueSize(Int32, Scalar(flags));
    assert KnownSize(types, fields, 1) == 1 + VarintSize(|buf|) + |buf|;
    VarintAtMostThree(|buf|);
    if flags >= 0 { VarintAtMostTen(flags); }
  }

  /** A request to send the largest allowed buffer, with any flags, any process identifier and
      an optional socket address, fits into a message, so that sending it does not abort. */
  lemma SendtoFits(m: Request, buf: seq<Byte>, flags: int, addr: Option<seq<Byte>>)
    requires Valid(m) && IsSendto(m, buf, flags, addr)
    requires |buf| <= RPC_MESSAGE_BUF_MAX_SIZE && (addr.Some? ==> |addr.value| == 16)
    ensures |Serialize(m)| <= RPC_MESSAGE_MAX_SIZE
  {
    SizeIsLength(m);
    SendtoSize(m, buf, flags, addr);
    var n := SubSize(Schema(SENDTO), m.calling.sub);
    VarintAtMostThree(n);
    if m.pid.Some? { VarintAtMostTen(m.pid.value); }
  }

  // ---- The parsing loops --------------------------------------------------------------

  /** `_InternalParse` of a nested message; `left` is what its pointer has not passed yet. */
  method ParseSubLoop(types: seq<Type>, b: seq<Byte>, m0: Sub) returns (r: Option<Sub>)
    requires |m0.fields| == |types|
    ensures r == ParseSub(types, b, m0)
  {
    var m, left := m0, b;
    while left != []
      invariant |m.fields| == |types|
      invariant ParseSub(types, left, m) == ParseSub(types, b, m0)
      decreases |left|
    {
      var field := ReadField(left);
      if field.None? {
        return None;
      }
      var f := field.value.0;
      if Handles(types, f) {
        var i := f.tag / 8 - 1;
        m := m.(fields := m.fields[i := Some(FromField(types[i], f))]);
      } else {
        m := m.(unknown := m.unknown + [f]);
      }
      left := field.value.1;
    }
    r := Some(m);
  }

  /** `_InternalParse` of a request. */
  method ParseLoop(b: seq<Byte>, m0: Request) returns (r: Option<Request>)
    requires Shaped(m0)
    ensures r == Parse(b, m0)
  {
    var m, left := m0, b;
    while left != []
      invariant Shaped(m)
      invariant Parse(left, m) == Parse(b, m0)
      decreases |left|
    {
      var field := ReadField(left);
      if field.None? {
        return None;
      }
      var f := field.value.0;
      if IsMember(f) {
        var k := f.tag / 8;
        var sub := if m.calling.Call? && m.calling.kind == k then m.calling.sub else EmptySub(k);
        var parsed := ParseSubLoop(Schema(k), f.data, sub);
        if parsed.None? {
          return None;
        }
        m := m.(calling := Call(k, parsed.value));
      } else if IsPid(f) {
        m := m.(pid := Some(f.value));
      } else {
        m := m.(unknown := m.unknown + [f]);
      }
      left := field.value.1;
    }
    r := Some(m);
  }
}
