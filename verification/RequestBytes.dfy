/** The requests as bytes: every member of the message with its tags written out. */
module RequestBytes {
  import opened Basics
  import opened Wire
  import opened RequestCodec

  /** A 32-bit number, sign-extended to 64 bits, after its tag; nothing if it is absent. */
  function IntBytes(tag: Byte, n: Option<int>): seq<Byte>
    requires IsInt32(n)
  {
    if n.None? then [] else [tag] + Varint(if n.value < 0 then n.value + 0x1_0000_0000_0000_0000 else n.value)
  }

  /** A truth value after its tag. */
  function BoolBytes(tag: Byte, b: Option<bool>): seq<Byte> {
    if b.None? then [] else [tag, if b.value then 1 else 0]
  }

  /** Bytes after their tag and length. */
  function DataBytes(tag: Byte, d: Option<seq<Byte>>): seq<Byte> {
    if d.None? then [] else [tag] + Varint(|d.value|) + d.value
  }

  /** The process identifier is field 15, a varint. */
  function PidBytes(pid: Option<nat>): seq<Byte> {
    if pid.None? then [] else [120] + Varint(pid.value)
  }

  ghost predicate IsInt32(n: Option<int>) {
    n.Some? ==> -0x8000_0000 <= n.value < 0x8000_0000
  }

  ghost predicate IsPidValue(pid: Option<nat>) {
    pid.Some? ==> pid.value < 0x1_0000_0000_0000_0000
  }

  function IntValue(n: Option<int>): Option<Value> {
    if n.None? then None else Some(Scalar(n.value))
  }

  function BoolValue(b: Option<bool>): Option<Value> {
    if b.None? then None else Some(Scalar(if b.value then 1 else 0))
  }

  function DataValue(d: Option<seq<Byte>>): Option<Value> {
    if d.None? then None else Some(Text(d.value))
  }

  /** A request with nothing unknown in it. */
  function Plain(pid: Option<nat>, kind: nat, fields: seq<Option<Value>>): Request {
    Request(pid, Call(kind, Sub(fields, [])), [])
  }

  // ---- One field after the other ------------------------------------------------------

  /** What field `n` contributes. */
  function FieldBytes(types: seq<Type>, fields: seq<Option<Value>>, n: nat): seq<Byte>
    requires n < |types| && ValidFields(types, fields)
  {
    if fields[n].None? then [] else WriteField(ToField(n + 1, types[n], fields[n].value))
  }

  lemma KnownBytes(types: seq<Type>, fields: seq<Option<Value>>, n: nat)
    requires n < |types| && ValidFields(types, fields)
    ensures WriteFields(Known(types, fields, n + 1))
         == WriteFields(Known(types, fields, n)) + FieldBytes(types, fields, n)
  {
    var before := Known(types, fields, n);
    if fields[n].Some? {
      var f := ToField(n + 1, types[n], fields[n].value);
      WriteFieldsAppend(before, [f]);
      OneField(f);
    } else {
      assert Known(types, fields, n + 1) == before;
    }
  }

  lemma IntFieldBytes(types: seq<Type>, fields: seq<Option<Value>>, n: nat, x: Option<int>)
    requires n < |types| && ValidFields(types, fields) && types[n] == Int32 && fields[n] == IntValue(x)
    ensures IsInt32(x) && FieldBytes(types, fields, n) == IntBytes(8 * n + 8, x)
  {
    assert Varint(8 * n + 8) == [8 * n + 8];
    if x.Some? {
      var f := ToField(n + 1, Int32, Scalar(x.value));
      assert f.tag == 8 * n + 8;
      assert WriteField(f) == [8 * n + 8] + Varint(f.value);
    }
  }

  lemma BoolFieldBytes(types: seq<Type>, fields: seq<Option<Value>>, n: nat, x: Option<bool>)
    requires n < |types| && ValidFields(types, fields) && types[n] == Boolean && fields[n] == BoolValue(x)
    ensures FieldBytes(types, fields, n) == BoolBytes(8 * n + 8, x)
  {
    assert Varint(8 * n + 8) == [8 * n + 8];
    if x.Some? {
      var f := ToField(n + 1, Boolean, fields[n].value);
      assert f.tag == 8 * n + 8 && f.value == if x.value then 1 else 0;
      assert WriteField(f) == [8 * n + 8] + Varint(f.value);
      assert Varint(f.value) == [f.value];
    }
  }

  lemma DataFieldBytes(types: seq<Type>, fields: seq<Option<Value>>, n: nat, x: Option<seq<Byte>>)
    requires n < |types| && ValidFields(types, fields) && types[n] == Bytes && fields[n] == DataValue(x)
    ensures FieldBytes(types, fields, n) == DataBytes(8 * n + 10, x)
  {
    assert Varint(8 * n + 10) == [8 * n + 10];
    if x.Some? {
      var f := ToField(n + 1, Bytes, Text(x.value));
      assert f.tag == 8 * n + 10 && f.tag % 8 == 2;
      assert WriteField(f) == [8 * n + 10] + (Varint(|x.value|) + x.value);
    }
  }

  // ---- The whole request --------------------------------------------------------------

  /** A request with one member: its tag, its length, its body, and the process identifier. */
  lemma MemberBytes(pid: Option<nat>, kind: nat, fields: seq<Option<Value>>, body: seq<Byte>)
    requires IsPidValue(pid) && 1 <= kind <= 12 && ValidFields(Schema(kind), fields) && |body| < WORD64
    requires WriteFields(Known(Schema(kind), fields, |Schema(kind)|)) == body
    ensures var m := Plain(pid, kind, fields);
      Valid(m) && Serialize(m) == [8 * kind + 2] + Varint(|body|) + body + PidBytes(pid)
  {
    var m := Plain(pid, kind, fields);
    var sub := m.calling.sub;
    assert SubFields(Schema(kind), sub) == Known(Schema(kind), fields, |Schema(kind)|);
    assert Valid(m);
    var first := [CallField(kind, sub)];
    var second := if pid.Some? then [Number(120, pid.value)] else [];
    assert RequestFields(m) == first + second;
    WriteFieldsAppend(first, second);
    TagBytes(kind, CallField(kind, sub));
    PidFieldBytes(pid);
  }

  lemma TagBytes(kind: nat, f: Field)
    requires 1 <= kind <= 12 && f.Data? && f.tag == 8 * kind + 2
    ensures WriteFields([f]) == [8 * kind + 2] + Varint(|f.data|) + f.data
  {
    OneField(f);
    assert f.tag % 8 == 2;
    assert Varint(f.tag) == [f.tag];
    assert WriteField(f) == [f.tag] + (Varint(|f.data|) + f.data);
  }

  lemma PidFieldBytes(pid: Option<nat>)
    ensures WriteFields(if pid.Some? then [Number(120, pid.value)] else []) == PidBytes(pid)
  {
    if pid.Some? {
      OneField(Number(120, pid.value));
      assert Varint(120) == [120];
    }
  }

  /** The bytes are those of the message, both ways. */
  ghost predicate Means(bytes: seq<Byte>, m: Request) {
    Valid(m) && Serialize(m) == bytes && Parse(bytes, EMPTY) == Some(m)
  }

  /** A member with its tag and length, and the process identifier. */
  function Member(tag: Byte, body: seq<Byte>, pid: Option<nat>): seq<Byte> {
    [tag] + Varint(|body|) + body + PidBytes(pid)
  }

  /** The member whose tag takes two bytes comes after the process identifier. */
  function LastMember(body: seq<Byte>, pid: Option<nat>): seq<Byte> {
    PidBytes(pid) + ([130, 1] + Varint(|body|) + body)
  }

  lemma MemberMeans(pid: Option<nat>, kind: nat, fields: seq<Option<Value>>, body: seq<Byte>)
    requires IsPidValue(pid) && 1 <= kind <= 12 && ValidFields(Schema(kind), fields) && |body| < WORD64
    requires WriteFields(Known(Schema(kind), fields, |Schema(kind)|)) == body
    ensures Means(Member(8 * kind + 2, body, pid), Plain(pid, kind, fields))
  {
    MemberBytes(pid, kind, fields, body);
    RoundTrip(Plain(pid, kind, fields));
  }

  lemma OneKnown(types: seq<Type>, fields: seq<Option<Value>>)
    requires |types| == 1 && ValidFields(types, fields)
    ensures WriteFields(Known(types, fields, 1)) == FieldBytes(types, fields, 0)
  {
    KnownBytes(types, fields, 0);
  }

  lemma ThreeKnown(types: seq<Type>, fields: seq<Option<Value>>, a: seq<Byte>, b: seq<Byte>, c: seq<Byte>)
    requires |types| == 3 && ValidFields(types, fields)
    requires FieldBytes(types, fields, 0) == a && FieldBytes(types, fields, 1) == b && FieldBytes(types, fields, 2) == c
    ensures WriteFields(Known(types, fields, 3)) == a + b + c
  {
    KnownBytes(types, fields, 0);
    KnownBytes(types, fields, 1);
    KnownBytes(types, fields, 2);
  }

  lemma ThreeMeans(pid: Option<nat>, kind: nat, fields: seq<Option<Value>>, a: seq<Byte>, b: seq<Byte>, c: seq<Byte>)
    requires IsPidValue(pid) && 1 <= kind <= 12 && |Schema(kind)| == 3 && ValidFields(Schema(kind), fields)
    requires FieldBytes(Schema(kind), fields, 0) == a && FieldBytes(Schema(kind), fields, 1) == b
    requires FieldBytes(Schema(kind), fields, 2) == c && |a| + |b| + |c| < WORD64
    ensures Means(Member(8 * kind + 2, a + b + c, pid), Plain(pid, kind, fields))
  {
    ThreeKnown(Schema(kind), fields, a, b, c);
    MemberMeans(pid, kind, fields, a + b + c);
  }

  lemma ShortInt(tag: Byte, n: Option<int>)
    requires IsInt32(n)
    ensures |IntBytes(tag, n)| <= 11
  {
    if n.Some? {
      var v := if n.value < 0 then n.value + WORD64 else n.value;
      VarintLength(v);
      VarintAtMostTen(v);
    }
  }

  // ---- The members --------------------------------------------------------------------

  /** Call 1: domain, type and protocol after the tags 8, 16 and 24. */
  lemma SocketBytes(domain: Option<int>, kind: Option<int>, protocol: Option<int>, pid: Option<nat>)
    requires IsInt32(domain) && IsInt32(kind) && IsInt32(protocol) && IsPidValue(pid)
    ensures Means(Member(10, IntBytes(8, domain) + IntBytes(16, kind) + IntBytes(24, protocol), pid),
                  Plain(pid, 1, [IntValue(domain), IntValue(kind), IntValue(protocol)]))
  {
    SocketFields(domain, kind, protocol);
    ShortInt(8, domain);
    ShortInt(16, kind);
    ShortInt(24, protocol);
    ThreeMeans(pid, 1, [IntValue(domain), IntValue(kind), IntValue(protocol)],
               IntBytes(8, domain), IntBytes(16, kind), IntBytes(24, protocol));
  }

  lemma SocketFields(domain: Option<int>, kind: Option<int>, protocol: Option<int>)
    requires IsInt32(domain) && IsInt32(kind) && IsInt32(protocol)
    ensures var fields := [IntValue(domain), IntValue(kind), IntValue(protocol)];
      && |Schema(1)| == 3 && ValidFields(Schema(1), fields)
      && FieldBytes(Schema(1), fields, 0) == IntBytes(8, domain)
      && FieldBytes(Schema(1), fields, 1) == IntBytes(16, kind)
      && FieldBytes(Schema(1), fields, 2) == IntBytes(24, protocol)
  {
    var fields := [IntValue(domain), IntValue(kind), IntValue(protocol)];
    IntFieldBytes(Schema(1), fields, 0, domain);
    IntFieldBytes(Schema(1), fields, 1, kind);
    IntFieldBytes(Schema(1), fields, 2, protocol);
  }

  /** Call 2: the address after the tag 10. */
  lemma ConnectBytes(addr: Option<seq<Byte>>, pid: Option<nat>)
    requires IsPidValue(pid) && |DataBytes(10, addr)| < 0x1_0000_0000_0000_0000
    ensures Means(Member(18, DataBytes(10, addr), pid), Plain(pid, 2, [DataValue(addr)]))
  {
    var types, fields := [Bytes], [DataValue(addr)];
    OneKnown(types, fields);
    DataFieldBytes(types, fields, 0, addr);
    MemberMeans(pid, 2, fields, DataBytes(10, addr));
  }

  /** Call 4: length, flags and whether the address is wanted after the tags 8, 16 and 24. */
  lemma RecvfromBytes(len: Option<int>, flags: Option<int>, wanted: Option<bool>, pid: Option<nat>)
    requires IsInt32(len) && IsInt32(flags) && IsPidValue(pid)
    ensures Means(Member(34, IntBytes(8, len) + IntBytes(16, flags) + BoolBytes(24, wanted), pid),
                  Plain(pid, 4, [IntValue(len), IntValue(flags), BoolValue(wanted)]))
  {
    RecvfromFields(len, flags, wanted);
    ShortInt(8, len);
    ShortInt(16, flags);
    ThreeMeans(pid, 4, [IntValue(len), IntValue(flags), BoolValue(wanted)],
               IntBytes(8, len), IntBytes(16, flags), BoolBytes(24, wanted));
  }

  lemma RecvfromFields(len: Option<int>, flags: Option<int>, wanted: Option<bool>)
    requires IsInt32(len) && IsInt32(flags)
    ensures var fields := [IntValue(len), IntValue(flags), BoolValue(wanted)];
      && |Schema(4)| == 3 && ValidFields(Schema(4), fields)
      && FieldBytes(Schema(4), fields, 0) == IntBytes(8, len)
      && FieldBytes(Schema(4), fields, 1) == IntBytes(16, flags)
      && FieldBytes(Schema(4), fields, 2) == BoolBytes(24, wanted)
  {
    var fields := [IntValue(len), IntValue(flags), BoolValue(wanted)];
    IntFieldBytes(Schema(4), fields, 0, len);
    IntFieldBytes(Schema(4), fields, 1, flags);
    BoolFieldBytes(Schema(4), fields, 2, wanted);
  }

  /** Call 5: buffer, flags and address after the tags 10, 16 and 26. */
  lemma SendtoBytes(buf: Option<seq<Byte>>, flags: Option<int>, addr: Option<seq<Byte>>, pid: Option<nat>)
    requires IsInt32(flags) && IsPidValue(pid)
    requires |DataBytes(10, buf)| + |DataBytes(26, addr)| + 11 < 0x1_0000_0000_0000_0000
    ensures Means(Member(42, DataBytes(10, buf) + IntBytes(16, flags) + DataBytes(26, addr), pid),
                  Plain(pid, 5, [DataValue(buf), IntValue(flags), DataValue(addr)]))
  {
    SendtoFields(buf, flags, addr);
    ShortInt(16, flags);
    ThreeMeans(pid, 5, [DataValue(buf), IntValue(flags), DataValue(addr)],
               DataBytes(10, buf), IntBytes(16, flags), DataBytes(26, addr));
  }

  lemma SendtoFields(buf: Option<seq<Byte>>, flags: Option<int>, addr: Option<seq<Byte>>)
    requires IsInt32(flags) && (buf.Some? ==> |buf.value| < WORD64) && (addr.Some? ==> |addr.value| < WORD64)
    ensures var fields := [DataValue(buf), IntValue(flags), DataValue(addr)];
      && |Schema(5)| == 3 && ValidFields(Schema(5), fields)
      && FieldBytes(Schema(5), fields, 0) == DataBytes(10, buf)
      && FieldBytes(Schema(5), fields, 1) == IntBytes(16, flags)
      && FieldBytes(Schema(5), fields, 2) == DataBytes(26, addr)
  {
    var fields := [DataValue(buf), IntValue(flags), DataValue(addr)];
    DataFieldBytes(Schema(5), fields, 0, buf);
    IntFieldBytes(Schema(5), fields, 1, flags);
    DataFieldBytes(Schema(5), fields, 2, addr);
  }

  /** The calls without fields, 3 and 6 to 12: the tag and a zero. */
  lemma BareBytes(kind: nat, pid: Option<nat>)
    requires (kind == 3 || 6 <= kind <= 12) && IsPidValue(pid)
    ensures Means(Member(8 * kind + 2, [], pid), Plain(pid, kind, []))
  {
    MemberMeans(pid, kind, [], []);
  }

  /** Member 16, whose tag takes two bytes, comes after the process identifier; its one field is
      the program's name after the tag 10. */
  lemma AtstartBytes(name: Option<seq<Byte>>, pid: Option<nat>)
    requires IsPidValue(pid) && |DataBytes(10, name)| < 0x1_0000_0000_0000_0000
    ensures Means(LastMember(DataBytes(10, name), pid), Plain(pid, 16, [DataValue(name)]))
  {
    var types, fields, body := [Bytes], [DataValue(name)], DataBytes(10, name);
    OneKnown(types, fields);
    DataFieldBytes(types, fields, 0, name);
    LastMemberBytes(pid, fields, body);
    RoundTrip(Plain(pid, 16, fields));
  }

  lemma LastMemberBytes(pid: Option<nat>, fields: seq<Option<Value>>, body: seq<Byte>)
    requires IsPidValue(pid) && ValidFields(Schema(16), fields) && |body| < WORD64
    requires WriteFields(Known(Schema(16), fields, |Schema(16)|)) == body
    ensures var m := Plain(pid, 16, fields); Valid(m) && Serialize(m) == LastMember(body, pid)
  {
    var m := Plain(pid, 16, fields);
    assert SubFields(Schema(16), m.calling.sub) == Known(Schema(16), fields, |Schema(16)|);
    assert Valid(m);
    var f := CallField(16, m.calling.sub);
    LastFieldBytes(pid, f);
    assert RequestFields(m) == (if pid.Some? then [Number(120, pid.value)] else []) + [f];
  }

  lemma LastFieldBytes(pid: Option<nat>, f: Field)
    requires f.Data? && f.tag == 130
    ensures WriteFields((if pid.Some? then [Number(120, pid.value)] else []) + [f]) == LastMember(f.data, pid)
  {
    WriteFieldsAppend(if pid.Some? then [Number(120, pid.value)] else [], [f]);
    LastTagBytes(f);
    PidFieldBytes(pid);
  }

  lemma LastTagBytes(f: Field)
    requires f.Data? && f.tag == 130
    ensures WriteFields([f]) == [130, 1] + Varint(|f.data|) + f.data
  {
    OneField(f);
    assert Varint(130) == [130] + Varint(1) && Varint(1) == [1];
    assert WriteField(f) == [130, 1] + (Varint(|f.data|) + f.data);
  }

  /** No call, only the process identifier. */
  lemma NoCallBytes(pid: Option<nat>)
    requires IsPidValue(pid)
    ensures Means(PidBytes(pid), Request(pid, NotSet, []))
  {
    PidFieldBytes(pid);
    var m := Request(pid, NotSet, []);
    assert RequestFields(m) == if pid.Some? then [Number(120, pid.value)] else [];
    RoundTrip(m);
  }

  // ---- Numbers that no writer writes ----------------------------------------------------

  /** The low 32 bits, as a signed number. */
  function Cut(v: nat): int {
    var low := v % 0x1_0000_0000;
    if low < 0x8000_0000 then low else low - 0x1_0000_0000
  }

  function NumberBytes(tag: Byte, v: nat): seq<Byte> {
    [tag] + Varint(v)
  }

  lemma NumberFieldBytes(tag: Byte, v: nat)
    requires tag < 128
    ensures WriteFields([Number(tag, v)]) == NumberBytes(tag, v)
  {
    OneField(Number(tag, v));
    assert Varint(tag) == [tag];
  }

  ghost predicate Scalars(types: seq<Type>) {
    |types| == 3 && forall i :: 0 <= i < 3 ==> !types[i].Bytes?
  }

  /** Three numbers, each in its own field, whatever they are. */
  lemma ThreeNumbersParse(types: seq<Type>, a: nat, b: nat, c: nat)
    requires Scalars(types) && a < WORD64 && b < WORD64 && c < WORD64
    ensures ParseSub(types, NumberBytes(8, a) + NumberBytes(16, b) + NumberBytes(24, c), Sub([None, None, None], []))
         == Some(Sub([Some(FromField(types[0], Number(8, a))), Some(FromField(types[1], Number(16, b))),
                      Some(FromField(types[2], Number(24, c)))], []))
  {
    var m := Sub([None, None, None], []);
    var fs := [Number(8, a), Number(16, b), Number(24, c)];
    ThreeNumbersBytes(a, b, c);
    ParsesFields(types, fs, [], m);
    assert WriteFields(fs) + [] == WriteFields(fs);
    ThreeNumbersApply(types, m, a, b, c);
  }

  lemma ThreeNumbersBytes(a: nat, b: nat, c: nat)
    ensures WriteFields([Number(8, a), Number(16, b), Number(24, c)])
         == NumberBytes(8, a) + NumberBytes(16, b) + NumberBytes(24, c)
  {
    NumberFieldBytes(8, a);
    NumberFieldBytes(16, b);
    NumberFieldBytes(24, c);
    WriteFieldsAppend([Number(8, a)], [Number(16, b)]);
    WriteFieldsAppend([Number(8, a), Number(16, b)], [Number(24, c)]);
    assert [Number(8, a)] + [Number(16, b)] == [Number(8, a), Number(16, b)];
    assert [Number(8, a), Number(16, b)] + [Number(24, c)] == [Number(8, a), Number(16, b), Number(24, c)];
  }

  lemma ThreeNumbersApply(types: seq<Type>, m: Sub, a: nat, b: nat, c: nat)
    requires Scalars(types) && m == Sub([None, None, None], [])
    ensures ApplySubs(types, m, [Number(8, a), Number(16, b), Number(24, c)])
         == Sub([Some(FromField(types[0], Number(8, a))), Some(FromField(types[1], Number(16, b))),
                 Some(FromField(types[2], Number(24, c)))], [])
  {
    var fs := [Number(8, a), Number(16, b), Number(24, c)];
    var fs2, fs1 := [Number(8, a), Number(16, b)], [Number(8, a)];
    assert fs[..2] == fs2 && fs2[..1] == fs1 && fs1[..0] == [];
    assert ApplySubs(types, m, []) == m;
    var m1 := ApplySub(types, m, Number(8, a));
    var m2 := ApplySub(types, m1, Number(16, b));
    assert ApplySubs(types, m, fs1) == m1;
    assert ApplySubs(types, m, fs2) == m2;
    NumberApplies(types, m, 0, a);
    NumberApplies(types, m1, 1, b);
    NumberApplies(types, m2, 2, c);
  }

  lemma NumberApplies(types: seq<Type>, m: Sub, i: nat, v: nat)
    requires Scalars(types) && i < 3 && |m.fields| == 3
    ensures ApplySub(types, m, Number(8 * i + 8, v))
         == m.(fields := m.fields[i := Some(FromField(types[i], Number(8 * i + 8, v)))])
  {
    assert (8 * i + 8) / 8 == i + 1;
  }

  lemma MemberParses(kind: nat, body: seq<Byte>, sub: Sub)
    requires 1 <= kind <= 12 && |body| < WORD64 && ParseSub(Schema(kind), body, EmptySub(kind)) == Some(sub)
    ensures Parse([8 * kind + 2] + Varint(|body|) + body, EMPTY) == Some(Request(None, Call(kind, sub), []))
  {
    var f := Data(8 * kind + 2, body);
    TagBytes(kind, f);
    MemberTag(kind, body);
    ParsesRequestFields([f], [], EMPTY);
    assert WriteFields([f]) + [] == WriteFields([f]);
    ApplyOne(EMPTY, f);
  }

  lemma ThreeNumbersShort(a: nat, b: nat, c: nat)
    requires a < WORD64 && b < WORD64 && c < WORD64
    ensures |NumberBytes(8, a) + NumberBytes(16, b) + NumberBytes(24, c)| <= 33
  {
    VarintLength(a);
    VarintLength(b);
    VarintLength(c);
    VarintAtMostTen(a);
    VarintAtMostTen(b);
    VarintAtMostTen(c);
  }

  /** Whatever numbers are sent for a socket call are cut to 32 bits. */
  lemma SocketParses(a: nat, b: nat, c: nat)
    requires a < 0x1_0000_0000_0000_0000 && b < 0x1_0000_0000_0000_0000 && c < 0x1_0000_0000_0000_0000
    ensures var body := NumberBytes(8, a) + NumberBytes(16, b) + NumberBytes(24, c);
      Parse([10] + Varint(|body|) + body, EMPTY)
        == Some(Plain(None, 1, [Some(Scalar(Cut(a))), Some(Scalar(Cut(b))), Some(Scalar(Cut(c)))]))
  {
    var types := [Int32, Int32, Int32];
    ThreeNumbersParse(types, a, b, c);
    ThreeNumbersShort(a, b, c);
    assert EmptySub(1) == Sub([None, None, None], []);
    MemberParses(1, NumberBytes(8, a) + NumberBytes(16, b) + NumberBytes(24, c),
                 Sub([Some(Scalar(Cut(a))), Some(Scalar(Cut(b))), Some(Scalar(Cut(c)))], []));
  }

  /** Of a receive call the two numbers are cut to 32 bits, and any number but zero asks for the
      address. */
  lemma RecvfromParses(a: nat, b: nat, c: nat)
    requires a < 0x1_0000_0000_0000_0000 && b < 0x1_0000_0000_0000_0000 && c < 0x1_0000_0000_0000_0000
    ensures var body := NumberBytes(8, a) + NumberBytes(16, b) + NumberBytes(24, c);
      Parse([34] + Varint(|body|) + body, EMPTY)
        == Some(Plain(None, 4, [Some(Scalar(Cut(a))), Some(Scalar(Cut(b))), Some(Scalar(if c == 0 then 0 else 1))]))
  {
    var types := [Int32, Int32, Boolean];
    ThreeNumbersParse(types, a, b, c);
    ThreeNumbersShort(a, b, c);
    assert EmptySub(4) == Sub([None, None, None], []);
    MemberParses(4, NumberBytes(8, a) + NumberBytes(16, b) + NumberBytes(24, c),
                 Sub([Some(Scalar(Cut(a))), Some(Scalar(Cut(b))), Some(Scalar(if c == 0 then 0 else 1))], []));
  }

  // ---- What is accepted can be written and read again -----------------------------------

  ghost predicate SoundSub(types: seq<Type>, m: Sub) {
    && ValidFields(types, m.fields)
    && forall f :: f in m.unknown ==> WellFormed(f) && !Handles(types, f)
  }

  ghost predicate Sound(m: Request) {
    && (m.pid.Some? ==> m.pid.value < WORD64)
    && (m.calling.Call? ==> IsKind(m.calling.kind) && SoundSub(Schema(m.calling.kind), m.calling.sub))
    && (forall f :: f in m.unknown ==> WellFormed(f) && !IsMember(f) && !IsPid(f))
  }

  lemma AppliedSubIsSound(types: seq<Type>, m: Sub, f: Field)
    requires SoundSub(types, m) && WellFormed(f)
    ensures SoundSub(types, ApplySub(types, m, f))
  {
  }

  lemma {:induction false} ParsedSubIsSound(types: seq<Type>, b: seq<Byte>, m: Sub)
    requires SoundSub(types, m)
    ensures ParseSub(types, b, m).Some? ==> SoundSub(types, ParseSub(types, b, m).value)
    decreases |b|
  {
    if b != [] && ReadField(b).Some? {
      FieldIsWellFormed(b);
      var f := ReadField(b).value;
      AppliedSubIsSound(types, m, f.0);
      ParsedSubIsSound(types, f.1, ApplySub(types, m, f.0));
    }
  }

  lemma AppliedIsSound(m: Request, f: Field)
    requires Sound(m) && WellFormed(f)
    ensures Shaped(m) && (ApplyRequest(m, f).Some? ==> Sound(ApplyRequest(m, f).value))
  {
    if IsMember(f) {
      var k := f.tag / 8;
      ParsedSubIsSound(Schema(k), f.data, MutableSub(m.calling, k));
    }
  }

  lemma {:induction false} ParsedIsSound(b: seq<Byte>, m: Request)
    requires Sound(m)
    ensures Shaped(m) && (Parse(b, m).Some? ==> Sound(Parse(b, m).value))
    decreases |b|
  {
    if b != [] && ReadField(b).Some? {
      FieldIsWellFormed(b);
      var f := ReadField(b).value;
      AppliedIsSound(m, f.0);
      if ApplyRequest(m, f.0).Some? { ParsedIsSound(f.1, ApplyRequest(m, f.0).value); }
    }
  }

  /** No text in the message is longer than `n` bytes, nor are its unknown fields together. */
  ghost predicate SmallSub(m: Sub, n: nat) {
    && (forall i :: 0 <= i < |m.fields| && m.fields[i].Some? && m.fields[i].value.Text? ==> |m.fields[i].value.b| <= n)
    && |WriteFields(m.unknown)| <= n
  }

  lemma AppliedSubIsSmall(types: seq<Type>, m: Sub, f: Field, n: nat)
    requires |m.fields| == |types| && SmallSub(m, n) && WellFormed(f)
    ensures SmallSub(ApplySub(types, m, f), n + |WriteField(f)|)
  {
    WriteFieldsAppend(m.unknown, [f]);
    OneField(f);
  }

  lemma {:induction false} ParsedSubIsSmall(types: seq<Type>, b: seq<Byte>, m: Sub, n: nat)
    requires |m.fields| == |types| && SmallSub(m, n)
    ensures ParseSub(types, b, m).Some? ==> SmallSub(ParseSub(types, b, m).value, n + |b|)
    decreases |b|
  {
    if b != [] && ReadField(b).Some? {
      FieldIsWellFormed(b);
      FieldShrinks(b);
      var f := ReadField(b).value;
      AppliedSubIsSmall(types, m, f.0, n);
      ParsedSubIsSmall(types, f.1, ApplySub(types, m, f.0), n + |WriteField(f.0)|);
    }
  }

  ghost predicate Small(m: Request, n: nat) {
    m.calling.Call? ==> SmallSub(m.calling.sub, n)
  }

  lemma AppliedIsSmall(m: Request, f: Field, n: nat)
    requires Sound(m) && Shaped(m) && Small(m, n) && WellFormed(f)
    ensures ApplyRequest(m, f).Some? ==> Small(ApplyRequest(m, f).value, n + |WriteField(f)|)
  {
    if IsMember(f) {
      var k := f.tag / 8;
      ParsedSubIsSmall(Schema(k), f.data, MutableSub(m.calling, k), n);
      assert |f.data| <= |WriteField(f)|;
    }
  }

  lemma {:induction false} ParsedIsSmall(b: seq<Byte>, m: Request, n: nat)
    requires Sound(m) && Shaped(m) && Small(m, n)
    ensures Parse(b, m).Some? ==> Small(Parse(b, m).value, n + |b|)
    decreases |b|
  {
    if b != [] && ReadField(b).Some? {
      FieldIsWellFormed(b);
      FieldShrinks(b);
      var f := ReadField(b).value;
      AppliedIsSound(m, f.0);
      AppliedIsSmall(m, f.0, n);
      if ApplyRequest(m, f.0).Some? { ParsedIsSmall(f.1, ApplyRequest(m, f.0).value, n + |WriteField(f.0)|); }
    }
  }

  lemma SmallField(types: seq<Type>, m: Sub, k: nat, n: nat)
    requires ValidFields(types, m.fields) && SmallSub(m, n) && k < |types|
    ensures KnownSize(types, m.fields, k + 1) <= KnownSize(types, m.fields, k) + n + 11
  {
    if m.fields[k].Some? {
      var v := m.fields[k].value;
      if v.Text? { VarintAtMostTen(|v.b|); } else if v.n >= 0 { VarintAtMostTen(v.n); }
    }
  }

  lemma SmallIsShort(types: seq<Type>, m: Sub, n: nat)
    requires ValidFields(types, m.fields) && SmallSub(m, n) && |types| <= 3
    ensures |SerializeSub(types, m)| <= 4 * n + 33
  {
    if |types| > 0 { SmallField(types, m, 0, n); }
    if |types| > 1 { SmallField(types, m, 1, n); }
    if |types| > 2 { SmallField(types, m, 2, n); }
    SubLength(types, m);
  }

  lemma SmallIsValid(m: Request, n: nat)
    requires Sound(m) && Small(m, n) && n < 0x1000_0000_0000_0000
    ensures Valid(m)
  {
    if m.calling.Call? { SmallIsShort(Schema(m.calling.kind), m.calling.sub, n); }
  }

  /** Whatever bytes the parser accepts, with numbers that no writer writes, fields in any order
      or repeated, and unknown fields: the message it makes of them can be written, and reading
      that gives the same message again. */
  lemma AcceptedIsStable(b: seq<Byte>)
    requires Parse(b, EMPTY).Some? && |b| < 0x1000_0000_0000_0000
    ensures var m := Parse(b, EMPTY).value; Valid(m) && Parse(Serialize(m), EMPTY) == Some(m)
  {
    var m := Parse(b, EMPTY).value;
    assert Sound(m) by { ParsedIsSound(b, EMPTY); }
    assert Small(m, |b|) by { ParsedIsSmall(b, EMPTY, 0); }
    SmallIsValid(m, |b|);
    RoundTrip(m);
  }

  /** Process 1 asks for a socket of domain 2, type 1 and protocol 6. */
  lemma SocketExample()
    ensures Means([0x0A, 0x06, 0x08, 0x02, 0x10, 0x01, 0x18, 0x06, 0x78, 0x01],
                  Request(Some(1), Call(1, Sub([Some(Scalar(2)), Some(Scalar(1)), Some(Scalar(6))], [])), []))
  {
    SocketBytes(Some(2), Some(1), Some(6), Some(1));
    var body: seq<Byte> := [0x08, 0x02, 0x10, 0x01, 0x18, 0x06];
    assert IntBytes(8, Some(2)) + IntBytes(16, Some(1)) + IntBytes(24, Some(6)) == body;
    assert Member(10, body, Some(1)) == [0x0A, 0x06, 0x08, 0x02, 0x10, 0x01, 0x18, 0x06, 0x78, 0x01];
  }
}
