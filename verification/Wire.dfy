/** The wire format of Protocol Buffers: base-128 varints and tagged fields. */
module Wire {
  import opened Basics

  const WORD32: nat := 0x1_0000_0000
  const WORD64: nat := 0x1_0000_0000_0000_0000

  // ---- Varints ------------------------------------------------------------------------

  /** Seven bits a byte, least significant first, the top bit marking that more follow. */
  function Varint(n: nat): seq<Byte> {
    if n < 128 then [n] else [n % 128 + 128] + Varint(n / 128)
  }

  function VarintSize(n: nat): nat {
    if n < 128 then 1 else 1 + VarintSize(n / 128)
  }

  /** The groups of a varint of at most `max` bytes, and what follows it. */
  function ReadGroups(b: seq<Byte>, max: nat): (r: Option<(nat, seq<Byte>)>)
    ensures r.Some? ==> |r.value.1| < |b|
    decreases max
  {
    if max == 0 || b == [] then None
    else if b[0] < 128 then Some((b[0], b[1..]))
    else match ReadGroups(b[1..], max - 1)
      case None => None
      case Some(r) => Some((b[0] - 128 + 128 * r.0, r.1))
  }

  /** At most ten bytes, of which 64 bits count. */
  function ReadVarint(b: seq<Byte>): (r: Option<(nat, seq<Byte>)>)
    ensures r.Some? ==> |r.value.1| < |b| && r.value.0 < WORD64
  {
    match ReadGroups(b, 10)
    case None => None
    case Some(r) => Some((r.0 % WORD64, r.1))
  }

  function Power128(k: nat): (p: nat)
    ensures p > 0
  {
    if k == 0 then 1 else 128 * Power128(k - 1)
  }

  lemma {:induction false} GroupsOfVarint(n: nat, max: nat, rest: seq<Byte>)
    requires max > 0 && n < Power128(max)
    ensures ReadGroups(Varint(n) + rest, max) == Some((n, rest))
    decreases max
  {
    var b := Varint(n) + rest;
    if n < 128 {
      assert b[1..] == rest;
    } else {
      assert n / 128 < Power128(max - 1);
      GroupsOfVarint(n / 128, max - 1, rest);
      assert b[1..] == Varint(n / 128) + rest;
      assert b[0] == n % 128 + 128;
    }
  }

  /** Reading undoes writing, whatever follows. */
  lemma ReadsVarint(n: nat, rest: seq<Byte>)
    requires n < WORD64
    ensures ReadVarint(Varint(n) + rest) == Some((n, rest))
  {
    Powers();
    GroupsOfVarint(n, 10, rest);
  }

  lemma {:induction false} VarintLength(n: nat)
    ensures |Varint(n)| == VarintSize(n)
  {
    if n >= 128 {
      VarintLength(n / 128);
    }
  }

  lemma {:induction false} SizeAtMost(n: nat, k: nat)
    requires k > 0 && n < Power128(k)
    ensures VarintSize(n) <= k
    decreases k
  {
    if n >= 128 {
      assert n / 128 < Power128(k - 1);
      SizeAtMost(n / 128, k - 1);
    }
  }

  lemma {:induction false} SizeAtLeast(n: nat, k: nat)
    requires k > 0 && Power128(k - 1) <= n
    ensures VarintSize(n) >= k
    decreases k
  {
    if k > 1 {
      assert Power128(k - 1) == 128 * Power128(k - 2);
      assert n >= 128 && Power128(k - 2) <= n / 128;
      SizeAtLeast(n / 128, k - 1);
    }
  }

  lemma Powers()
    ensures Power128(3) == 0x20_0000
    ensures Power128(5) > WORD32
    ensures Power128(9) == WORD64 / 2
    ensures Power128(10) > WORD64
  {
    assert Power128(5) == 16384 * Power128(3);
    assert Power128(7) == 16384 * Power128(5);
    assert Power128(9) == 16384 * Power128(7);
  }

  // ---- Fields -------------------------------------------------------------------------

  /** A tagged field; the tag is eight times the field number plus the wire type: 0 for a
      varint, 1 for eight bytes, 2 for a payload with its length, 3 for a group of fields up to
      the end tag of wire type 4, 5 for four bytes. */
  datatype Field =
    | Number(tag: nat, value: nat)
    | Data(tag: nat, data: seq<Byte>)
    | Group(tag: nat, fields: seq<Field>)

  ghost predicate WellFormed(f: Field) {
    && f.tag < WORD32 && f.tag / 8 > 0
    && match f
       case Number(tag, value) => tag % 8 == 0 && value < WORD64
       case Data(tag, data) =>
         (tag % 8 == 1 && |data| == 8) || (tag % 8 == 2 && |data| < WORD64) || (tag % 8 == 5 && |data| == 4)
       case Group(tag, fields) => tag % 8 == 3 && forall i :: 0 <= i < |fields| ==> WellFormed(fields[i])
  }

  function Payload(f: Field): seq<Byte>
    decreases f, 0
  {
    match f
    case Number(_, value) => Varint(value)
    case Data(tag, data) => if tag % 8 == 2 then Varint(|data|) + data else data
    case Group(tag, fields) => WriteFields(fields) + Varint(tag + 1)
  }

  function WriteField(f: Field): seq<Byte>
    decreases f, 1
  {
    Varint(f.tag) + Payload(f)
  }

  function WriteFields(fs: seq<Field>): seq<Byte>
    decreases fs, 2
  {
    if fs == [] then [] else WriteField(fs[0]) + WriteFields(fs[1..])
  }

  function Take(tag: nat, b: seq<Byte>, n: nat): (r: Option<(Field, seq<Byte>)>)
    ensures r.Some? ==> |r.value.1| <= |b|
  {
    if n <= |b| then Some((Data(tag, b[..n]), b[n..])) else None
  }

  /** A tag takes at most five bytes, of which 32 bits count. */
  function ReadTag(b: seq<Byte>): (r: Option<(nat, seq<Byte>)>)
    ensures r.Some? ==> |r.value.1| < |b| && r.value.0 < WORD32
  {
    match ReadGroups(b, 5)
    case None => None
    case Some(r) => Some((r.0 % WORD32, r.1))
  }

  /** The rest of a field whose tag has been read. */
  function ReadPayload(tag: nat, b: seq<Byte>): (r: Option<(Field, seq<Byte>)>)
    ensures r.Some? ==> |r.value.1| <= |b|
    decreases |b|, 2
  {
    if tag % 8 == 0 then (
      match ReadVarint(b)
      case None => None
      case Some(v) => Some((Number(tag, v.0), v.1)))
    else if tag % 8 == 1 then Take(tag, b, 8)
    else if tag % 8 == 2 then (
      match ReadVarint(b)
      case None => None
      case Some(v) => Take(tag, v.1, v.0))
    else if tag % 8 == 3 then (
      match ReadToEnd(tag + 1, b)
      case None => None
      case Some(g) => Some((Group(tag, g.0), g.1)))
    else if tag % 8 == 5 then Take(tag, b, 4)
    else None
  }

  /** One field and what follows it, or nothing if the bytes are malformed: a truncated varint or
      payload, field number zero, the end of a group that was not begun, a reserved wire type. */
  function ReadField(b: seq<Byte>): (r: Option<(Field, seq<Byte>)>)
    ensures r.Some? ==> |r.value.1| < |b|
    decreases |b|, 0
  {
    match ReadTag(b)
    case None => None
    case Some(t) => if t.0 / 8 == 0 then None else ReadPayload(t.0, t.1)
  }

  /** The fields of a group, up to its end tag. */
  function ReadToEnd(end: nat, b: seq<Byte>): (r: Option<(seq<Field>, seq<Byte>)>)
    ensures r.Some? ==> |r.value.1| < |b|
    decreases |b|, 1
  {
    match ReadTag(b)
    case None => None
    case Some(t) =>
      if t.0 == end then Some(([], t.1))
      else match ReadField(b)
        case None => None
        case Some(f) =>
          match ReadToEnd(end, f.1)
          case None => None
          case Some(g) => Some(([f.0] + g.0, g.1))
  }

  lemma ReadsTag(tag: nat, rest: seq<Byte>)
    requires tag < WORD32
    ensures ReadTag(Varint(tag) + rest) == Some((tag, rest))
  {
    Powers();
    GroupsOfVarint(tag, 5, rest);
  }

  lemma TakesAll(tag: nat, data: seq<Byte>, rest: seq<Byte>)
    ensures Take(tag, data + rest, |data|) == Some((Data(tag, data), rest))
  {
    assert (data + rest)[..|data|] == data && (data + rest)[|data|..] == rest;
  }

  lemma ReadsData(f: Field, rest: seq<Byte>)
    requires WellFormed(f) && f.Data?
    ensures ReadPayload(f.tag, Payload(f) + rest) == Some((f, rest))
  {
    if f.tag % 8 == 2 {
      assert Payload(f) + rest == Varint(|f.data|) + (f.data + rest);
      ReadsVarint(|f.data|, f.data + rest);
    }
    TakesAll(f.tag, f.data, rest);
  }

  lemma {:induction false} ReadsPayload(f: Field, rest: seq<Byte>)
    requires WellFormed(f)
    ensures ReadPayload(f.tag, Payload(f) + rest) == Some((f, rest))
    decreases f, 0
  {
    match f
    case Number(_, value) => ReadsVarint(value, rest);
    case Data(_, _) => ReadsData(f, rest);
    case Group(tag, fields) =>
      assert Payload(f) + rest == WriteFields(fields) + (Varint(tag + 1) + rest);
      ReadsToEnd(fields, tag + 1, rest);
  }

  /** Reading a field undoes writing it, whatever follows. */
  lemma {:induction false} ReadsField(f: Field, rest: seq<Byte>)
    requires WellFormed(f)
    ensures ReadField(WriteField(f) + rest) == Some((f, rest))
    decreases f, 1
  {
    var after := Payload(f) + rest;
    assert WriteField(f) + rest == Varint(f.tag) + after;
    ReadsTag(f.tag, after);
    ReadsPayload(f, rest);
  }

  lemma OneMore(b: seq<Byte>, f: Field, more: seq<Byte>, fs: seq<Field>, end: nat, rest: seq<Byte>)
    requires ReadTag(b).Some? && ReadTag(b).value.0 != end
    requires ReadField(b) == Some((f, more)) && ReadToEnd(end, more) == Some((fs, rest))
    ensures ReadToEnd(end, b) == Some(([f] + fs, rest))
  {
  }

  lemma WritesTagFirst(f: Field, more: seq<Byte>)
    requires f.tag < WORD32
    ensures ReadTag(WriteField(f) + more) == Some((f.tag, Payload(f) + more))
  {
    assert WriteField(f) + more == Varint(f.tag) + (Payload(f) + more);
    ReadsTag(f.tag, Payload(f) + more);
  }

  lemma {:induction false} ReadsToEnd(fs: seq<Field>, end: nat, rest: seq<Byte>)
    requires end % 8 == 4 && end < WORD32 && forall i :: 0 <= i < |fs| ==> WellFormed(fs[i])
    ensures ReadToEnd(end, WriteFields(fs) + (Varint(end) + rest)) == Some((fs, rest))
    decreases fs, 2
  {
    var tail := Varint(end) + rest;
    if fs == [] {
      assert WriteFields(fs) + tail == tail;
      ReadsTag(end, rest);
    } else {
      var f, more := fs[0], WriteFields(fs[1..]) + tail;
      var b := WriteField(f) + more;
      assert WriteFields(fs) + tail == b;
      WritesTagFirst(f, more);
      ReadsField(f, more);
      ReadsToEnd(fs[1..], end, rest);
      OneMore(b, f, more, fs[1..], end, rest);
      assert [f] + fs[1..] == fs;
    }
  }

  lemma {:induction false} WriteFieldsAppend(fs: seq<Field>, gs: seq<Field>)
    ensures WriteFields(fs + gs) == WriteFields(fs) + WriteFields(gs)
  {
    if fs == [] {
      assert fs + gs == gs;
    } else {
      assert (fs + gs)[1..] == fs[1..] + gs;
      WriteFieldsAppend(fs[1..], gs);
    }
  }

  // ---- What the reader accepts --------------------------------------------------------

  lemma {:induction false} GroupsRefusedIff(b: seq<Byte>, max: nat)
    ensures ReadGroups(b, max).None? <==> forall k :: 0 <= k < max && k < |b| ==> b[k] >= 128
    decreases max
  {
    if max > 0 && b != [] && b[0] >= 128 {
      GroupsRefusedIff(b[1..], max - 1);
      assert forall k :: 0 <= k < |b| - 1 ==> b[1..][k] == b[k + 1];
      if ReadGroups(b, max).None? {
        forall k | 0 <= k < max && k < |b| ensures b[k] >= 128 {
          if k > 0 { assert b[1..][k - 1] >= 128; }
        }
      }
    }
  }

  /** A varint is refused exactly if none of its first ten bytes ends it, a tag exactly if none of
      its first five does. */
  lemma VarintRefusedIff(b: seq<Byte>)
    ensures ReadVarint(b).None? <==> forall k :: 0 <= k < 10 && k < |b| ==> b[k] >= 128
    ensures ReadTag(b).None? <==> forall k :: 0 <= k < 5 && k < |b| ==> b[k] >= 128
  {
    GroupsRefusedIff(b, 10);
    GroupsRefusedIff(b, 5);
  }

  lemma {:induction false} PayloadIsWellFormed(tag: nat, b: seq<Byte>)
    requires tag < WORD32 && tag / 8 > 0
    ensures var r := ReadPayload(tag, b); r.Some? ==> WellFormed(r.value.0) && r.value.0.tag == tag
    decreases |b|, 2
  {
    if tag % 8 == 3 { GroupIsWellFormed(tag + 1, b); }
  }

  /** Every field that is accepted is one that can be written. */
  lemma {:induction false} FieldIsWellFormed(b: seq<Byte>)
    ensures ReadField(b).Some? ==> WellFormed(ReadField(b).value.0)
    decreases |b|, 0
  {
    var t := ReadTag(b);
    if t.Some? && t.value.0 / 8 > 0 { PayloadIsWellFormed(t.value.0, t.value.1); }
  }

  ghost predicate AllWellFormed(fs: seq<Field>) {
    forall i :: 0 <= i < |fs| ==> WellFormed(fs[i])
  }

  lemma {:induction false} GroupIsWellFormed(end: nat, b: seq<Byte>)
    ensures ReadToEnd(end, b).Some? ==> AllWellFormed(ReadToEnd(end, b).value.0)
    decreases |b|, 1
  {
    var t := ReadTag(b);
    if t.Some? && t.value.0 != end {
      FieldIsWellFormed(b);
      var f := ReadField(b);
      if f.Some? {
        GroupIsWellFormed(end, f.value.1);
        var g := ReadToEnd(end, f.value.1);
        if g.Some? { assert AllWellFormed([f.value.0] + g.value.0); }
      }
    }
  }

  lemma {:induction false} VarintSizeGrows(m: nat, n: nat)
    requires m <= n
    ensures VarintSize(m) <= VarintSize(n)
    decreases n
  {
    if m >= 128 { VarintSizeGrows(m / 128, n / 128); }
  }

  lemma {:induction false} GroupsShrink(b: seq<Byte>, max: nat)
    ensures var r := ReadGroups(b, max); r.Some? ==> VarintSize(r.value.0) + |r.value.1| <= |b|
    decreases max
  {
    if max > 0 && b != [] && b[0] >= 128 {
      GroupsShrink(b[1..], max - 1);
      var r := ReadGroups(b[1..], max - 1);
      if r.Some? {
        var low, v := b[0] - 128, b[0] - 128 + 128 * r.value.0;
        assert v / 128 == r.value.0;
      }
    }
  }

  lemma {:induction false} LowPartShrinks(v: nat, w: nat, b: seq<Byte>, rest: seq<Byte>)
    requires w > 0 && VarintSize(v) + |rest| <= |b|
    ensures |Varint(v % w)| + |rest| <= |b|
  {
    VarintLength(v % w);
    VarintSizeGrows(v % w, v);
  }

  lemma TagShrinks(b: seq<Byte>)
    ensures var r := ReadTag(b); r.Some? ==> |Varint(r.value.0)| + |r.value.1| <= |b|
  {
    GroupsShrink(b, 5);
    var r := ReadGroups(b, 5);
    if r.Some? { LowPartShrinks(r.value.0, WORD32, b, r.value.1); }
  }

  lemma VarintShrinks(b: seq<Byte>)
    ensures var r := ReadVarint(b); r.Some? ==> |Varint(r.value.0)| + |r.value.1| <= |b|
  {
    GroupsShrink(b, 10);
    var r := ReadGroups(b, 10);
    if r.Some? { LowPartShrinks(r.value.0, WORD64, b, r.value.1); }
  }

  lemma TakeShrinks(tag: nat, b: seq<Byte>, n: nat, head: nat)
    requires tag % 8 == 2 ==> |Varint(n)| <= head
    ensures var r := Take(tag, b, n); r.Some? ==> |Payload(r.value.0)| + |r.value.1| <= head + |b|
  {
  }

  lemma FlatPayloadShrinks(tag: nat, b: seq<Byte>)
    requires tag % 8 != 3
    ensures var r := ReadPayload(tag, b); r.Some? ==> |Payload(r.value.0)| + |r.value.1| <= |b|
  {
    VarintShrinks(b);
    var v := ReadVarint(b);
    if tag % 8 == 1 {
      TakeShrinks(tag, b, 8, 0);
    } else if tag % 8 == 5 {
      TakeShrinks(tag, b, 4, 0);
    } else if tag % 8 == 2 && v.Some? {
      TakeShrinks(tag, v.value.1, v.value.0, |Varint(v.value.0)|);
    }
  }

  lemma {:induction false} PayloadShrinks(tag: nat, b: seq<Byte>)
    ensures var r := ReadPayload(tag, b); r.Some? ==> |Payload(r.value.0)| + |r.value.1| <= |b|
    decreases |b|, 2
  {
    if tag % 8 == 3 { GroupShrinks(tag + 1, b); } else { FlatPayloadShrinks(tag, b); }
  }

  /** A field is never written with more bytes than it was read from. */
  lemma {:induction false} FieldShrinks(b: seq<Byte>)
    ensures var r := ReadField(b); r.Some? ==> |WriteField(r.value.0)| + |r.value.1| <= |b|
    decreases |b|, 0
  {
    TagShrinks(b);
    var t := ReadTag(b);
    if t.Some? && t.value.0 / 8 > 0 {
      PayloadShrinks(t.value.0, t.value.1);
      PayloadHasTag(t.value.0, t.value.1);
    }
  }

  lemma PayloadHasTag(tag: nat, b: seq<Byte>)
    ensures ReadPayload(tag, b).Some? ==> ReadPayload(tag, b).value.0.tag == tag
  {
  }

  lemma {:induction false} GroupShrinks(end: nat, b: seq<Byte>)
    ensures var r := ReadToEnd(end, b); r.Some? ==> |WriteFields(r.value.0)| + |Varint(end)| + |r.value.1| <= |b|
    decreases |b|, 1
  {
    TagShrinks(b);
    var t := ReadTag(b);
    if t.Some? && t.value.0 != end && ReadField(b).Some? {
      FieldShrinks(b);
      var f := ReadField(b).value;
      GroupShrinks(end, f.1);
      var g := ReadToEnd(end, f.1);
      if g.Some? {
        assert ([f.0] + g.value.0)[1..] == g.value.0;
        assert WriteFields([f.0] + g.value.0) == WriteField(f.0) + WriteFields(g.value.0);
      }
    }
  }
}
