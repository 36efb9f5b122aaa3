/** Events as bytes (src/event_wire.hpp): decoding undoes encoding, and no strict prefix of an
    encoding decodes. */
module EventWire {
  import opened Stamps
  import opened Events
  import opened Wire

  /** The length of everything before the payload's bytes. */
  const HEADER: nat := 50

  /** The fields in the order they are written; the last is the payload's length, cast to 32 bits. */
  function FieldBytes(ev: Event, i: nat): Bytes {
    match i
    case 0 => Little(8, ev.ts.time)
    case 1 => Little(8, ev.ts.sequence)
    case 2 => Little(4, ev.src)
    case 3 => Little(4, ev.dst)
    case 4 => Little(8, ev.target)
    case 5 => Little(8, ev.uid)
    case 6 => [ev.gvtColor]
    case 7 => [if ev.isAnti then 1 else 0]
    case 8 => Little(4, ev.payload.kind)
    case _ => Little(4, |ev.payload.bytes| % 0x1_0000_0000)
  }

  /** The first n fields. */
  function Fields(ev: Event, n: nat): Bytes {
    if n == 0 then [] else Fields(ev, n - 1) + FieldBytes(ev, n - 1)
  }

  lemma Offsets(ev: Event)
    ensures |Fields(ev, 0)| == 0 && |Fields(ev, 1)| == 8 && |Fields(ev, 2)| == 16 && |Fields(ev, 3)| == 20
    ensures |Fields(ev, 4)| == 24 && |Fields(ev, 5)| == 32 && |Fields(ev, 6)| == 40 && |Fields(ev, 7)| == 41
    ensures |Fields(ev, 8)| == 42 && |Fields(ev, 9)| == 46 && |Fields(ev, 10)| == HEADER
  {
    hide Little;
  }

  function Encoding(ev: Event): Bytes {
    Fields(ev, 10) + ev.payload.bytes
  }

  function Wide(bytes: Bytes, at: nat): u64
    requires at + 8 <= |bytes|
  {
    NumberIsBelow(Field(bytes, at, 8));
    Widths();
    Number(Field(bytes, at, 8))
  }

  function Narrow(bytes: Bytes, at: nat): u32
    requires at + 4 <= |bytes|
  {
    NumberIsBelow(Field(bytes, at, 4));
    Widths();
    Number(Field(bytes, at, 4))
  }

  /** What bytes decode to; bytes behind the payload are not looked at. */
  function Decoding(bytes: Bytes): Option<Event> {
    if |bytes| < HEADER then None
    else
      var n := Narrow(bytes, 46);
      if |bytes| < HEADER + n then None
      else Some(Event(TimeStamp(Wide(bytes, 0), Wide(bytes, 8)), Narrow(bytes, 16), Narrow(bytes, 20), Wide(bytes, 24),
                      Wide(bytes, 32), Payload(Narrow(bytes, 42), bytes[HEADER..][..n]), bytes[40], bytes[41] != 0))
  }

  method EncodeEvent(ev: Event) returns (bytes: Bytes)
    ensures bytes == Encoding(ev)
  {
    hide Little, Fields;
    FieldAfterField(ev);
    var w := new WireWriter();
    assert w.buf == Fields(ev, 0);
    w.WriteU64(ev.ts.time);
    assert w.buf == Fields(ev, 1);
    w.WriteU64(ev.ts.sequence);
    assert w.buf == Fields(ev, 2);
    w.WriteU32(ev.src);
    assert w.buf == Fields(ev, 3);
    w.WriteU32(ev.dst);
    assert w.buf == Fields(ev, 4);
    w.WriteU64(ev.target);
    assert w.buf == Fields(ev, 5);
    w.WriteU64(ev.uid);
    assert w.buf == Fields(ev, 6);
    w.WriteU8(ev.gvtColor);
    assert w.buf == Fields(ev, 7);
    w.WriteU8(if ev.isAnti then 1 else 0);
    assert w.buf == Fields(ev, 8);
    w.WriteU32(ev.payload.kind);
    assert w.buf == Fields(ev, 9);
    w.WriteBytes(ev.payload.bytes);
    assert w.buf == Fields(ev, 10) + ev.payload.bytes;
    bytes := w.buf;
  }

  lemma FieldAfterField(ev: Event)
    ensures Fields(ev, 0) == []
    ensures forall n :: 0 < n <= 10 ==> Fields(ev, n) == Fields(ev, n - 1) + FieldBytes(ev, n - 1)
  {
  }

  /** Field after field; the first read past the end makes the whole fail. */
  method DecodeEvent(bytes: Bytes) returns (ev: Option<Event>)
    ensures ev == Decoding(bytes)
  {
    var r := new WireReader(bytes);
    var time := r.ReadU64();
    if time.None? { return None; }
    var sequence := r.ReadU64();
    if sequence.None? { return None; }
    var src := r.ReadU32();
    if src.None? { return None; }
    var dst := r.ReadU32();
    if dst.None? { return None; }
    var target := r.ReadU64();
    if target.None? { return None; }
    var uid := r.ReadU64();
    if uid.None? { return None; }
    var color := r.ReadU8();
    if color.None? { return None; }
    var anti := r.ReadU8();
    if anti.None? { return None; }
    var kind := r.ReadU32();
    if kind.None? { return None; }
    var payload := r.ReadBytes();
    if payload.None? { return None; }
    ev := Some(Event(TimeStamp(time.value, sequence.value), src.value, dst.value, target.value, uid.value,
                     Payload(kind.value, payload.value), color.value, anti.value != 0));
  }

  /* ---- Round trip ---- */

  lemma FieldOf(a: Bytes, f: Bytes, b: Bytes)
    ensures Field(a + f + b, |a|, |f|) == f
  {
  }

  lemma WideOf(a: Bytes, v: u64, b: Bytes)
    ensures Wide(a + Little(8, v) + b, |a|) == v
  {
    FieldOf(a, Little(8, v), b);
    Widths();
    NumberOfLittle(8, v);
  }

  lemma NarrowOf(a: Bytes, v: u32, b: Bytes)
    ensures Narrow(a + Little(4, v) + b, |a|) == v
  {
    FieldOf(a, Little(4, v), b);
    Widths();
    NumberOfLittle(4, v);
  }

  /** Where a field stands among the others. */
  lemma {:induction false} FieldStands(ev: Event, n: nat, i: nat, rest: Bytes) returns (tail: Bytes)
    requires i < n
    ensures Fields(ev, n) + rest == Fields(ev, i) + FieldBytes(ev, i) + tail
    decreases n
  {
    hide FieldBytes;
    if i == n - 1 {
      tail := rest;
    } else {
      var last := FieldBytes(ev, n - 1);
      assert Fields(ev, n) + rest == Fields(ev, n - 1) + (last + rest);
      tail := FieldStands(ev, n - 1, i, last + rest);
    }
  }

  lemma WideReadsBack(ev: Event, i: nat, v: u64, rest: Bytes)
    requires i < 10 && FieldBytes(ev, i) == Little(8, v)
    ensures |Fields(ev, i)| + 8 <= |Fields(ev, 10) + rest| && Wide(Fields(ev, 10) + rest, |Fields(ev, i)|) == v
  {
    hide FieldBytes, Fields, Wide, Little;
    var tail := FieldStands(ev, 10, i, rest);
    WideOf(Fields(ev, i), v, tail);
  }

  lemma NarrowReadsBack(ev: Event, i: nat, v: u32, rest: Bytes)
    requires i < 10 && FieldBytes(ev, i) == Little(4, v)
    ensures |Fields(ev, i)| + 4 <= |Fields(ev, 10) + rest| && Narrow(Fields(ev, 10) + rest, |Fields(ev, i)|) == v
  {
    hide FieldBytes, Fields, Narrow, Little;
    var tail := FieldStands(ev, 10, i, rest);
    NarrowOf(Fields(ev, i), v, tail);
  }

  lemma ByteReadsBack(ev: Event, i: nat, v: u8, rest: Bytes)
    requires i < 10 && FieldBytes(ev, i) == [v]
    ensures |Fields(ev, i)| < |Fields(ev, 10) + rest| && (Fields(ev, 10) + rest)[|Fields(ev, i)|] == v
  {
    hide FieldBytes, Fields;
    var tail := FieldStands(ev, 10, i, rest);
    var bytes := Fields(ev, i) + FieldBytes(ev, i) + tail;
    assert bytes[|Fields(ev, i)|] == v;
  }

  /** The bytes of an encoding, place by place: number k of a field is the field shifted down by k bytes. */
  lemma EncodingLayout(ev: Event)
    ensures |Encoding(ev)| == 50 + |ev.payload.bytes| && Encoding(ev)[50..] == ev.payload.bytes
    ensures
      var b := Encoding(ev);
      && Field(b, 0, 8) == Little(8, ev.ts.time) && Field(b, 8, 8) == Little(8, ev.ts.sequence)
      && Field(b, 16, 4) == Little(4, ev.src) && Field(b, 20, 4) == Little(4, ev.dst)
      && Field(b, 24, 8) == Little(8, ev.target) && Field(b, 32, 8) == Little(8, ev.uid)
      && b[40] == ev.gvtColor && b[41] == (if ev.isAnti then 1 else 0)
      && Field(b, 42, 4) == Little(4, ev.payload.kind) && Field(b, 46, 4) == Little(4, |ev.payload.bytes| % 0x1_0000_0000)
  {
    hide Little, Fields, Field;
    Offsets(ev);
    var b := Encoding(ev);
    FieldIsAt(ev, 0);
    FieldIsAt(ev, 1);
    FieldIsAt(ev, 2);
    FieldIsAt(ev, 3);
    FieldIsAt(ev, 4);
    FieldIsAt(ev, 5);
    FieldIsAt(ev, 6);
    FieldIsAt(ev, 7);
    FieldIsAt(ev, 8);
    FieldIsAt(ev, 9);
    OneByte(b, 40);
    OneByte(b, 41);
  }

  lemma OneByte(b: Bytes, at: nat)
    requires at < |b|
    ensures Field(b, at, 1) == [b[at]]
  {
  }

  lemma FieldIsAt(ev: Event, i: nat)
    requires i < 10
    ensures |Fields(ev, i)| + |FieldBytes(ev, i)| <= |Encoding(ev)|
    ensures Field(Encoding(ev), |Fields(ev, i)|, |FieldBytes(ev, i)|) == FieldBytes(ev, i)
  {
    hide FieldBytes, Fields;
    var tail := FieldStands(ev, 10, i, ev.payload.bytes);
    FieldOf(Fields(ev, i), FieldBytes(ev, i), tail);
  }

  /** Each field of an encoding reads back, whatever follows the header. */
  lemma FieldsReadBack(ev: Event, rest: Bytes)
    ensures |Fields(ev, 10)| == HEADER
    ensures
      var bytes := Fields(ev, 10) + rest;
      && Wide(bytes, 0) == ev.ts.time && Wide(bytes, 8) == ev.ts.sequence && Narrow(bytes, 16) == ev.src
      && Narrow(bytes, 20) == ev.dst && Wide(bytes, 24) == ev.target && Wide(bytes, 32) == ev.uid
      && bytes[40] == ev.gvtColor && (bytes[41] != 0 <==> ev.isAnti) && Narrow(bytes, 42) == ev.payload.kind
      && Narrow(bytes, 46) == |ev.payload.bytes| % 0x1_0000_0000
  {
    hide Little, Wide, Narrow, Fields;
    Offsets(ev);
    WideReadsBack(ev, 0, ev.ts.time, rest);
    WideReadsBack(ev, 1, ev.ts.sequence, rest);
    NarrowReadsBack(ev, 2, ev.src, rest);
    NarrowReadsBack(ev, 3, ev.dst, rest);
    WideReadsBack(ev, 4, ev.target, rest);
    WideReadsBack(ev, 5, ev.uid, rest);
    ByteReadsBack(ev, 6, ev.gvtColor, rest);
    ByteReadsBack(ev, 7, if ev.isAnti then 1 else 0, rest);
    NarrowReadsBack(ev, 8, ev.payload.kind, rest);
    NarrowReadsBack(ev, 9, |ev.payload.bytes| % 0x1_0000_0000, rest);
  }

  /** Decoding undoes encoding, whatever follows, for exactly the events whose payload has fewer than
      2^32 bytes: of a longer one only a part comes back. */
  lemma DecodeInvertsEncode(ev: Event, rest: Bytes)
    ensures Decoding(Encoding(ev)) == Some(ev) <==> |ev.payload.bytes| < 0x1_0000_0000
    ensures |ev.payload.bytes| < 0x1_0000_0000 ==> Decoding(Encoding(ev) + rest) == Some(ev)
    ensures Decoding(Encoding(ev)).Some?
  {
    hide Fields, Wide, Narrow;
    FieldsReadBack(ev, ev.payload.bytes);
    FieldsReadBack(ev, ev.payload.bytes + rest);
    assert Encoding(ev) + rest == Fields(ev, 10) + (ev.payload.bytes + rest);
    var n := |ev.payload.bytes| % 0x1_0000_0000;
    assert Encoding(ev)[HEADER..] == ev.payload.bytes;
    assert n == |ev.payload.bytes| ==> ev.payload.bytes[..n] == ev.payload.bytes;
    assert n == |ev.payload.bytes| ==> (Encoding(ev) + rest)[HEADER..][..n] == ev.payload.bytes;
  }

  /** No strict prefix of an encoding decodes. */
  lemma PrefixesAreRejected(ev: Event, k: nat)
    requires |ev.payload.bytes| < 0x1_0000_0000 && k < |Encoding(ev)|
    ensures Decoding(Encoding(ev)[..k]) == None
  {
    hide Fields, Wide;
    Offsets(ev);
    if k >= HEADER {
      var part := ev.payload.bytes[..k - HEADER];
      assert Encoding(ev)[..k] == Fields(ev, 10) + part;
      FieldsReadBack(ev, part);
    }
  }
}
