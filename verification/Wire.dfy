/** The byte codec of the transport (src/wire.hpp): little-endian numbers and length-prefixed
    buffers, with every read checked against the end of the input. */
module Wire {
  import opened Stamps
  import opened Events

  /** 256 to the power n. */
  function Pow256(n: nat): (p: nat)
    ensures p > 0
  {
    if n == 0 then 1 else 256 * Pow256(n - 1)
  }

  /** The n low-order bytes of a number, least first. */
  function Little(n: nat, v: nat): (bytes: Bytes)
    ensures |bytes| == n
  {
    if n == 0 then [] else [v % 256] + Little(n - 1, v / 256)
  }

  /** The number whose bytes these are. */
  function Number(bytes: Bytes): nat {
    if |bytes| == 0 then 0 else bytes[0] + 256 * Number(bytes[1..])
  }

  lemma {:induction false} NumberOfLittle(n: nat, v: nat)
    requires v < Pow256(n)
    ensures Number(Little(n, v)) == v
    decreases n
  {
    if n > 0 {
      var rest := Little(n - 1, v / 256);
      NumberOfLittle(n - 1, v / 256);
      assert Little(n, v)[1..] == rest;
    }
  }

  /** Two numbers that fit have the same bytes just if they are equal. */
  lemma SameBytesJustIf(n: nat, v: nat, w: nat)
    requires v < Pow256(n) && w < Pow256(n)
    ensures Little(n, v) == Little(n, w) <==> v == w
  {
    NumberOfLittle(n, v);
    NumberOfLittle(n, w);
  }

  lemma {:induction false} NumberIsBelow(bytes: Bytes)
    ensures Number(bytes) < Pow256(|bytes|)
    decreases |bytes|
  {
    if |bytes| > 0 { NumberIsBelow(bytes[1..]); }
  }

  lemma {:induction false} NumberSnoc(bytes: Bytes, b: u8)
    ensures Number(bytes + [b]) == Number(bytes) + b * Pow256(|bytes|)
    decreases |bytes|
  {
    if |bytes| == 0 {
      assert bytes + [b] == [b];
      assert Number([b][1..]) == 0;
    } else {
      assert (bytes + [b])[1..] == bytes[1..] + [b];
      NumberSnoc(bytes[1..], b);
      Regroup(b, Pow256(|bytes| - 1));
    }
  }

  lemma Regroup(b: nat, p: nat)
    ensures 256 * (b * p) == b * (256 * p)
  {
  }

  lemma Widths()
    ensures Pow256(4) == 0x1_0000_0000
    ensures Pow256(8) == 0x1_0000_0000_0000_0000
  {
    assert Pow256(1) == 256;
    assert Pow256(2) == 0x1_0000;
    assert Pow256(3) == 0x100_0000;
    assert Pow256(4) == 0x1_0000_0000;
    assert Pow256(5) == 0x100_0000_0000;
    assert Pow256(6) == 0x1_0000_0000_0000;
    assert Pow256(7) == 0x100_0000_0000_0000;
  }

  lemma {:induction false} LittleSnoc(n: nat, v: nat)
    ensures Little(n + 1, v) == Little(n, v) + [v / Pow256(n) % 256]
    decreases n
  {
    if n > 0 {
      LittleSnoc(n - 1, v / 256);
      DivTwice(v, Pow256(n - 1));
    }
  }

  lemma DivTwice(v: nat, p: nat)
    requires p > 0
    ensures v / 256 / p == v / (256 * p)
  {
    var q := v / 256 / p;
    var r := v / 256 % p;
    assert v / 256 == q * p + r;
    assert v == 256 * (q * p + r) + v % 256;
    assert v == q * (256 * p) + (256 * r + v % 256);
    assert 256 * r + v % 256 < 256 * p;
    QuotientIs(v, 256 * p, q, 256 * r + v % 256);
  }

  lemma QuotientIs(v: nat, d: nat, q: nat, r: nat)
    requires d > 0 && v == q * d + r && r < d
    ensures v / d == q
  {
    var e: int := v / d - q;
    assert v == (v / d) * d + v % d;
    assert e * d == r - v % d;
    assert e > 0 ==> e * d >= d;
    assert e < 0 ==> e * d <= -(d as int);
  }

  /** Byte k is the number shifted down by k bytes, cut to eight bits. */
  lemma {:induction false} LittleByte(n: nat, v: nat, k: nat)
    requires k < n
    ensures Little(n, v)[k] == v / Pow256(k) % 256
    decreases k
  {
    if k > 0 {
      LittleByte(n - 1, v / 256, k - 1);
      DivTwice(v, Pow256(k - 1));
    }
  }

  /** n bytes of a buffer from a place on. */
  function Field(bytes: Bytes, at: nat, n: nat): (f: Bytes)
    requires at + n <= |bytes|
    ensures |f| == n
  {
    bytes[at..][..n]
  }

  class WireWriter {
    var buf: Bytes

    constructor ()
      ensures buf == []
    {
      buf := [];
    }

    method WriteU8(v: u8)
      modifies this
      ensures buf == old(buf) + [v]
    {
      buf := buf + [v];
    }

    /** The low-order bytes, each shifted down in turn. */
    method WriteLittle(n: nat, v: nat)
      modifies this
      ensures buf == old(buf) + Little(n, v)
    {
      var shift: nat := 1;
      for i := 0 to n
        invariant shift == Pow256(i)
        invariant buf == old(buf) + Little(i, v)
      {
        LittleSnoc(i, v);
        buf := buf + [v / shift % 256];
        shift := 256 * shift;
      }
    }

    method WriteU32(v: u32)
      modifies this
      ensures buf == old(buf) + Little(4, v)
    {
      WriteLittle(4, v);
    }

    method WriteU64(v: u64)
      modifies this
      ensures buf == old(buf) + Little(8, v)
    {
      WriteLittle(8, v);
    }

    /** A buffer behind its length, cast to 32 bits. */
    method WriteBytes(bytes: Bytes)
      modifies this
      ensures buf == old(buf) + Little(4, |bytes| % 0x1_0000_0000) + bytes
    {
      WriteU32(|bytes| % 0x1_0000_0000);
      buf := buf + bytes;
    }
  }

  /** A cursor over a buffer.  A read past the end throws: it yields None and leaves the cursor. */
  class WireReader {
    const bytes: Bytes
    var pos: nat

    constructor (bytes: Bytes)
      ensures this.bytes == bytes && pos == 0
    {
      this.bytes := bytes;
      pos := 0;
    }

    method ReadU8() returns (v: Option<u8>)
      requires pos <= |bytes|
      modifies this
      ensures v.Some? <==> old(pos) + 1 <= |bytes|
      ensures pos == (if v.Some? then old(pos) + 1 else old(pos)) && pos <= |bytes|
      ensures v.Some? ==> v.value == bytes[old(pos)]
    {
      if pos + 1 > |bytes| { return None; }
      v := Some(bytes[pos]);
      pos := pos + 1;
    }

    /** A number of n bytes, each shifted up and joined in turn. */
    method ReadLittle(n: nat) returns (v: Option<nat>)
      requires pos <= |bytes|
      modifies this
      ensures v.Some? <==> old(pos) + n <= |bytes|
      ensures pos == (if v.Some? then old(pos) + n else old(pos)) && pos <= |bytes|
      ensures v.Some? ==> v.value == Number(bytes[old(pos)..][..n]) && v.value < Pow256(n)
    {
      if pos + n > |bytes| { return None; }
      var start := pos;
      var out: nat := 0;
      var shift: nat := 1;
      for i := 0 to n
        invariant pos == start + i && shift == Pow256(i)
        invariant out == Number(bytes[start..][..i])
      {
        assert bytes[start..][..i + 1] == bytes[start..][..i] + [bytes[pos]];
        NumberSnoc(bytes[start..][..i], bytes[pos]);
        out := out + bytes[pos] * shift;
        shift := 256 * shift;
        pos := pos + 1;
      }
      NumberIsBelow(bytes[start..][..n]);
      v := Some(out);
    }

    method ReadU32() returns (v: Option<u32>)
      requires pos <= |bytes|
      modifies this
      ensures v.Some? <==> old(pos) + 4 <= |bytes|
      ensures pos == (if v.Some? then old(pos) + 4 else old(pos)) && pos <= |bytes|
      ensures v.Some? ==> v.value == Number(bytes[old(pos)..][..4])
    {
      Widths();
      var n := ReadLittle(4);
      v := if n.Some? then Some(n.value) else None;
    }

    method ReadU64() returns (v: Option<u64>)
      requires pos <= |bytes|
      modifies this
      ensures v.Some? <==> old(pos) + 8 <= |bytes|
      ensures pos == (if v.Some? then old(pos) + 8 else old(pos)) && pos <= |bytes|
      ensures v.Some? ==> v.value == Number(bytes[old(pos)..][..8])
    {
      Widths();
      var n := ReadLittle(8);
      v := if n.Some? then Some(n.value) else None;
    }

    /** A length-prefixed buffer; the length is consumed even when the buffer is cut short. */
    method ReadBytes() returns (v: Option<Bytes>)
      requires pos <= |bytes|
      modifies this
      ensures pos <= |bytes|
      ensures v.Some? <==> old(pos) + 4 <= |bytes| && old(pos) + 4 + Number(bytes[old(pos)..][..4]) <= |bytes|
      ensures v.Some? ==> v.value == bytes[old(pos) + 4..][..Number(bytes[old(pos)..][..4])]
      ensures v.Some? ==> pos == old(pos) + 4 + |v.value|
    {
      var n := ReadU32();
      if n.None? || pos + n.value > |bytes| { return None; }
      v := Some(bytes[pos..pos + n.value]);
      assert bytes[pos..][..n.value] == bytes[pos..pos + n.value];
      pos := pos + n.value;
    }
  }
}
