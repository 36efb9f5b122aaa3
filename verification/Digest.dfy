/** The determinism digest (src/determinism.hpp): the hashes of committed items, summed modulo 2^64
    and xor-ed.  However the items are split over ranks and ordered on each, the combined digest
    is that of all items together. */
module Digest {
  import opened Stamps
  import opened Events
  import opened Wire

  type Word = u64

  const FNV_OFFSET: Word := 1469598103934665603
  const FNV_PRIME: Word := 1099511628211

  /** 2 to the power n. */
  function Pow2(n: nat): (p: nat)
    ensures p > 0
  {
    if n == 0 then 1 else 2 * Pow2(n - 1)
  }

  /** The exclusive or of the n low-order bits of two numbers. */
  function XorBits(n: nat, a: nat, b: nat): (x: nat)
    ensures x < Pow2(n)
  {
    if n == 0 then 0 else (a + b) % 2 + 2 * XorBits(n - 1, a / 2, b / 2)
  }

  lemma {:induction false} Pow2Sum(m: nat, n: nat)
    ensures Pow2(m + n) == Pow2(m) * Pow2(n)
    decreases m
  {
    if m > 0 { Pow2Sum(m - 1, n); }
  }

  lemma Pow2Of64()
    ensures Pow2(64) == TWO64
  {
    assert Pow2(8) == 256;
    Pow2Sum(8, 8);
    Pow2Sum(16, 16);
    Pow2Sum(32, 32);
  }

  function Xor(a: Word, b: Word): Word {
    Pow2Of64();
    XorBits(64, a, b)
  }

  function Plus(a: Word, b: Word): Word {
    if a + b < TWO64 then a + b else a + b - TWO64
  }

  function Times(a: Word, b: Word): Word {
    (a * b) % TWO64
  }

  function Fnv1aStep(h: Word, b: u8): Word {
    Times(Xor(h, b), FNV_PRIME)
  }

  /** FNV-1a over a buffer. */
  function Fnv1a(bytes: Bytes): Word {
    if |bytes| == 0 then FNV_OFFSET else Fnv1aStep(Fnv1a(bytes[..|bytes| - 1]), bytes[|bytes| - 1])
  }

  method Fnv1a64(bytes: Bytes) returns (h: Word)
    ensures h == Fnv1a(bytes)
  {
    hide Times, Xor;
    h := FNV_OFFSET;
    for i := 0 to |bytes|
      invariant h == Fnv1a(bytes[..i])
    {
      assert bytes[..i + 1][..i] == bytes[..i];
      h := Xor(h, bytes[i]);
      h := Times(h, FNV_PRIME);
    }
    assert bytes[..|bytes|] == bytes;
  }

  datatype Sums = Sums(sum: Word, xor: Word)

  datatype DeterminismDigest = DeterminismDigest(events: Sums, outputs: Sums)

  function Add(a: Sums, b: Sums): Sums {
    Sums(Plus(a.sum, b.sum), Xor(a.xor, b.xor))
  }

  const NONE := Sums(0, 0)

  function Of(h: Word): Sums { Sums(h, h) }

  /** The hashes of a list of items, combined in order. */
  function Combined(hashes: seq<Word>): Sums {
    if |hashes| == 0 then NONE else Add(Combined(hashes[..|hashes| - 1]), Of(hashes[|hashes| - 1]))
  }

  /** What of a committed event is hashed: the LP that executed it, but not the rank. */
  function EventBuffer(lp: LPId, ev: Event): Bytes {
    Little(4, lp) + Little(8, ev.ts.time) + Little(8, ev.ts.sequence) + Little(4, ev.src) + Little(8, ev.uid)
    + Little(8, ev.target) + Little(4, ev.payload.kind) + [if ev.isAnti then 1 else 0]
    + Little(8, |ev.payload.bytes|) + ev.payload.bytes
  }

  function OutputBuffer(lp: LPId, ts: TimeStamp, payload: Payload): Bytes {
    Little(4, lp) + Little(8, ts.time) + Little(8, ts.sequence) + Little(4, payload.kind)
    + Little(8, |payload.bytes|) + payload.bytes
  }

  function EventHash(lp: LPId, ev: Event): Word {
    Fnv1a(EventBuffer(lp, ev))
  }

  function OutputHash(lp: LPId, ts: TimeStamp, payload: Payload): Word {
    Fnv1a(OutputBuffer(lp, ts, payload))
  }

  class DeterminismAccumulator {
    var digest: DeterminismDigest
    ghost var events: seq<Word>
    ghost var outputs: seq<Word>

    ghost predicate Valid()
      reads this
    {
      digest == DeterminismDigest(Combined(events), Combined(outputs))
    }

    constructor ()
      ensures Valid() && events == [] && outputs == []
    {
      digest := DeterminismDigest(NONE, NONE);
      events, outputs := [], [];
    }

    method OnCommittedEvent(lp: LPId, ev: Event)
      requires Valid()
      modifies this
      ensures Valid() && events == old(events) + [EventHash(lp, ev)] && outputs == old(outputs)
    {
      hide EventBuffer, Plus, Xor;
      var h := Fnv1a64(EventBuffer(lp, ev));
      digest := digest.(events := Sums(Plus(digest.events.sum, h), Xor(digest.events.xor, h)));
      events := events + [h];
    }

    method OnCommittedOutput(lp: LPId, ts: TimeStamp, payload: Payload)
      requires Valid()
      modifies this
      ensures Valid() && outputs == old(outputs) + [OutputHash(lp, ts, payload)] && events == old(events)
    {
      hide OutputBuffer, Plus, Xor;
      var h := Fnv1a64(OutputBuffer(lp, ts, payload));
      digest := digest.(outputs := Sums(Plus(digest.outputs.sum, h), Xor(digest.outputs.xor, h)));
      outputs := outputs + [h];
    }
  }

  /* ---- What is hashed ---- */

  /** Where each field of a committed event stands in what is hashed. */
  lemma EventBufferLayout(lp: LPId, ev: Event)
    ensures |EventBuffer(lp, ev)| == 53 + |ev.payload.bytes|
    ensures
      var b := EventBuffer(lp, ev);
      && Field(b, 0, 4) == Little(4, lp) && Field(b, 4, 8) == Little(8, ev.ts.time)
      && Field(b, 12, 8) == Little(8, ev.ts.sequence) && Field(b, 20, 4) == Little(4, ev.src)
      && Field(b, 24, 8) == Little(8, ev.uid) && Field(b, 32, 8) == Little(8, ev.target)
      && Field(b, 40, 4) == Little(4, ev.payload.kind) && b[44] == (if ev.isAnti then 1 else 0)
      && Field(b, 45, 8) == Little(8, |ev.payload.bytes|) && b[53..] == ev.payload.bytes
  {
    hide Little;
  }

  lemma SameFieldsSameBuffer(lp: LPId, ev: Event, lq: LPId, ew: Event)
    ensures (&& lp == lq && ev.ts == ew.ts && ev.src == ew.src && ev.uid == ew.uid && ev.target == ew.target
             && ev.payload == ew.payload && ev.isAnti == ew.isAnti) ==> EventBuffer(lp, ev) == EventBuffer(lq, ew)
  {
  }

  /** Two committed events have the same bytes hashed just if they agree in the LP that executed
      them, stamp, source, uid, target, kind, anti-message flag and payload: the destination and the
      GVT colour are left out, and nothing else is. */
  lemma EventBufferIsWhole(lp: LPId, ev: Event, lq: LPId, ew: Event)
    ensures EventBuffer(lp, ev) == EventBuffer(lq, ew) <==>
      && lp == lq && ev.ts == ew.ts && ev.src == ew.src && ev.uid == ew.uid && ev.target == ew.target
      && ev.payload == ew.payload && ev.isAnti == ew.isAnti
  {
    hide EventBuffer, Little, Field;
    Widths();
    EventBufferLayout(lp, ev);
    EventBufferLayout(lq, ew);
    SameBytesJustIf(4, lp, lq);
    SameBytesJustIf(8, ev.ts.time, ew.ts.time);
    SameBytesJustIf(8, ev.ts.sequence, ew.ts.sequence);
    SameBytesJustIf(4, ev.src, ew.src);
    SameBytesJustIf(8, ev.uid, ew.uid);
    SameBytesJustIf(8, ev.target, ew.target);
    SameBytesJustIf(4, ev.payload.kind, ew.payload.kind);
    SameFieldsSameBuffer(lp, ev, lq, ew);
  }

  /** Where each field of a committed output stands in what is hashed. */
  lemma OutputBufferLayout(lp: LPId, ts: TimeStamp, payload: Payload)
    ensures |OutputBuffer(lp, ts, payload)| == 32 + |payload.bytes|
    ensures
      var b := OutputBuffer(lp, ts, payload);
      && Field(b, 0, 4) == Little(4, lp) && Field(b, 4, 8) == Little(8, ts.time)
      && Field(b, 12, 8) == Little(8, ts.sequence) && Field(b, 20, 4) == Little(4, payload.kind)
      && Field(b, 24, 8) == Little(8, |payload.bytes|) && b[32..] == payload.bytes
  {
    hide Little;
  }

  /** Two committed outputs have the same bytes hashed just if they agree in LP, stamp and payload. */
  lemma OutputBufferIsWhole(lp: LPId, ts: TimeStamp, payload: Payload, lq: LPId, tq: TimeStamp, other: Payload)
    ensures OutputBuffer(lp, ts, payload) == OutputBuffer(lq, tq, other) <==>
      lp == lq && ts == tq && payload == other
  {
    hide OutputBuffer, Little, Field;
    Widths();
    OutputBufferLayout(lp, ts, payload);
    OutputBufferLayout(lq, tq, other);
    SameBytesJustIf(4, lp, lq);
    SameBytesJustIf(8, ts.time, tq.time);
    SameBytesJustIf(8, ts.sequence, tq.sequence);
    SameBytesJustIf(4, payload.kind, other.kind);
  }

  /* ---- What is computed of it ---- */

  /** Binary digit k of a number. */
  function Bit(x: nat, k: nat): (b: nat)
    ensures b < 2
  {
    if k == 0 then x % 2 else Bit(x / 2, k - 1)
  }

  lemma {:induction false} XorBitsBit(n: nat, a: nat, b: nat, k: nat)
    requires k < n
    ensures Bit(XorBits(n, a, b), k) == 1 <==> Bit(a, k) != Bit(b, k)
    decreases k
  {
    XorHalves(n, a, b);
    if k > 0 { XorBitsBit(n - 1, a / 2, b / 2, k - 1); }
  }

  /** A digit of the exclusive or is set just where the two differ; the sum is taken modulo 2^64. */
  lemma XorAndPlusMean(a: Word, b: Word, k: nat)
    requires k < 64
    ensures Bit(Xor(a, b), k) == 1 <==> Bit(a, k) != Bit(b, k)
    ensures Plus(a, b) == (a + b) % TWO64
  {
    hide XorBits, Bit;
    XorBitsBit(64, a, b, k);
  }

  /** How many of the numbers have digit k set. */
  function CountBit(hashes: seq<Word>, k: nat): nat {
    if |hashes| == 0 then 0 else CountBit(hashes[..|hashes| - 1], k) + Bit(hashes[|hashes| - 1], k)
  }

  function Total(hashes: seq<Word>): nat {
    if |hashes| == 0 then 0 else Total(hashes[..|hashes| - 1]) + hashes[|hashes| - 1]
  }

  /** The combined digest is the total modulo 2^64 and, digit by digit, the parity of how many
      hashes have the digit set. */
  lemma {:induction false} CombinedMeans(hashes: seq<Word>, k: nat)
    requires k < 64
    ensures Combined(hashes).sum == Total(hashes) % TWO64
    ensures Bit(Combined(hashes).xor, k) == CountBit(hashes, k) % 2
    decreases |hashes|
  {
    hide Bit, Xor, Plus;
    if |hashes| == 0 {
      ZeroHasNoBits(k);
    } else {
      var n := |hashes| - 1;
      CombinedMeans(hashes[..n], k);
      XorAndPlusMean(Combined(hashes[..n]).xor, hashes[n], k);
      XorAndPlusMean(Combined(hashes[..n]).sum, hashes[n], k);
    }
  }

  lemma {:induction false} ZeroHasNoBits(k: nat)
    ensures Bit(0, k) == 0
  {
    if k > 0 { ZeroHasNoBits(k - 1); }
  }

  /** FNV-1a by its constants: an empty buffer hashes to the offset; one more byte is put over the
      low-order digits of the hash, which is then multiplied by the prime modulo 2^64. */
  lemma FnvMeans(bytes: Bytes, b: u8) returns (mixed: Word)
    ensures Fnv1a([]) == 1469598103934665603
    ensures forall k :: 0 <= k < 64 ==> (Bit(mixed, k) == 1 <==> Bit(Fnv1a(bytes), k) != Bit(b, k))
    ensures Fnv1a(bytes + [b]) == mixed * 1099511628211 % TWO64
  {
    hide Bit, Xor;
    assert (bytes + [b])[..|bytes|] == bytes;
    mixed := Xor(Fnv1a(bytes), b);
    forall k | 0 <= k < 64 ensures Bit(mixed, k) == 1 <==> Bit(Fnv1a(bytes), k) != Bit(b, k) {
      XorAndPlusMean(Fnv1a(bytes), b, k);
    }
  }

  /* ---- Order and partition do not matter ---- */

  lemma {:induction false} XorSwaps(n: nat, a: nat, b: nat)
    ensures XorBits(n, a, b) == XorBits(n, b, a)
    decreases n
  {
    if n > 0 { XorSwaps(n - 1, a / 2, b / 2); }
  }

  lemma XorHalves(n: nat, a: nat, b: nat)
    requires n > 0
    ensures XorBits(n, a, b) / 2 == XorBits(n - 1, a / 2, b / 2)
    ensures XorBits(n, a, b) % 2 == (a + b) % 2
  {
  }

  lemma FromHalves(x: nat, y: nat)
    requires x / 2 == y / 2 && x % 2 == y % 2
    ensures x == y
  {
  }

  lemma NoBits(a: nat, b: nat)
    ensures XorBits(0, a, b) == 0
  {
  }

  lemma {:induction false} XorRegroups(n: nat, a: nat, b: nat, c: nat)
    ensures XorBits(n, XorBits(n, a, b), c) == XorBits(n, a, XorBits(n, b, c))
    decreases n
  {
    hide XorBits;
    if n == 0 {
      NoBits(XorBits(0, a, b), c);
      NoBits(a, XorBits(0, b, c));
    } else {
      XorHalves(n, a, b);
      XorHalves(n, b, c);
      XorHalves(n, XorBits(n, a, b), c);
      XorHalves(n, a, XorBits(n, b, c));
      XorRegroups(n - 1, a / 2, b / 2, c / 2);
      SameParity(a, b, c, XorBits(n, a, b), XorBits(n, b, c));
      FromHalves(XorBits(n, XorBits(n, a, b), c), XorBits(n, a, XorBits(n, b, c)));
    }
  }

  lemma SameParity(a: nat, b: nat, c: nat, ab: nat, bc: nat)
    requires ab % 2 == (a + b) % 2 && bc % 2 == (b + c) % 2
    ensures (ab + c) % 2 == (a + bc) % 2
  {
  }

  lemma {:induction false} XorWithZero(n: nat, a: nat)
    requires a < Pow2(n)
    ensures XorBits(n, a, 0) == a
    decreases n
  {
    if n > 0 { XorWithZero(n - 1, a / 2); }
  }

  lemma AddLaws(a: Sums, b: Sums, c: Sums)
    ensures Add(a, b) == Add(b, a)
    ensures Add(Add(a, b), c) == Add(a, Add(b, c))
    ensures Add(a, NONE) == a
  {
    hide XorBits;
    Pow2Of64();
    XorSwaps(64, a.xor, b.xor);
    XorRegroups(64, a.xor, b.xor, c.xor);
    XorWithZero(64, a.xor);
  }

  lemma {:induction false} CombinedConcat(a: seq<Word>, b: seq<Word>)
    ensures Combined(a + b) == Add(Combined(a), Combined(b))
    decreases |b|
  {
    hide Add, Of;
    if |b| == 0 {
      assert a + b == a;
      AddLaws(Combined(a), NONE, NONE);
    } else {
      var n := |b| - 1;
      assert (a + b)[..|a| + n] == a + b[..n];
      CombinedConcat(a, b[..n]);
      AddLaws(Combined(a), Combined(b[..n]), Of(b[n]));
    }
  }

  /** Moving an item to the end changes nothing. */
  lemma MoveToEnd(a: seq<Word>, h: Word, b: seq<Word>)
    ensures Combined(a + [h] + b) == Combined(a + b + [h])
  {
    hide Combined, Add;
    CombinedConcat(a + [h], b);
    CombinedConcat(a, [h]);
    CombinedConcat(a + b, [h]);
    CombinedConcat(a, b);
    AddLaws(Combined(a), Combined([h]), Combined(b));
    AddLaws(Combined(a), Combined(b), Combined([h]));
    AddLaws(Combined([h]), Combined(b), NONE);
  }

  lemma TakeOut(b: seq<Word>, i: nat)
    requires i < |b|
    ensures b == b[..i] + [b[i]] + b[i + 1..]
    ensures multiset(b[..i] + b[i + 1..]) == multiset(b) - multiset{b[i]}
  {
    assert b == b[..i] + [b[i]] + b[i + 1..];
  }

  lemma {:induction false} OrderDoesNotMatter(a: seq<Word>, b: seq<Word>)
    requires multiset(a) == multiset(b)
    ensures Combined(a) == Combined(b)
    decreases |a|
  {
    hide Add, Of, Combined;
    assert |multiset(a)| == |a| && |multiset(b)| == |b|;
    if |a| == 0 {
      assert a == b;
    } else {
      var n := |a| - 1;
      assert a[n] in multiset(a) && a[n] in multiset(b);
      var i :| 0 <= i < |b| && b[i] == a[n];
      var rest := b[..i] + b[i + 1..];
      TakeOut(a, n);
      TakeOut(b, i);
      assert a[..n] + a[n + 1..] == a[..n];
      OrderDoesNotMatter(a[..n], rest);
      MoveToEnd(b[..i], b[i], b[i + 1..]);
      CombinedConcat(rest, [b[i]]);
      CombinedConcat(a[..n], [a[n]]);
      assert a == a[..n] + [a[n]];
    }
  }

  /** All items of all ranks. */
  function AllItems(ranks: seq<seq<Word>>): seq<Word> {
    if |ranks| == 0 then [] else AllItems(ranks[..|ranks| - 1]) + ranks[|ranks| - 1]
  }

  /** The reduced digest: the ranks' digests summed and xor-ed. */
  function Reduced(ranks: seq<seq<Word>>): Sums {
    if |ranks| == 0 then NONE else Add(Reduced(ranks[..|ranks| - 1]), Combined(ranks[|ranks| - 1]))
  }

  lemma {:induction false} ReducedIsCombined(ranks: seq<seq<Word>>)
    ensures Reduced(ranks) == Combined(AllItems(ranks))
    decreases |ranks|
  {
    if |ranks| > 0 {
      var n := |ranks| - 1;
      ReducedIsCombined(ranks[..n]);
      CombinedConcat(AllItems(ranks[..n]), ranks[n]);
    }
  }

  /** The digest does not depend on how the items are split over ranks or ordered on each. */
  lemma DigestIsPartitionIndependent(ranks: seq<seq<Word>>, others: seq<seq<Word>>)
    requires multiset(AllItems(ranks)) == multiset(AllItems(others))
    ensures Reduced(ranks) == Reduced(others)
  {
    ReducedIsCombined(ranks);
    ReducedIsCombined(others);
    OrderDoesNotMatter(AllItems(ranks), AllItems(others));
  }
}
