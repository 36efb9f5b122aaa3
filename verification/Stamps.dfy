/** Time stamps of the simulation kernel: a 64-bit time and a 64-bit tie-breaking
    sequence, ordered lexicographically (src/state_store.hpp). */
module Stamps {

  const TWO64: int := 0x1_0000_0000_0000_0000

  type u8 = x: int | 0 <= x < 0x100
  type u32 = x: int | 0 <= x < 0x1_0000_0000
  type u64 = x: int | 0 <= x < 0x1_0000_0000_0000_0000

  datatype TimeStamp = TimeStamp(time: u64, sequence: u64) {

    predicate Lt(that: TimeStamp) {
      time < that.time || (time == that.time && sequence < that.sequence)
    }

    /** The code only ever uses `<`; "not less" is written through it. */
    predicate Le(that: TimeStamp) {
      !that.Lt(this)
    }
  }

  const ZERO := TimeStamp(0, 0)
  const MAX_STAMP := TimeStamp(0xFFFF_FFFF_FFFF_FFFF, 0xFFFF_FFFF_FFFF_FFFF)

  /** A 64-bit counter stepped by one, with the wrap of unsigned arithmetic. */
  function Next64(n: u64): u64 {
    if n == TWO64 - 1 then 0 else n + 1
  }

  function StampAtMaxSequence(time: u64): TimeStamp {
    TimeStamp(time, 0xFFFF_FFFF_FFFF_FFFF)
  }

  function PrevStamp(ts: TimeStamp): TimeStamp {
    if ts.sequence > 0 then TimeStamp(ts.time, ts.sequence - 1)
    else if ts.time == 0 then ZERO
    else StampAtMaxSequence(ts.time - 1)
  }

  function MinStamp(a: TimeStamp, b: TimeStamp): TimeStamp {
    if b.Lt(a) then b else a
  }

  /** The position of a stamp in the whole order. */
  function Ord(ts: TimeStamp): (n: nat)
    ensures n < TWO64 * TWO64
  {
    ts.time * TWO64 + ts.sequence
  }

  lemma OrdIsOrder(a: TimeStamp, b: TimeStamp)
    ensures a.Lt(b) <==> Ord(a) < Ord(b)
    ensures a == b <==> Ord(a) == Ord(b)
  {
  }

  /** PrevStamp is the exact predecessor in the 64-bit lexicographic order: nothing lies
      between the two, and every stamp but the first has one. */
  lemma PrevStampIsPredecessor(ts: TimeStamp)
    ensures ts != ZERO ==> Ord(PrevStamp(ts)) + 1 == Ord(ts)
    ensures ts != ZERO ==> forall s: TimeStamp :: s.Lt(ts) <==> s.Le(PrevStamp(ts))
    ensures PrevStamp(ZERO) == ZERO
  {
    if ts != ZERO {
      forall s: TimeStamp
        ensures s.Lt(ts) <==> s.Le(PrevStamp(ts))
      {
        OrdIsOrder(s, ts);
        OrdIsOrder(PrevStamp(ts), s);
      }
    }
  }

  /** The least element of a finite set of stamps, with the largest stamp standing for "none". */
  ghost function MinOf(s: set<TimeStamp>): (m: TimeStamp)
    ensures forall x :: x in s ==> m.Le(x)
    ensures m in s || m == MAX_STAMP
  {
    if s == {} then MAX_STAMP
    else
      var x :| x in s;
      var rest := MinOf(s - {x});
      assert forall y :: y in s ==> y == x || y in s - {x};
      MinStamp(x, rest)
  }

  lemma MinOfUnique(s: set<TimeStamp>, m: TimeStamp)
    requires forall x :: x in s ==> m.Le(x)
    requires m in s || m == MAX_STAMP
    ensures m == MinOf(s)
  {
    var n := MinOf(s);
    assert m.Le(n) && n.Le(m);
  }
}
