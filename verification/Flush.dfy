/** The order in which committed output is handed to the sink: by stamp, LP, source, uid and
    index (the sort at the end of prune_to_gvt_ in src/simulation.hpp). */
module Flush {
  import opened Stamps
  import opened Events

  datatype FlushItem = FlushItem(
    ts: TimeStamp,
    lp: LPId,
    eventSrc: LPId,
    eventUid: Uid,
    index: nat,
    payload: Payload)

  predicate ItemBefore(a: FlushItem, b: FlushItem) {
    if a.ts != b.ts then a.ts.Lt(b.ts)
    else if a.lp != b.lp then a.lp < b.lp
    else if a.eventSrc != b.eventSrc then a.eventSrc < b.eventSrc
    else if a.eventUid != b.eventUid then a.eventUid < b.eventUid
    else a.index < b.index
  }

  predicate SameKey(a: FlushItem, b: FlushItem) {
    a.ts == b.ts && a.lp == b.lp && a.eventSrc == b.eventSrc && a.eventUid == b.eventUid && a.index == b.index
  }

  /** No two items agree in everything the sort looks at. */
  ghost predicate DistinctKeys(s: set<FlushItem>) {
    forall a, b :: a in s && b in s && SameKey(a, b) ==> a == b
  }

  ghost predicate Ascending(items: seq<FlushItem>) {
    forall i, j :: 0 <= i < j < |items| ==> ItemBefore(items[i], items[j])
  }

  /** What ascending means, field by field: stamps never descend; at one stamp LPs do not; at one LP
      sources do not; at one source uids do not; and at one uid the indices strictly ascend. */
  ghost predicate InFlushOrder(items: seq<FlushItem>) {
    forall i, j :: 0 <= i < j < |items| ==>
      var a, b := items[i], items[j];
      && (a.ts.time < b.ts.time || (a.ts.time == b.ts.time && a.ts.sequence <= b.ts.sequence))
      && (a.ts == b.ts ==> a.lp <= b.lp)
      && (a.ts == b.ts && a.lp == b.lp ==> a.eventSrc <= b.eventSrc)
      && (a.ts == b.ts && a.lp == b.lp && a.eventSrc == b.eventSrc ==> a.eventUid <= b.eventUid)
      && (a.ts == b.ts && a.lp == b.lp && a.eventSrc == b.eventSrc && a.eventUid == b.eventUid ==> a.index < b.index)
  }

  lemma AscendingIsFlushOrder(items: seq<FlushItem>)
    ensures Ascending(items) <==> InFlushOrder(items)
  {
    if InFlushOrder(items) {
      forall i, j | 0 <= i < j < |items| ensures ItemBefore(items[i], items[j]) {}
    }
  }

  lemma {:induction false} LeastExists(s: set<FlushItem>) returns (m: FlushItem)
    requires s != {}
    ensures m in s && forall x :: x in s ==> !ItemBefore(x, m)
    decreases |s|
  {
    var x :| x in s;
    var rest := s - {x};
    if rest == {} {
      assert s == {x};
      m := x;
    } else {
      var y := LeastExists(rest);
      m := if ItemBefore(x, y) then x else y;
      forall z | z in s ensures !ItemBefore(z, m) {
        if z != x { assert z in rest; }
      }
    }
  }

  ghost function Least(s: set<FlushItem>): (m: FlushItem)
    requires s != {}
    ensures m in s && forall x :: x in s ==> !ItemBefore(x, m)
  {
    assert exists m :: m in s && forall x :: x in s ==> !ItemBefore(x, m) by {
      var m := LeastExists(s);
    }
    var m :| m in s && forall x :: x in s ==> !ItemBefore(x, m);
    m
  }

  /** The elements of a set, least first. */
  ghost function InOrder(s: set<FlushItem>): (items: seq<FlushItem>)
    ensures forall x :: x in items <==> x in s
    ensures |items| == |s|
    decreases |s|
  {
    if s == {} then []
    else
      var m := Least(s);
      [m] + InOrder(s - {m})
  }

  lemma {:induction false} InOrderAscends(s: set<FlushItem>)
    requires DistinctKeys(s)
    ensures Ascending(InOrder(s))
    decreases |s|
  {
    if s != {} {
      var m := Least(s);
      var rest := InOrder(s - {m});
      InOrderAscends(s - {m});
      forall j | 0 <= j < |rest|
        ensures ItemBefore(m, rest[j])
      {
        assert rest[j] in s - {m};
        assert !SameKey(m, rest[j]);
      }
    }
  }

  /** There is only one way to list a set of items in ascending order. */
  lemma {:induction false} AscendingIsUnique(a: seq<FlushItem>, b: seq<FlushItem>)
    requires Ascending(a) && Ascending(b)
    requires forall x :: x in a <==> x in b
    ensures a == b
    decreases |a|
  {
    assert |a| > 0 ==> a[0] in b;
    assert |b| > 0 ==> b[0] in b && b[0] in a;
    if |a| > 0 {
      assert a[0] in a && b[0] in b;
      var i :| 0 <= i < |b| && b[i] == a[0];
      var j :| 0 <= j < |a| && a[j] == b[0];
      assert i == 0 && j == 0;
      forall x ensures x in a[1..] <==> x in b[1..] {
        if x in a[1..] { assert x in a && x in b; var k :| 0 <= k < |b| && b[k] == x; assert k != 0; assert b[1..][k - 1] == x; }
        if x in b[1..] { assert x in b && x in a; var k :| 0 <= k < |a| && a[k] == x; assert k != 0; assert a[1..][k - 1] == x; }
      }
      AscendingIsUnique(a[1..], b[1..]);
      assert a == [a[0]] + a[1..];
      assert b == [b[0]] + b[1..];
    }
  }

  /** Ascending lists one after the other stay ascending when all of the first is before the second. */
  lemma AscendingConcat(a: seq<FlushItem>, b: seq<FlushItem>)
    requires Ascending(a) && Ascending(b)
    requires forall x, y :: x in a && y in b ==> ItemBefore(x, y)
    ensures Ascending(a + b)
  {
  }
}
