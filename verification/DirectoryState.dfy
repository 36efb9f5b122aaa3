/** The directory's state as bytes (save_state and load_state in src/directory_lp.hpp): loading
    undoes saving for every nested ownership history whose counts fit 32 bits. */
module DirectoryState {
  import opened Stamps
  import opened Events
  import opened Wire
  import opened Directory
  import opened Collections

  datatype Entry = Entry(ts: TimeStamp, owner: LPId)

  /** A history as the ordered maps yield it: entity after entity, entry after entry. */
  datatype Item = Item(entity: EntityId, entries: seq<Entry>)

  /* ---- Saving ---- */

  function EntryBytes(x: Entry): (b: Bytes)
    ensures |b| == 20
  {
    Little(8, x.ts.time) + Little(8, x.ts.sequence) + Little(4, x.owner)
  }

  function EntriesBytes(xs: seq<Entry>): Bytes {
    if |xs| == 0 then [] else EntriesBytes(xs[..|xs| - 1]) + EntryBytes(xs[|xs| - 1])
  }

  function ItemBytes(x: Item): Bytes {
    Little(8, x.entity) + Little(4, |x.entries| % 0x1_0000_0000) + EntriesBytes(x.entries)
  }

  function ItemsBytes(xs: seq<Item>): Bytes {
    if |xs| == 0 then [] else ItemsBytes(xs[..|xs| - 1]) + ItemBytes(xs[|xs| - 1])
  }

  function Saved(xs: seq<Item>): Bytes {
    Little(4, |xs| % 0x1_0000_0000) + ItemsBytes(xs)
  }

  /** Where an item stands: behind the count of items, and behind every item before it. */
  function ItemPlace(xs: seq<Item>, i: nat): nat
    requires i <= |xs|
  {
    if i == 0 then 4 else ItemPlace(xs, i - 1) + 12 + 20 * |xs[i - 1].entries|
  }

  lemma {:induction false} EntriesLength(xs: seq<Entry>)
    ensures |EntriesBytes(xs)| == 20 * |xs|
    decreases |xs|
  {
    if |xs| > 0 { EntriesLength(xs[..|xs| - 1]); }
  }

  lemma {:induction false} EntryStands(xs: seq<Entry>, j: nat)
    requires j < |xs|
    ensures |EntriesBytes(xs)| == 20 * |xs| && Field(EntriesBytes(xs), 20 * j, 20) == EntryBytes(xs[j])
    decreases |xs|
  {
    hide EntryBytes;
    var n := |xs| - 1;
    EntriesLength(xs);
    EntriesLength(xs[..n]);
    if j < n { EntryStands(xs[..n], j); }
  }

  lemma {:induction false} ItemsTo(xs: seq<Item>, i: nat)
    requires i <= |xs|
    ensures 4 + |ItemsBytes(xs[..i])| == ItemPlace(xs, i)
    decreases i
  {
    hide EntriesBytes, Little;
    if i > 0 {
      ItemsTo(xs, i - 1);
      EntriesLength(xs[i - 1].entries);
      assert xs[..i][..i - 1] == xs[..i - 1];
    }
  }

  lemma {:induction false} ItemStands(xs: seq<Item>, i: nat) returns (tail: Bytes)
    requires i < |xs|
    ensures ItemsBytes(xs) == ItemsBytes(xs[..i]) + ItemBytes(xs[i]) + tail
    decreases |xs|
  {
    hide ItemBytes;
    var n := |xs| - 1;
    if i == n {
      tail := [];
    } else {
      var more := ItemStands(xs[..n], i);
      assert xs[..n][..i] == xs[..i];
      tail := more + ItemBytes(xs[n]);
    }
  }

  /** Where the saved bytes of every entity and of every entry stand: the number of entities; for each
      its number and how many entries it has; and for each entry time, sequence and owner. */
  lemma SavedLayout(xs: seq<Item>, i: nat, j: nat)
    requires i < |xs| && j < |xs[i].entries|
    ensures ItemPlace(xs, i) + 12 + 20 * j + 20 <= |Saved(xs)|
    ensures
      var b := Saved(xs);
      var at := ItemPlace(xs, i);
      var entry := at + 12 + 20 * j;
      && Field(b, 0, 4) == Little(4, |xs| % 0x1_0000_0000)
      && Field(b, at, 8) == Little(8, xs[i].entity) && Field(b, at + 8, 4) == Little(4, |xs[i].entries| % 0x1_0000_0000)
      && Field(b, entry, 8) == Little(8, xs[i].entries[j].ts.time)
      && Field(b, entry + 8, 8) == Little(8, xs[i].entries[j].ts.sequence)
      && Field(b, entry + 16, 4) == Little(4, xs[i].entries[j].owner)
  {
    hide EntriesBytes, ItemsBytes, Little, Field;
    var b := Saved(xs);
    var at := ItemPlace(xs, i);
    var tail := ItemStands(xs, i);
    ItemsTo(xs, i);
    var before := Little(4, |xs| % 0x1_0000_0000) + ItemsBytes(xs[..i]);
    assert b == before + ItemBytes(xs[i]) + tail;
    HeadIs(b, |xs| % 0x1_0000_0000, ItemsBytes(xs));
    FieldInside(before, ItemBytes(xs[i]), tail, 0, 8);
    FieldInside(before, ItemBytes(xs[i]), tail, 8, 4);
    ItemHead(xs[i]);
    EntryStands(xs[i].entries, j);
    FieldInside(before, ItemBytes(xs[i]), tail, 12 + 20 * j, 8);
    FieldInside(before, ItemBytes(xs[i]), tail, 12 + 20 * j + 8, 8);
    FieldInside(before, ItemBytes(xs[i]), tail, 12 + 20 * j + 16, 4);
    EntryInItem(xs[i], j, 0, 8);
    EntryInItem(xs[i], j, 8, 8);
    EntryInItem(xs[i], j, 16, 4);
    EntryFields(xs[i].entries[j]);
  }

  lemma HeadIs(b: Bytes, n: u32, rest: Bytes)
    requires b == Little(4, n) + rest
    ensures Field(b, 0, 4) == Little(4, n)
  {
    hide Little;
  }

  lemma FieldInside(a: Bytes, x: Bytes, c: Bytes, off: nat, n: nat)
    requires off + n <= |x|
    ensures Field(a + x + c, |a| + off, n) == Field(x, off, n)
  {
    assert (a + x + c)[|a|..][..|x|] == x;
  }

  lemma ItemHead(x: Item)
    ensures |ItemBytes(x)| == 12 + 20 * |x.entries|
    ensures Field(ItemBytes(x), 0, 8) == Little(8, x.entity)
    ensures Field(ItemBytes(x), 8, 4) == Little(4, |x.entries| % 0x1_0000_0000)
  {
    hide Little, EntriesBytes;
    EntriesLength(x.entries);
  }

  lemma EntryInItem(x: Item, j: nat, off: nat, n: nat)
    requires j < |x.entries| && off + n <= 20
    ensures 12 + 20 * j + off + n <= |ItemBytes(x)|
    ensures Field(ItemBytes(x), 12 + 20 * j + off, n) == Field(EntryBytes(x.entries[j]), off, n)
  {
    hide Little, EntriesBytes, EntryBytes;
    EntryStands(x.entries, j);
    var head := Little(8, x.entity) + Little(4, |x.entries| % 0x1_0000_0000);
    FieldInside(head, EntriesBytes(x.entries), [], 20 * j + off, n);
    assert head + EntriesBytes(x.entries) + [] == ItemBytes(x);
    var e := EntriesBytes(x.entries);
    assert e[20 * j..][..20][off..][..n] == e[20 * j + off..][..n];
  }

  lemma EntryFields(x: Entry)
    ensures Field(EntryBytes(x), 0, 8) == Little(8, x.ts.time) && Field(EntryBytes(x), 8, 8) == Little(8, x.ts.sequence)
    ensures Field(EntryBytes(x), 16, 4) == Little(4, x.owner)
  {
    hide Little;
  }

  /* ---- Loading ---- */

  /** The number at an offset of a buffer. */
  function At(bytes: Bytes, off: nat, n: nat): (v: nat)
    requires off + n <= |bytes|
    ensures v < Pow256(n)
  {
    NumberIsBelow(bytes[off..][..n]);
    Number(bytes[off..][..n])
  }

  /** emplace: an entry already there stays. */
  function Emplace(t: Timeline, ts: TimeStamp, owner: LPId): Timeline {
    if ts in t then t else t[ts := owner]
  }

  function EntryAt(bytes: Bytes, off: nat): Entry
    requires off + 20 <= |bytes|
  {
    Widths();
    Entry(TimeStamp(At(bytes, off, 8), At(bytes, off + 8, 8)), At(bytes, off + 16, 4))
  }

  /** n entries from an offset on, into a timeline; None where the buffer ends too early. */
  function LoadEntries(bytes: Bytes, off: nat, n: nat, t: Timeline): Option<(nat, Timeline)>
    decreases n
  {
    if n == 0 then Some((off, t))
    else if off + 20 > |bytes| then None
    else LoadEntries(bytes, off + 20, n - 1, Emplace(t, EntryAt(bytes, off).ts, EntryAt(bytes, off).owner))
  }

  function LoadItems(bytes: Bytes, off: nat, n: nat, h: History): Option<History>
    decreases n
  {
    if n == 0 then Some(h)
    else if off + 12 > |bytes| then None
    else
      Widths();
      var e: EntityId := At(bytes, off, 8);
      match LoadEntries(bytes, off + 12, At(bytes, off + 8, 4), if e in h then h[e] else map[])
      case None => None
      case Some(next) => LoadItems(bytes, next.0, n - 1, h[e := next.1])
  }

  function Loaded(bytes: Bytes): Option<History> {
    if |bytes| < 4 then None else LoadItems(bytes, 4, At(bytes, 0, 4), map[])
  }

  /* ---- A history and its listing ---- */

  function TimelineOf(xs: seq<Entry>): Timeline {
    if |xs| == 0 then map[] else TimelineOf(xs[..|xs| - 1])[xs[|xs| - 1].ts := xs[|xs| - 1].owner]
  }

  function HistoryOf(xs: seq<Item>): History {
    if |xs| == 0 then map[] else HistoryOf(xs[..|xs| - 1])[xs[|xs| - 1].entity := TimelineOf(xs[|xs| - 1].entries)]
  }

  ghost predicate AscendingEntries(xs: seq<Entry>) {
    forall i, j :: 0 <= i < j < |xs| ==> xs[i].ts.Lt(xs[j].ts)
  }

  ghost predicate AscendingItems(xs: seq<Item>) {
    && (forall i, j :: 0 <= i < j < |xs| ==> xs[i].entity < xs[j].entity)
    && (forall i :: 0 <= i < |xs| ==> AscendingEntries(xs[i].entries))
  }

  ghost predicate CountsFit(xs: seq<Item>) {
    |xs| < 0x1_0000_0000 && forall i :: 0 <= i < |xs| ==> |xs[i].entries| < 0x1_0000_0000
  }

  /* ---- The methods ---- */

  method LeastStamp(keys: set<TimeStamp>) returns (least: TimeStamp)
    requires keys != {}
    ensures least in keys && forall k :: k in keys ==> least.Le(k)
  {
    least :| least in keys;
    var rest := keys - {least};
    while rest != {}
      invariant rest <= keys && least in keys
      invariant forall k :: k in keys && k !in rest ==> least.Le(k)
    {
      var k :| k in rest;
      rest := rest - {k};
      if k.Lt(least) { least := k; }
    }
  }

  method LeastEntity(keys: set<EntityId>) returns (least: EntityId)
    requires keys != {}
    ensures least in keys && forall k :: k in keys ==> least <= k
  {
    least :| least in keys;
    var rest := keys - {least};
    while rest != {}
      invariant rest <= keys && least in keys
      invariant forall k :: k in keys && k !in rest ==> least <= k
    {
      var k :| k in rest;
      rest := rest - {k};
      if k < least { least := k; }
    }
  }

  /** A timeline behind its size, in order of time. */
  method SaveTimeline(t: Timeline) returns (out: Bytes, ghost xs: seq<Entry>)
    ensures out == Little(4, |xs| % 0x1_0000_0000) + EntriesBytes(xs)
    ensures AscendingEntries(xs) && TimelineOf(xs) == t && |xs| == |t|
  {
    hide EntriesBytes, TimelineOf, AscendingEntries, EntryBytes, Little, BeforeStamps;
    out := Little(4, |t| % 0x1_0000_0000);
    xs := [];
    var todo := t.Keys;
    NoEntries(todo);
    AllKeysToDo(t);
    assert out + [] == out;
    while todo != {}
      invariant todo <= t.Keys && |xs| + |todo| == |t|
      invariant out == Little(4, |t| % 0x1_0000_0000) + EntriesBytes(xs)
      invariant AscendingEntries(xs) && TimelineOf(xs) == t - todo && BeforeStamps(xs, todo)
    {
      var k := LeastStamp(todo);
      OneMoreEntry(xs, Entry(k, t[k]), todo);
      OneKeyLess(t, todo, k);
      ConcatAssoc(Little(4, |t| % 0x1_0000_0000), EntriesBytes(xs), EntryBytes(Entry(k, t[k])));
      out := out + EntryBytes(Entry(k, t[k]));
      xs := xs + [Entry(k, t[k])];
      todo := todo - {k};
    }
  }

  /** The whole history behind its size, in order of entity. */
  method SaveState(h: History) returns (out: Bytes, ghost xs: seq<Item>)
    ensures out == Saved(xs) && AscendingItems(xs) && HistoryOf(xs) == h
    ensures |xs| == |h| && SizesAre(h, xs)
  {
    hide ItemsBytes, ItemBytes, HistoryOf, AscendingItems, EntriesBytes, TimelineOf, AscendingEntries, Little, BeforeEntities, SizesAre;
    out := Little(4, |h| % 0x1_0000_0000);
    xs := [];
    var todo := h.Keys;
    NoItemsYet(h);
    AllKeysToDo(h);
    assert out + [] == out;
    while todo != {}
      invariant todo <= h.Keys && |xs| + |todo| == |h|
      invariant out == Little(4, |h| % 0x1_0000_0000) + ItemsBytes(xs)
      invariant AscendingItems(xs) && HistoryOf(xs) == h - todo && BeforeEntities(xs, todo) && SizesAre(h, xs)
    {
      var e := LeastEntity(todo);
      var part, entries := SaveTimeline(h[e]);
      OneMoreItem(xs, Item(e, entries), todo);
      SizeIs(h, xs, Item(e, entries));
      OneKeyLess(h, todo, e);
      ItemBytesAre(out, e, entries);
      ConcatAssoc(Little(4, |h| % 0x1_0000_0000), ItemsBytes(xs), ItemBytes(Item(e, entries)));
      out := out + Little(8, e) + part;
      xs := xs + [Item(e, entries)];
      todo := todo - {e};
    }
  }

  /** Reads a saved state with a cursor; a read past the end throws. */
  method LoadState(bytes: Bytes) returns (h: Option<History>)
    ensures h == Loaded(bytes)
  {
    hide LoadEntries, LoadItems, At, EntryAt;
    Widths();
    if 4 > |bytes| { return None; }
    var n := At(bytes, 0, 4);
    var off := 4;
    var all: History := map[];
    var i := 0;
    while i < n
      invariant i <= n
      invariant Loaded(bytes) == LoadItems(bytes, off, n - i, all)
    {
      NextItem(bytes, off, n - i, all);
      if off + 12 > |bytes| { return None; }
      var e: EntityId := At(bytes, off, 8);
      var count := At(bytes, off + 8, 4);
      var t: Timeline := if e in all then all[e] else map[];
      ghost var t0 := t;
      var next := off + 12;
      var j := 0;
      while j < count
        invariant j <= count
        invariant LoadEntries(bytes, off + 12, count, t0) == LoadEntries(bytes, next, count - j, t)
      {
        NextEntry(bytes, next, count - j, t);
        if next + 20 > |bytes| { return None; }
        var x := EntryAt(bytes, next);
        t := Emplace(t, x.ts, x.owner);
        next := next + 20;
        j := j + 1;
      }
      NoMoreEntries(bytes, next, t);
      all := all[e := t];
      off := next;
      i := i + 1;
    }
    NoMoreItems(bytes, off, all);
    h := Some(all);
  }

  /** All entries are before what is still to come. */
  ghost predicate BeforeStamps(xs: seq<Entry>, todo: set<TimeStamp>) {
    forall i, k :: 0 <= i < |xs| && k in todo ==> xs[i].ts.Lt(k)
  }

  ghost predicate BeforeEntities(xs: seq<Item>, todo: set<EntityId>) {
    forall i, e :: 0 <= i < |xs| && e in todo ==> xs[i].entity < e
  }

  /** Each listed entity has as many entries as its timeline. */
  ghost predicate SizesAre(h: History, xs: seq<Item>) {
    forall i :: 0 <= i < |xs| ==> xs[i].entity in h && |xs[i].entries| == |h[xs[i].entity]|
  }

  lemma NoEntries(todo: set<TimeStamp>)
    ensures EntriesBytes([]) == [] && TimelineOf([]) == map[] && AscendingEntries([]) && BeforeStamps([], todo)
  {
  }

  lemma LaterEntry(xs: seq<Entry>, x: Entry)
    ensures EntriesBytes(xs + [x]) == EntriesBytes(xs) + EntryBytes(x)
    ensures TimelineOf(xs + [x]) == TimelineOf(xs)[x.ts := x.owner]
  {
    hide EntryBytes;
    assert (xs + [x])[..|xs|] == xs;
  }

  lemma OneMoreEntry(xs: seq<Entry>, x: Entry, todo: set<TimeStamp>)
    requires AscendingEntries(xs) && BeforeStamps(xs, todo) && x.ts in todo && forall k :: k in todo ==> x.ts.Le(k)
    ensures AscendingEntries(xs + [x]) && BeforeStamps(xs + [x], todo - {x.ts})
    ensures EntriesBytes(xs + [x]) == EntriesBytes(xs) + EntryBytes(x)
    ensures TimelineOf(xs + [x]) == TimelineOf(xs)[x.ts := x.owner]
  {
    hide EntriesBytes, EntryBytes, TimelineOf;
    LaterEntry(xs, x);
  }

  lemma NoItemsYet(h: History)
    ensures ItemsBytes([]) == [] && HistoryOf([]) == map[] && AscendingItems([])
    ensures BeforeEntities([], h.Keys) && SizesAre(h, [])
  {
  }

  lemma LaterItem(xs: seq<Item>, x: Item)
    ensures ItemsBytes(xs + [x]) == ItemsBytes(xs) + ItemBytes(x)
    ensures HistoryOf(xs + [x]) == HistoryOf(xs)[x.entity := TimelineOf(x.entries)]
  {
    hide ItemBytes, TimelineOf;
    assert (xs + [x])[..|xs|] == xs;
  }

  lemma OneMoreItem(xs: seq<Item>, x: Item, todo: set<EntityId>)
    requires AscendingItems(xs) && AscendingEntries(x.entries)
    requires BeforeEntities(xs, todo) && x.entity in todo && forall e :: e in todo ==> x.entity <= e
    ensures AscendingItems(xs + [x]) && BeforeEntities(xs + [x], todo - {x.entity})
    ensures ItemsBytes(xs + [x]) == ItemsBytes(xs) + ItemBytes(x)
    ensures HistoryOf(xs + [x]) == HistoryOf(xs)[x.entity := TimelineOf(x.entries)]
  {
    hide AscendingEntries, ItemsBytes, ItemBytes, HistoryOf, TimelineOf;
    LaterItem(xs, x);
  }

  lemma SizeIs(h: History, xs: seq<Item>, x: Item)
    requires SizesAre(h, xs) && x.entity in h && |x.entries| == |h[x.entity]|
    ensures SizesAre(h, xs + [x])
  {
  }

  lemma ItemBytesAre(out: Bytes, e: EntityId, entries: seq<Entry>)
    ensures out + Little(8, e) + (Little(4, |entries| % 0x1_0000_0000) + EntriesBytes(entries)) == out + ItemBytes(Item(e, entries))
  {
    hide Little, EntriesBytes;
  }

  lemma NextItem(bytes: Bytes, off: nat, n: nat, h: History)
    requires n > 0
    ensures off + 12 > |bytes| ==> LoadItems(bytes, off, n, h) == None
    ensures off + 12 <= |bytes| ==>
      var e := At(bytes, off, 8);
      Pow256(8) == 0x1_0000_0000_0000_0000 &&
      var t := if e in h then h[e] else map[];
      var next := LoadEntries(bytes, off + 12, At(bytes, off + 8, 4), t);
      LoadItems(bytes, off, n, h) == if next.None? then None else LoadItems(bytes, next.value.0, n - 1, h[e := next.value.1])
  {
    Widths();
  }

  lemma NextEntry(bytes: Bytes, off: nat, n: nat, t: Timeline)
    requires n > 0
    ensures LoadEntries(bytes, off, n, t)
         == if off + 20 > |bytes| then None
            else LoadEntries(bytes, off + 20, n - 1, Emplace(t, EntryAt(bytes, off).ts, EntryAt(bytes, off).owner))
  {
  }

  lemma NoMoreEntries(bytes: Bytes, off: nat, t: Timeline)
    ensures LoadEntries(bytes, off, 0, t) == Some((off, t))
  {
  }

  lemma NoMoreItems(bytes: Bytes, off: nat, h: History)
    ensures LoadItems(bytes, off, 0, h) == Some(h)
  {
  }

  /* ---- Round trip ---- */

  lemma AtOf(a: Bytes, n: nat, v: nat, b: Bytes)
    requires v < Pow256(n)
    ensures At(a + Little(n, v) + b, |a|, n) == v
  {
    var bytes := a + Little(n, v) + b;
    assert bytes[|a|..][..n] == Little(n, v);
    NumberOfLittle(n, v);
  }

  lemma EntryReadsBack(a: Bytes, x: Entry, b: Bytes)
    ensures EntryAt(a + EntryBytes(x) + b, |a|) == x
  {
    hide At, Little;
    Widths();
    var p, q, r := Little(8, x.ts.time), Little(8, x.ts.sequence), Little(4, x.owner);
    var bytes := a + EntryBytes(x) + b;
    assert bytes == a + p + (q + r + b);
    AtOf(a, 8, x.ts.time, q + r + b);
    assert bytes == (a + p) + q + (r + b);
    AtOf(a + p, 8, x.ts.sequence, r + b);
    assert bytes == (a + p + q) + r + b;
    AtOf(a + p + q, 4, x.owner, b);
  }

  lemma {:induction false} EntriesSize(xs: seq<Entry>)
    ensures |EntriesBytes(xs)| == 20 * |xs|
    decreases |xs|
  {
    if |xs| > 0 { EntriesSize(xs[..|xs| - 1]); }
  }

  lemma {:induction false} EntryInBytes(xs: seq<Entry>, i: nat) returns (front: Bytes, back: Bytes)
    requires i < |xs|
    ensures EntriesBytes(xs) == front + EntryBytes(xs[i]) + back && |front| == 20 * i
    decreases |xs|
  {
    hide EntryBytes;
    var n := |xs| - 1;
    if i == n {
      front, back := EntriesBytes(xs[..n]), [];
      EntriesSize(xs[..n]);
      assert front + EntryBytes(xs[n]) + [] == front + EntryBytes(xs[n]);
    } else {
      front, back := EntryInBytes(xs[..n], i);
      var last := EntryBytes(xs[n]);
      assert front + EntryBytes(xs[i]) + back + last == front + EntryBytes(xs[i]) + (back + last);
      back := back + last;
    }
  }

  lemma {:induction false} TimelineKeys(xs: seq<Entry>, k: TimeStamp)
    requires k in TimelineOf(xs)
    ensures exists i :: 0 <= i < |xs| && xs[i].ts == k
    decreases |xs|
  {
    var n := |xs| - 1;
    if xs[n].ts != k {
      TimelineKeys(xs[..n], k);
      var i :| 0 <= i < |xs[..n]| && xs[..n][i].ts == k;
      assert xs[i].ts == k;
    }
  }

  lemma FreshStamp(xs: seq<Entry>, i: nat)
    requires AscendingEntries(xs) && i < |xs|
    ensures xs[i].ts !in TimelineOf(xs[..i])
    ensures TimelineOf(xs[..i + 1]) == Emplace(TimelineOf(xs[..i]), xs[i].ts, xs[i].owner)
  {
    if xs[i].ts in TimelineOf(xs[..i]) {
      TimelineKeys(xs[..i], xs[i].ts);
      assert false;
    }
    assert xs[..i + 1][..i] == xs[..i];
  }

  /** The entries of a timeline load back, wherever they stand. */
  lemma {:induction false} EntriesLoadBack(a: Bytes, xs: seq<Entry>, b: Bytes, i: nat)
    requires AscendingEntries(xs) && i <= |xs|
    ensures LoadEntries(a + EntriesBytes(xs) + b, |a| + 20 * i, |xs| - i, TimelineOf(xs[..i]))
         == Some((|a| + 20 * |xs|, TimelineOf(xs)))
    decreases |xs| - i
  {
    hide EntriesBytes, EntryBytes, AscendingEntries, TimelineOf, EntryAt, Emplace;
    var bytes := a + EntriesBytes(xs) + b;
    EntriesSize(xs);
    if i == |xs| {
      assert xs[..i] == xs;
    } else {
      var front, back := EntryInBytes(xs, i);
      assert bytes == (a + front) + EntryBytes(xs[i]) + (back + b);
      EntryReadsBack(a + front, xs[i], back + b);
      FreshStamp(xs, i);
      EntriesLoadBack(a, xs, b, i + 1);
    }
  }

  lemma ItemLoadsBack(a: Bytes, x: Item, b: Bytes, n: nat, h: History)
    requires AscendingEntries(x.entries) && |x.entries| < 0x1_0000_0000 && x.entity !in h && n > 0
    ensures LoadItems(a + ItemBytes(x) + b, |a|, n, h)
         == LoadItems(a + ItemBytes(x) + b, |a| + |ItemBytes(x)|, n - 1, h[x.entity := TimelineOf(x.entries)])
  {
    hide At, Little, EntriesBytes, LoadEntries, TimelineOf, AscendingEntries, LoadItems;
    Widths();
    var p, q, r := Little(8, x.entity), Little(4, |x.entries|), EntriesBytes(x.entries);
    var bytes := a + ItemBytes(x) + b;
    EntriesSize(x.entries);
    assert bytes == a + p + (q + r + b);
    AtOf(a, 8, x.entity, q + r + b);
    assert bytes == (a + p) + q + (r + b);
    AtOf(a + p, 4, |x.entries|, r + b);
    assert bytes == (a + p + q) + r + b;
    EntriesLoadBack(a + p + q, x.entries, b, 0);
    NoTimeline(x.entries);
    NextItem(bytes, |a|, n, h);
  }

  lemma NoTimeline(xs: seq<Entry>)
    ensures TimelineOf(xs[..0]) == map[]
  {
  }

  lemma {:induction false} ItemInBytes(xs: seq<Item>, i: nat) returns (back: Bytes)
    requires i < |xs|
    ensures ItemsBytes(xs) == ItemsBytes(xs[..i]) + ItemBytes(xs[i]) + back
    ensures ItemsBytes(xs[..i + 1]) == ItemsBytes(xs[..i]) + ItemBytes(xs[i])
    decreases |xs|
  {
    hide ItemBytes;
    var n := |xs| - 1;
    assert xs[..i + 1][..i] == xs[..i];
    if i == n {
      back := [];
      assert xs[..n + 1] == xs;
      assert ItemsBytes(xs[..n]) + ItemBytes(xs[n]) + [] == ItemsBytes(xs[..n]) + ItemBytes(xs[n]);
    } else {
      back := ItemInBytes(xs[..n], i);
      assert xs[..n][..i] == xs[..i];
      var last := ItemBytes(xs[n]);
      assert ItemsBytes(xs[..i]) + ItemBytes(xs[i]) + back + last == ItemsBytes(xs[..i]) + ItemBytes(xs[i]) + (back + last);
      back := back + last;
    }
  }

  lemma {:induction false} HistoryKeys(xs: seq<Item>, e: EntityId)
    requires e in HistoryOf(xs)
    ensures exists i :: 0 <= i < |xs| && xs[i].entity == e
    decreases |xs|
  {
    hide TimelineOf;
    var n := |xs| - 1;
    if xs[n].entity != e {
      HistoryKeys(xs[..n], e);
      var i :| 0 <= i < |xs[..n]| && xs[..n][i].entity == e;
      assert xs[i].entity == e;
    }
  }

  lemma FreshEntity(xs: seq<Item>, i: nat)
    requires AscendingItems(xs) && i < |xs|
    ensures xs[i].entity !in HistoryOf(xs[..i])
    ensures HistoryOf(xs[..i + 1]) == HistoryOf(xs[..i])[xs[i].entity := TimelineOf(xs[i].entries)]
  {
    hide TimelineOf, AscendingEntries;
    if xs[i].entity in HistoryOf(xs[..i]) {
      HistoryKeys(xs[..i], xs[i].entity);
      assert false;
    }
    assert xs[..i + 1][..i] == xs[..i];
  }

  lemma {:induction false} ItemsLoadBack(a: Bytes, xs: seq<Item>, b: Bytes, i: nat)
    requires AscendingItems(xs) && CountsFit(xs) && i <= |xs|
    ensures LoadItems(a + ItemsBytes(xs) + b, |a| + |ItemsBytes(xs[..i])|, |xs| - i, HistoryOf(xs[..i])) == Some(HistoryOf(xs))
    decreases |xs| - i
  {
    hide ItemsBytes, ItemBytes, HistoryOf, TimelineOf, AscendingEntries, LoadItems;
    var bytes := a + ItemsBytes(xs) + b;
    if i == |xs| {
      assert xs[..i] == xs;
      NoMoreItems(bytes, |a| + |ItemsBytes(xs)|, HistoryOf(xs));
    } else {
      var back := ItemInBytes(xs, i);
      var front := ItemsBytes(xs[..i]);
      assert bytes == (a + front) + ItemBytes(xs[i]) + (back + b);
      FreshEntity(xs, i);
      ItemLoadsBack(a + front, xs[i], back + b, |xs| - i, HistoryOf(xs[..i]));
      ItemsLoadBack(a, xs, b, i + 1);
    }
  }

  /** Loading undoes saving: for every listing of a history whose counts fit 32 bits, and whatever
      bytes follow. */
  lemma LoadInvertsSave(xs: seq<Item>, rest: Bytes)
    requires AscendingItems(xs) && CountsFit(xs)
    ensures Loaded(Saved(xs) + rest) == Some(HistoryOf(xs))
  {
    hide ItemsBytes, ItemBytes, HistoryOf, AscendingItems, LoadItems, At, Little, CountsFit;
    assert |xs| < 0x1_0000_0000 by { FitsAtAll(xs); }
    Widths();
    var p := Little(4, |xs|);
    var bytes := Saved(xs) + rest;
    assert bytes == [] + p + (ItemsBytes(xs) + rest);
    AtOf([], 4, |xs|, ItemsBytes(xs) + rest);
    assert bytes == p + ItemsBytes(xs) + rest;
    assert xs[..0] == [];
    NoItemsYet(map[]);
    ItemsLoadBack(p, xs, rest, 0);
  }

  lemma FitsAtAll(xs: seq<Item>)
    requires CountsFit(xs)
    ensures |xs| < 0x1_0000_0000
  {
  }
}
