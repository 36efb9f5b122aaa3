/** Committed output is that of the sequential run: at every moment, what a rank has given to its sink
    for an LP is the list of outputs the sequential run makes for it below the GVT. */
module SequentialOutputs {
  import opened Stamps
  import opened Events
  import opened Models
  import opened Flush
  import opened Kernel
  import opened Replay
  import opened LpInvariant
  import opened Ledgers
  import opened Books
  import opened Tombs
  import opened Floor
  import opened Handling
  import opened Worlds
  import opened Moves
  import opened Network
  import opened Gvt
  import opened Runs
  import opened Outputs
  import opened OutputRuns
  import opened SimulationFacts
  import opened Closed
  import opened Sequential
  import opened Invisible
  import opened Equivalence

  /* ---- The outputs of a history ---- */

  /** What an event's handler emits. */
  function EmittedBy(m: Model, l: LPId, s: LpState, ev: Event): seq<Output> {
    if ev.isAnti then [] else RunFrame(m.entitySnapshots(l), OpenFrame(s), m.handle(l, s, ev)).committed
  }

  /** What a run of events emits, one after the other. */
  function OutputsOf(m: Model, l: LPId, evs: seq<Event>): seq<Output>
    decreases |evs|
  {
    if |evs| == 0 then []
    else
      var n := |evs| - 1;
      OutputsOf(m, l, evs[..n]) + EmittedBy(m, l, StateAfter(m, l, evs[..n]), evs[n])
  }

  lemma OutputsSnoc(m: Model, l: LPId, evs: seq<Event>, ev: Event)
    ensures OutputsOf(m, l, evs + [ev]) == OutputsOf(m, l, evs) + EmittedBy(m, l, StateAfter(m, l, evs), ev)
  {
    hide EmittedBy, StateAfter;
    assert (evs + [ev])[..|evs|] == evs;
  }

  lemma {:induction false} PositiveOutputs(m: Model, l: LPId, evs: seq<Event>)
    ensures OutputsOf(m, l, Positive(evs)) == OutputsOf(m, l, evs)
    decreases |evs|
  {
    hide Positive, StateAfter;
    if |evs| == 0 {
      PositiveEmpty();
      assert evs == [];
    } else {
      var n := |evs| - 1;
      PositiveOutputs(m, l, evs[..n]);
      PositiveLast(evs);
      PositiveReplay(m, l, true, evs[..n]);
      assert evs == evs[..n] + [evs[n]];
      OutputsSnoc(m, l, evs[..n], evs[n]);
      if evs[n].isAnti {
        assert OutputsOf(m, l, evs[..n]) + [] == OutputsOf(m, l, evs[..n]);
      } else {
        OutputsSnoc(m, l, Positive(evs[..n]), evs[n]);
      }
    }
  }

  /** Histories that say the same emit the same. */
  lemma {:induction false} SameContentsSameOutputs(m: Model, l: LPId, a: seq<Event>, b: seq<Event>)
    requires IdentityBlind(m) && Plain(a) && Plain(b) && ContentsOf(a) == ContentsOf(b)
    ensures OutputsOf(m, l, a) == OutputsOf(m, l, b)
    decreases |a|
  {
    hide RunFrame, StateAfter;
    assert |ContentsOf(a)| == |a| && |ContentsOf(b)| == |b|;
    if |a| > 0 {
      var n := |a| - 1;
      assert ContentsOf(a)[n] == ContentsOf(b)[n];
      assert ContentsOf(a[..n]) == ContentsOf(a)[..n] && ContentsOf(b[..n]) == ContentsOf(b)[..n];
      SameContentsSameOutputs(m, l, a[..n], b[..n]);
      SameContentsSameReplay(m, l, a[..n], b[..n]);
      assert m.handle(l, StateAfter(m, l, a[..n]), a[n]) == m.handle(l, StateAfter(m, l, b[..n]), b[n]);
    }
  }

  /* ---- The outputs of records ---- */

  function RecordOutputs(recs: seq<Record>): seq<Output>
    decreases |recs|
  {
    if |recs| == 0 then [] else RecordOutputs(recs[..|recs| - 1]) + recs[|recs| - 1].committed
  }

  lemma RecordsOkFront(m: Model, l: LPId, recs: seq<Record>, k: nat)
    requires RecordsOk(m, l, recs) && k <= |recs|
    ensures RecordsOk(m, l, recs[..k])
  {
    hide RecordOk;
    forall i | 0 <= i < k ensures RecordOk(m, l, StateAfter(m, l, EventsOf(recs[..k][..i])), recs[..k][i]) {
      assert recs[..k][..i] == recs[..i];
    }
  }

  /** The records keep just what the replay of their events emits. */
  lemma {:induction false} RecordsKeepOutputs(m: Model, l: LPId, recs: seq<Record>)
    requires RecordsOk(m, l, recs)
    ensures RecordOutputs(recs) == OutputsOf(m, l, EventsOf(recs))
    decreases |recs|
  {
    hide RunFrame, StateAfter, RecordsOk;
    if |recs| > 0 {
      var n := |recs| - 1;
      RecordsOkFront(m, l, recs, n);
      RecordsKeepOutputs(m, l, recs[..n]);
      LastRecordOk(m, l, recs);
      EventsOfPrefix(recs, n);
      assert EventsOf(recs) == EventsOf(recs[..n]) + [recs[n].ev];
      OutputsSnoc(m, l, EventsOf(recs[..n]), recs[n].ev);
    }
  }

  lemma LastRecordOk(m: Model, l: LPId, recs: seq<Record>)
    requires RecordsOk(m, l, recs) && |recs| > 0
    ensures recs[|recs| - 1].committed == EmittedBy(m, l, StateAfter(m, l, EventsOf(recs[..|recs| - 1])), recs[|recs| - 1].ev)
  {
    hide RunFrame, StateAfter;
    assert RecordOk(m, l, StateAfter(m, l, EventsOf(recs[..|recs| - 1])), recs[|recs| - 1]);
  }

  /* ---- The part of a rank's output that is an LP's ---- */

  function Shown(x: FlushItem): Output { Output(x.ts, x.payload) }

  /** What the sink was given for one LP. */
  function ItemsFor(items: seq<FlushItem>, l: LPId): (mine: seq<FlushItem>)
    ensures forall x :: x in mine <==> x in items && x.lp == l
    decreases |items|
  {
    if |items| == 0 then []
    else
      var n := |items| - 1;
      assert items == items[..n] + [items[n]];
      ItemsFor(items[..n], l) + if items[n].lp == l then [items[n]] else []
  }

  function ShownAll(items: seq<FlushItem>): (os: seq<Output>)
    ensures |os| == |items|
    ensures forall i :: 0 <= i < |items| ==> os[i] == Shown(items[i])
  {
    seq(|items|, i requires 0 <= i < |items| => Shown(items[i]))
  }

  function ShownFor(items: seq<FlushItem>, l: LPId): seq<Output> {
    ShownAll(ItemsFor(items, l))
  }

  lemma {:induction false} ItemsForAscend(items: seq<FlushItem>, l: LPId)
    requires Ascending(items)
    ensures Ascending(ItemsFor(items, l))
    decreases |items|
  {
    if |items| > 0 {
      var n := |items| - 1;
      ItemsForAscend(items[..n], l);
      var front := ItemsFor(items[..n], l);
      forall i | 0 <= i < |front| ensures ItemBefore(front[i], items[n]) {
        assert front[i] in items[..n];
      }
    }
  }

  /** No two events of one stamp. */
  ghost predicate DistinctRecords(recs: seq<Record>) {
    forall i, j :: 0 <= i < j < |recs| && !recs[i].ev.isAnti && !recs[j].ev.isAnti ==> recs[i].ev.ts.Lt(recs[j].ev.ts)
  }

  lemma {:induction false} RecordItemsAscend(l: LPId, recs: seq<Record>)
    requires DistinctRecords(recs) && AntisSilent(recs) && RecordsStamped(recs)
    ensures Ascending(ItemsOf(l, recs))
    decreases |recs|
  {
    if |recs| > 0 {
      var n := |recs| - 1;
      RecordItemsAscend(l, recs[..n]);
      var front, back := ItemsOf(l, recs[..n]), RecordItems(l, recs[n]);
      OneRecordAscends(l, recs[n]);
      forall x, y | x in front && y in back ensures ItemBefore(x, y) {
        ItemsAre(l, recs[..n], x);
        EarlierItem(l, recs, x, y);
      }
      AscendingConcat(front, back);
    }
  }

  lemma OneRecordAscends(l: LPId, rec: Record)
    requires RecordStamped(rec)
    ensures Ascending(RecordItems(l, rec))
  {
  }

  lemma EarlierItem(l: LPId, recs: seq<Record>, x: FlushItem, y: FlushItem)
    requires DistinctRecords(recs) && AntisSilent(recs) && RecordsStamped(recs) && |recs| > 0
    requires ItemOf(l, recs[..|recs| - 1], x) && y in RecordItems(l, recs[|recs| - 1])
    ensures ItemBefore(x, y)
  {
    var n := |recs| - 1;
    var i, j :| 0 <= i < n && 0 <= j < |recs[..n][i].committed| && x == OutputItem(l, recs[..n][i], j);
    assert recs[..n][i] == recs[i];
    var q :| 0 <= q < |recs[n].committed| && y == OutputItem(l, recs[n], q);
    assert RecordStamped(recs[i]) && RecordStamped(recs[n]);
  }

  lemma {:induction false} ItemsShow(l: LPId, recs: seq<Record>)
    ensures ShownAll(ItemsOf(l, recs)) == RecordOutputs(recs)
    decreases |recs|
  {
    if |recs| > 0 {
      var n := |recs| - 1;
      ItemsShow(l, recs[..n]);
      assert ShownAll(RecordItems(l, recs[n])) == recs[n].committed;
      ShownConcat(ItemsOf(l, recs[..n]), RecordItems(l, recs[n]));
    }
  }

  lemma ShownConcat(a: seq<FlushItem>, b: seq<FlushItem>)
    ensures ShownAll(a + b) == ShownAll(a) + ShownAll(b)
  {
  }

  /** A rank's ordered output, of one LP, is the outputs of that LP's committed records. */
  lemma OutputOfLp(r: Rank, l: LPId)
    requires l in r.past && Ascending(r.output) && r.output == InOrder(CommittedItems(r))
    requires DistinctRecords(r.past[l].committed) && AntisSilent(r.past[l].committed) && RecordsStamped(r.past[l].committed)
    ensures ShownFor(r.output, l) == RecordOutputs(r.past[l].committed)
  {
    hide Ascending, ItemsFor, ItemsOf, CommittedItems, RecordOutputs, ShownAll, ItemOf, DistinctRecords, AntisSilent, RecordsStamped, InOrder;
    var recs := r.past[l].committed;
    ItemsForAscend(r.output, l);
    RecordItemsAscend(l, recs);
    forall x ensures x in ItemsFor(r.output, l) <==> x in ItemsOf(l, recs) {
      CommittedHas(r, x);
      ItemsAre(l, recs, x);
      ItemIsOwn(l, recs, x);
    }
    AscendingIsUnique(ItemsFor(r.output, l), ItemsOf(l, recs));
    ItemsShow(l, recs);
  }

  lemma ItemIsOwn(l: LPId, recs: seq<Record>, x: FlushItem)
    ensures ItemOf(l, recs, x) ==> x.lp == l
  {
  }

  /* ---- Over a run ---- */

  lemma {:induction false} PositiveStamps(evs: seq<Event>, i: nat, j: nat)
    requires DistinctStamps(Positive(evs)) && i < j < |evs| && !evs[i].isAnti && !evs[j].isAnti
    ensures evs[i].ts != evs[j].ts
    decreases |evs|
  {
    hide Positive;
    var n := |evs| - 1;
    PositiveLast(evs);
    var front := Positive(evs[..n]);
    if j < n {
      assert DistinctStamps(front) by { FrontDistinct(evs, n); }
      PositiveStamps(evs[..n], i, j);
    } else {
      assert evs[i] in evs[..n] && evs[i] in front;
      var k :| 0 <= k < |front| && front[k] == evs[i];
      assert Positive(evs)[k] == front[k] && Positive(evs)[|front|] == evs[n];
    }
  }

  lemma FrontDistinct(evs: seq<Event>, n: nat)
    requires |evs| == n + 1 && DistinctStamps(Positive(evs))
    ensures DistinctStamps(Positive(evs[..n]))
  {
    hide Positive;
    PositiveLast(evs);
    var front, all := Positive(evs[..n]), Positive(evs);
    forall i, j | 0 <= i < j < |front| ensures front[i].ts != front[j].ts { assert all[i] == front[i] && all[j] == front[j]; }
  }

  lemma SameStamps(a: seq<Event>, b: seq<Event>)
    requires ContentsOf(a) == ContentsOf(b) && DistinctStamps(b)
    ensures DistinctStamps(a)
  {
    assert |ContentsOf(a)| == |a| && |ContentsOf(b)| == |b|;
    forall i, j | 0 <= i < j < |a| ensures a[i].ts != a[j].ts {
      assert ContentsOf(a)[i] == ContentsOf(b)[i] && ContentsOf(a)[j] == ContentsOf(b)[j];
    }
  }

  lemma UptoDistinct(evs: seq<Event>, n: nat)
    requires DistinctStamps(evs)
    ensures DistinctStamps(Upto(evs, n))
  {
    var u := Upto(evs, n);
    forall i, j | 0 <= i < j < |u| ensures u[i].ts != u[j].ts { assert u[i] == evs[i] && u[j] == evs[j]; }
  }

  lemma DistinctEvents(recs: seq<Record>)
    requires SortedRecords(recs) && DistinctStamps(Positive(EventsOf(recs)))
    ensures DistinctRecords(recs)
  {
    hide Positive, DistinctStamps;
    forall i, j | 0 <= i < j < |recs| && !recs[i].ev.isAnti && !recs[j].ev.isAnti ensures recs[i].ev.ts.Lt(recs[j].ev.ts) {
      PositiveStamps(EventsOf(recs), i, j);
      assert recs[i].ev.ts.Le(recs[j].ev.ts);
    }
  }

  lemma UptoPlain(l: LPId, evs: seq<Event>, n: nat)
    requires PlainHistory(l, evs)
    ensures Plain(Upto(evs, n))
  {
    UptoIsPlain(evs, n);
  }

  /** The committed records of an LP, whose contents are those of a sequential history, keep its
      outputs. */
  lemma CommittedOutputs(m: Model, l: LPId, recs: seq<Record>, evs: seq<Event>)
    requires IdentityBlind(m) && RecordsOk(m, l, recs) && SortedRecords(recs) && Plain(evs) && DistinctStamps(evs)
    requires ContentsOf(Positive(EventsOf(recs))) == ContentsOf(evs)
    ensures DistinctRecords(recs) && RecordOutputs(recs) == OutputsOf(m, l, evs)
  {
    hide IdentityBlind, RecordsOk, SortedRecords, DistinctStamps, DistinctRecords, Positive, RecordOutputs, OutputsOf;
    SameStamps(Positive(EventsOf(recs)), evs);
    DistinctEvents(recs);
    RecordsKeepOutputs(m, l, recs);
    PositiveOutputs(m, l, EventsOf(recs));
    SameContentsSameOutputs(m, l, Positive(EventsOf(recs)), evs);
  }

  lemma LogParts(cfg: Config, m: Model, w: World, l: LPId)
    requires GoodModel(m) && Reachable(cfg, m, w) && l in cfg.lps && cfg.rankOf(l) < |w|
    ensures Hosted(cfg, w, l)
    ensures
      var all := AllRecords(w[cfg.rankOf(l)].lps[l], w[cfg.rankOf(l)].past[l]);
      RecordsOk(m, l, all) && SortedRecords(all) && AntisSilent(all)
    ensures RankStamped(w[cfg.rankOf(l)])
  {
    hide GoodModel, Reachable, WorldOk, RecordsOk, SendsLogged, UidsInStep, AntisSilent, RankStamped;
    ReachableOk(cfg, m, w);
    LpAt(cfg, m, w, l);
    RankIsStamped(cfg, m, w, cfg.rankOf(l));
    SilentRecords(m, l, AllRecords(w[cfg.rankOf(l)].lps[l], w[cfg.rankOf(l)].past[l]));
  }

  lemma FrontParts(m: Model, l: LPId, all: seq<Record>, k: nat)
    requires RecordsOk(m, l, all) && SortedRecords(all) && AntisSilent(all) && k <= |all|
    ensures RecordsOk(m, l, all[..k]) && SortedRecords(all[..k]) && AntisSilent(all[..k])
  {
    hide RecordOk;
    RecordsOkFront(m, l, all, k);
  }

  /** At every moment of a run, what a rank's sink has been given for an LP is what the sequential run
      emits for it below the GVT, in that order. */
  lemma OutputIsSequential(cfg: Config, m: Model, w: World, s: Simulator, l: LPId)
    requires DeterministicModel(m) && Reachable(cfg, m, w) && AllStarted(w) && l in cfg.lps && cfg.rankOf(l) < |w|
    requires SequentialTo(cfg, m, s, Ord(w[cfg.rankOf(l)].lastGvt))
    ensures Hosted(cfg, w, l) && l in s.hist
    ensures ShownFor(w[cfg.rankOf(l)].output, l) == OutputsOf(m, l, Upto(s.hist[l], Ord(w[cfg.rankOf(l)].lastGvt)))
  {
    hide GoodModel, StrictModel, IdentityBlind, Reachable, SeqReachable, AllStarted, RecordsOk, SortedRecords, AntisSilent,
         DistinctRecords, DistinctStamps, RecordOutputs, OutputsOf, ShownFor, CommittedItems, InOrder, Ascending, Upto, Ord, PlainHistory, Positive;
    var me := cfg.rankOf(l);
    var r := w[me];
    CommittedIsSequential(cfg, m, w, s, l);
    LogParts(cfg, m, w, l);
    var recs := r.past[l].committed;
    var all := AllRecords(r.lps[l], r.past[l]);
    assert all[..|recs|] == recs;
    FrontParts(m, l, all, |recs|);
    SequentialPlain(cfg, m, s, Ord(r.lastGvt), l);
    UptoDistinct(s.hist[l], Ord(r.lastGvt));
    CommittedOutputs(m, l, recs, Upto(s.hist[l], Ord(r.lastGvt)));
    OutputIsCommitted(cfg, m, w, me, r.lastGvt);
    StampedPast(r, l);
    OutputOfLp(r, l);
  }

  lemma StampedPast(r: Rank, l: LPId)
    requires RankStamped(r) && l in r.past
    ensures RecordsStamped(r.past[l].committed)
  {
    hide RecordsStamped;
  }

  lemma SequentialPlain(cfg: Config, m: Model, s: Simulator, n: nat, l: LPId)
    requires DeterministicModel(m) && SequentialTo(cfg, m, s, n) && l in s.hist
    ensures Plain(Upto(s.hist[l], n))
  {
    hide GoodModel, StrictModel, IdentityBlind, SeqReachable, PlainHistory, DistinctStamps, Upto, Ord, Taken, Asked;
    GoodIsCausal(m);
    SequentialIsClosed(cfg, m, s, n);
    assert PlainHistory(l, s.hist[l]);
    UptoPlain(l, s.hist[l], n);
  }

  /* ---- After the last flush ---- */

  lemma PrunedCommitted(r: Rank, l: LPId, g: TimeStamp)
    requires Hosts(r, l)
    ensures l in Prune(r, g).past
    ensures Prune(r, g).past[l].committed == r.past[l].committed + r.lps[l].processed[..Fossils(r.lps[l].processed, g)]
  {
  }

  lemma LastCut(cfg: Config, m: Model, w: World, l: LPId)
    requires GoodModel(m) && Reachable(cfg, m, w) && l in cfg.lps && cfg.rankOf(l) < |w|
    ensures Hosted(cfg, w, l)
    ensures
      var r := w[cfg.rankOf(l)];
      var f := Fossils(r.lps[l].processed, MAX_STAMP);
      && RecordsBelow(r.past[l].committed + r.lps[l].processed[..f], MAX_STAMP)
      && RecordsAbove(r.lps[l].processed[f..], MAX_STAMP)
  {
    hide GoodModel, Reachable, WorldOk, Replays, SendsLogged, UidsInStep;
    ReachableOk(cfg, m, w);
    LpAt(cfg, m, w, l);
    var r := w[cfg.rankOf(l)];
    RankFloor(cfg, m, w, cfg.rankOf(l));
    var log := r.lps[l].processed;
    var f := Fossils(log, MAX_STAMP);
    LogIsSorted(r.past[l].committed, log, r.lps[l].vt);
    AfterFossils(log);
    GvtIsBelow(r.past[l], r.lastGvt);
  }

  lemma RankFloor(cfg: Config, m: Model, w: World, me: RankId)
    requires WorldOk(cfg, m, w) && me < |w|
    ensures forall l :: l in w[me].past ==> PastBelow(w[me].past[l], w[me].lastGvt)
  {
    hide LpOk, NetsOk, TombsOk, StartedFirst, LedgerOk, LedgerOf, Placed, TrafficAbove, WireOut, PastBelow, RecordsAbove;
    assert RankOk(cfg, m, me, w[me]);
  }

  lemma LogIsSorted(front: seq<Record>, log: seq<Record>, vt: TimeStamp)
    requires InTime(front + log, vt)
    ensures SortedRecords(log)
  {
    var all := front + log;
    forall i, j | 0 <= i < j < |log| ensures log[i].ev.ts.Le(log[j].ev.ts) {
      assert all[|front| + i] == log[i] && all[|front| + j] == log[j];
    }
  }

  lemma AfterFossils(log: seq<Record>)
    requires SortedRecords(log)
    ensures RecordsAbove(log[Fossils(log, MAX_STAMP)..], MAX_STAMP)
    ensures RecordsBelow(log[..Fossils(log, MAX_STAMP)], MAX_STAMP)
  {
    hide Fossils;
    var f := Fossils(log, MAX_STAMP);
    forall i | f <= i < |log| ensures MAX_STAMP.Le(log[i].ev.ts) {
      if i > f { assert log[f].ev.ts.Le(log[i].ev.ts); }
    }
  }

  lemma GvtIsBelow(past: LpPast, g: TimeStamp)
    requires PastBelow(past, g)
    ensures RecordsBelow(past.committed, MAX_STAMP)
  {
  }

  /** When the simulation has ended and flushed for the last time, each LP's output is that of the
      sequential run, but for what it emits at the maximum stamp itself. */
  lemma FinalOutputIsSequential(cfg: Config, m: Model, w: World, s: Simulator, l: LPId)
    requires DeterministicModel(m) && Reachable(cfg, m, w) && AllStarted(w) && AllTraffic(w) == multiset{}
    requires SequentialTo(cfg, m, s, END) && s.queue == multiset{} && l in cfg.lps && cfg.rankOf(l) < |w|
    ensures Hosted(cfg, w, l) && l in s.hist
    ensures ShownFor(Prune(w[cfg.rankOf(l)], MAX_STAMP).output, l) == OutputsOf(m, l, Upto(s.hist[l], Ord(MAX_STAMP)))
  {
    hide GoodModel, StrictModel, IdentityBlind, Reachable, SeqReachable, AllStarted, RecordsOk, SortedRecords, AntisSilent, Prune,
         DistinctRecords, DistinctStamps, RecordOutputs, OutputsOf, ShownFor, CommittedItems, InOrder, Ascending, Upto, Ord, PlainHistory, Positive,
         StateOf, RecordsBelow, RecordsAbove, Fossils, RankStamped;
    var me := cfg.rankOf(l);
    var r := w[me];
    TerminatedIsSequential(cfg, m, w, s, l);
    LogParts(cfg, m, w, l);
    var u := Prune(r, MAX_STAMP);
    PrunedCommitted(r, l, MAX_STAMP);
    var f := Fossils(r.lps[l].processed, MAX_STAMP);
    var recs := u.past[l].committed;
    var all := AllRecords(r.lps[l], r.past[l]);
    assert all == recs + r.lps[l].processed[f..];
    assert all[..|recs|] == recs;
    FrontParts(m, l, all, |recs|);
    LastCut(cfg, m, w, l);
    FrontIsUpto(recs, r.lps[l].processed[f..], MAX_STAMP);
    SameUpto(HistoriesOf(cfg, w)[l], s.hist[l], Ord(MAX_STAMP));
    SequentialPlain(cfg, m, s, END, l);
    UptoEnd(s.hist[l]);
    UptoIsPlain(s.hist[l], Ord(MAX_STAMP));
    UptoDistinct(s.hist[l], Ord(MAX_STAMP));
    CommittedOutputs(m, l, recs, Upto(s.hist[l], Ord(MAX_STAMP)));
    LastOutput(cfg, m, w, me);
    PruneStamped(r, MAX_STAMP);
    StampedPast(u, l);
    OutputOfLp(u, l);
  }

  lemma LastOutput(cfg: Config, m: Model, w: World, me: RankId)
    requires GoodModel(m) && Reachable(cfg, m, w) && me < |w|
    ensures
      var u := Prune(w[me], MAX_STAMP);
      u.output == InOrder(CommittedItems(u)) && Ascending(u.output)
  {
    hide GoodModel, Reachable, WorldOk, Prune, UniqueHistories, FloorOk, CommittedItems, InOrder, Ascending, Released;
    ReachableOk(cfg, m, w);
    OutputIsCommitted(cfg, m, w, me, MAX_STAMP);
    RankIsUnique(cfg, m, w, me);
    PruneStaysUnique(w[me], MAX_STAMP);
    OutputAscends(Prune(w[me], MAX_STAMP));
  }
}
