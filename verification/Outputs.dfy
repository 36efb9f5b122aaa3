/** Committed output over a whole run: whenever and in however many flushes it is released, what a
    rank has given to its sink is the ordered list of the outputs of its committed records, each
    once. */
module Outputs {
  import opened Stamps
  import opened Events
  import opened Models
  import opened Flush
  import opened Kernel
  import opened Replay
  import opened LpInvariant
  import opened LpSteps
  import opened RankSteps
  import opened Ledgers
  import opened Books
  import opened BookSteps
  import opened Tombs
  import opened Floor
  import opened Handling
  import opened Dispatching
  import opened Worlds
  import opened Moves
  import opened Network
  import opened Pruning
  import opened Gvt
  import opened Collecting
  import opened Runs
  import opened History
  import opened Invisible
  import opened Collections

  /* ---- Outputs carry the stamp of their event ---- */

  ghost predicate RecordStamped(rec: Record) {
    forall j :: 0 <= j < |rec.committed| ==> rec.committed[j].ts == rec.ev.ts
  }

  ghost predicate RecordsStamped(recs: seq<Record>) {
    forall i :: 0 <= i < |recs| ==> RecordStamped(recs[i])
  }

  ghost predicate RankStamped(r: Rank) {
    && (forall l :: l in r.lps ==> RecordsStamped(r.lps[l].processed))
    && (forall l :: l in r.past ==> RecordsStamped(r.past[l].committed))
  }

  lemma {:induction false} FrameStamped(byEntity: bool, f: Frame, script: seq<Action>, ts: TimeStamp)
    requires EmitsAt(ts, script)
    requires forall j :: 0 <= j < |f.committed| ==> f.committed[j].ts == ts
    ensures forall j :: 0 <= j < |RunFrame(byEntity, f, script).committed| ==> RunFrame(byEntity, f, script).committed[j].ts == ts
    decreases |script|
  {
    if |script| > 0 { FrameStamped(byEntity, StepFrame(byEntity, f, script[0]), script[1..], ts); }
  }

  lemma ExecuteStamped(cfg: Config, m: Model, me: RankId, r: Rank, ev: Event)
    requires CausalModel(m) && Hosts(r, ev.dst) && !ev.isAnti
    requires UidsInStep(r.lps[ev.dst], r.past[ev.dst])
    requires RankStamped(r) && !Execute(cfg, m, me, r, ev).aborted
    ensures RankStamped(Execute(cfg, m, me, r, ev))
  {
    hide Execute, RunFrame, LogOk, CausalModel, RecordStamped, EmitsAt;
    var ctx, log, more := ExecuteShape(cfg, m, me, r, ev);
    var l := ev.dst;
    var script := m.handle(l, r.lps[l].state, ev);
    var f := RunFrame(m.entitySnapshots(l), OpenFrame(r.lps[l].state), script);
    FrameStamped(m.entitySnapshots(l), OpenFrame(r.lps[l].state), script, ev.ts);
    EventRecordStamped(r.lps[l], ev, f);
  }

  lemma EventRecordStamped(ctx: LpContext, ev: Event, f: Frame)
    requires forall j :: 0 <= j < |f.committed| ==> f.committed[j].ts == ev.ts
    ensures RecordStamped(EventRecord(ctx, ev, f))
  {
  }

  lemma RollbackStamped(cfg: Config, m: Model, me: RankId, r: Rank, l: LPId, to: TimeStamp)
    requires LpsOk(cfg, m, r) && l in r.lps && !r.aborted && RankStamped(r)
    ensures RankStamped(Rollback(cfg, me, r, l, to))
  {
    hide LpOk, Rollback, UndoCancels, RecordStamped;
    RollbackShape(cfg, m, me, r, l, to);
    RewindLogs(r.lps[l], r.lps[l].processed[Cut(r.lps[l].processed, to)..], to);
  }

  lemma DispatchAntiStamped(cfg: Config, m: Model, me: RankId, r: Rank, ev: Event)
    requires LpsOk(cfg, m, r) && !r.aborted && ev.dst in r.lps && RankStamped(r)
    ensures RankStamped(DispatchAnti(cfg, me, r, ev))
  {
    hide Rollback, FindProcessed, LpOk, RankStamped, PushRecord;
    var l := ev.dst;
    var x := Bury(r, ev);
    assert RankStamped(x) by { SameLogsStamped(r, x); }
    if FindProcessed(r.lps[l].processed, KeyOf(ev)).Some? {
      RollbackStamped(cfg, m, me, x, l, FindProcessed(r.lps[l].processed, KeyOf(ev)).value);
    }
    PushStamped(Cancel(cfg, me, r, ev), l, AntiRecord(r, ev));
  }

  lemma SameLogsStamped(r: Rank, u: Rank)
    requires RankStamped(r) && u.lps == r.lps && u.past == r.past
    ensures RankStamped(u)
  {
  }

  lemma PushStamped(r: Rank, l: LPId, rec: Record)
    requires RankStamped(r) && l in r.lps && rec.committed == []
    ensures RankStamped(PushRecord(r, l, rec))
  {
  }

  lemma DispatchStamped(cfg: Config, m: Model, me: RankId, r: Rank, ev: Event)
    requires CausalModel(m) && LpsOk(cfg, m, r) && !r.aborted && RankStamped(r)
    requires !Dispatch(cfg, m, me, r, ev).aborted
    ensures RankStamped(Dispatch(cfg, m, me, r, ev))
  {
    hide Rollback, DispatchAnti, Execute, InTime, Replays, SendsLogged, CausalModel, RankStamped;
    var l := ev.dst;
    if ev.ts.Lt(r.lps[l].vt) {
      RollbackStamped(cfg, m, me, r, l, ev.ts);
      SameLogsStamped(Rollback(cfg, me, r, l, ev.ts), Enqueue(Rollback(cfg, me, r, l, ev.ts), ev));
    } else if ev.isAnti {
      DispatchAntiStamped(cfg, m, me, r, ev);
    } else {
      ExecuteStamped(cfg, m, me, r, ev);
    }
  }

  lemma StartStamped(cfg: Config, m: Model, me: RankId, r: Rank, l: LPId)
    requires CausalModel(m) && LpsOk(cfg, m, r) && Hosts(r, l) && RankStamped(r)
    requires !StartLp(cfg, m, me, r, l).aborted
    ensures RankStamped(StartLp(cfg, m, me, r, l))
  {
    hide StartLp, LpOk, RecordsStamped, CausalModel;
    var ctx, log, more := StartShape(cfg, m, me, r, l);
  }

  lemma PruneStamped(r: Rank, g: TimeStamp)
    requires RankStamped(r)
    ensures RankStamped(Prune(r, g))
  {
    hide Released, Fossils, FossilSends, RecordStamped;
  }

  /* ---- What has been committed ---- */

  /** The j-th output of a record as it is handed out: under the record's LP, source and uid. */
  predicate IsOutput(l: LPId, rec: Record, j: nat, x: FlushItem)
    requires j < |rec.committed|
  {
    && x.ts == rec.committed[j].ts && x.payload == rec.committed[j].payload
    && x.lp == l && x.eventSrc == rec.ev.src && x.eventUid == rec.ev.uid && x.index == j
  }

  /** All outputs of committed records. */
  ghost function CommittedItems(r: Rank): set<FlushItem> {
    set l, i, j | l in r.past && 0 <= i < |r.past[l].committed| && 0 <= j < |r.past[l].committed[i].committed|
      :: OutputItem(l, r.past[l].committed[i], j)
  }

  /** The committed output is the ordered list of the outputs of the committed records. */
  ghost predicate OutputOk(r: Rank) {
    r.output == InOrder(CommittedItems(r))
  }

  /** No two of an LP's records are of the same event. */
  ghost predicate UniqueEvents(recs: seq<Record>) {
    forall i, j :: 0 <= i < j < |recs| && !recs[i].ev.isAnti && !recs[j].ev.isAnti ==> KeyOf(recs[i].ev) != KeyOf(recs[j].ev)
  }

  ghost predicate AntisSilent(recs: seq<Record>) {
    forall i :: 0 <= i < |recs| && recs[i].ev.isAnti ==> recs[i].committed == []
  }

  lemma HistoryIsUnique(cfg: Config, m: Model, w: World, l: LPId)
    requires WorldOk(cfg, m, w) && l in cfg.lps
    ensures Hosted(cfg, w, l)
    ensures UniqueEvents(AllRecords(w[cfg.rankOf(l)].lps[l], w[cfg.rankOf(l)].past[l]))
    ensures AntisSilent(AllRecords(w[cfg.rankOf(l)].lps[l], w[cfg.rankOf(l)].past[l]))
  {
    hide NetsOk, LedgerOk, LedgerOf, AllOk, InTime, SendsLogged, Known;
    LpAt(cfg, m, w, l);
    var recs := AllRecords(w[cfg.rankOf(l)].lps[l], w[cfg.rankOf(l)].past[l]);
    var h := AccountAt(cfg, w, l).hist;
    var L := LedgerOf(cfg, w, multiset{});
    WorldLedger(cfg, m, w);
    HistKnown(cfg, m, w, l);
    assert NoDup(h) by { HistNoDup(L, l); WorldAccountIs(cfg, w, l); }
    forall i, j | 0 <= i < j < |recs| && !recs[i].ev.isAnti && !recs[j].ev.isAnti
      ensures KeyOf(recs[i].ev) != KeyOf(recs[j].ev)
    {
      assert h[i] == recs[i].ev && h[j] == recs[j].ev && h[i] in h && h[j] in h;
      if KeyOf(recs[i].ev) == KeyOf(recs[j].ev) {
        KnownAntisAgree(L, recs[i].ev, recs[j].ev);
        assert false;
      }
    }
    SilentRecords(m, l, recs);
  }

  lemma SilentRecords(m: Model, l: LPId, recs: seq<Record>)
    requires RecordsOk(m, l, recs)
    ensures AntisSilent(recs)
  {
    forall i | 0 <= i < |recs| && recs[i].ev.isAnti ensures recs[i].committed == [] {
      assert RecordOk(m, l, StateAfter(m, l, EventsOf(recs[..i])), recs[i]);
    }
  }

  lemma WorldAccountIs(cfg: Config, w: World, l: LPId)
    requires l in cfg.lps
    ensures l in LedgerOf(cfg, w, multiset{}).accts && LedgerOf(cfg, w, multiset{}).accts[l] == AccountAt(cfg, w, l)
  {
    hide AccountAt;
  }

  lemma HistKnown(cfg: Config, m: Model, w: World, l: LPId)
    requires WorldOk(cfg, m, w) && l in cfg.lps
    ensures forall e :: e in AccountAt(cfg, w, l).hist ==> Known(LedgerOf(cfg, w, multiset{}), e)
    ensures l in LedgerOf(cfg, w, multiset{}).accts
  {
    hide NetsOk, RanksOk, Placed, AccountsOk, BagOk, OnePlace, NoneOpposed, Known, AccountAt;
    WorldAccountIs(cfg, w, l);
  }

  /** The items of the front of each LP's history. */
  ghost predicate ItemOf(l: LPId, recs: seq<Record>, x: FlushItem) {
    exists i, j :: 0 <= i < |recs| && 0 <= j < |recs[i].committed| && x == OutputItem(l, recs[i], j)
  }

  lemma SameItem(l: LPId, recs: seq<Record>, x: FlushItem, y: FlushItem)
    requires UniqueEvents(recs) && AntisSilent(recs)
    requires ItemOf(l, recs, x) && ItemOf(l, recs, y) && SameKey(x, y)
    ensures x == y
  {
    var i, j :| 0 <= i < |recs| && 0 <= j < |recs[i].committed| && x == OutputItem(l, recs[i], j);
    var p, q :| 0 <= p < |recs| && 0 <= q < |recs[p].committed| && y == OutputItem(l, recs[p], q);
    assert KeyOf(recs[i].ev) == KeyOf(recs[p].ev);
  }

  lemma ItemsConcat(l: LPId, a: seq<Record>, b: seq<Record>, x: FlushItem)
    ensures ItemOf(l, a + b, x) <==> ItemOf(l, a, x) || ItemOf(l, b, x)
  {
    var all := a + b;
    if ItemOf(l, a, x) {
      var i, j :| 0 <= i < |a| && 0 <= j < |a[i].committed| && x == OutputItem(l, a[i], j);
      assert all[i] == a[i] && x == OutputItem(l, all[i], j);
    }
    if ItemOf(l, b, x) {
      var i, j :| 0 <= i < |b| && 0 <= j < |b[i].committed| && x == OutputItem(l, b[i], j);
      assert all[|a| + i] == b[i] && x == OutputItem(l, all[|a| + i], j);
    }
    if ItemOf(l, all, x) {
      var i, j :| 0 <= i < |all| && 0 <= j < |all[i].committed| && x == OutputItem(l, all[i], j);
      if i < |a| { assert x == OutputItem(l, a[i], j); } else { assert x == OutputItem(l, b[i - |a|], j); }
    }
  }

  lemma CommittedHas(r: Rank, x: FlushItem)
    ensures x in CommittedItems(r) <==> x.lp in r.past && ItemOf(x.lp, r.past[x.lp].committed, x)
  {
    if x in CommittedItems(r) {
      var l, i, j :| l in r.past && 0 <= i < |r.past[l].committed| && 0 <= j < |r.past[l].committed[i].committed|
        && x == OutputItem(l, r.past[l].committed[i], j);
      assert ItemOf(l, r.past[l].committed, x);
    }
    if x.lp in r.past && ItemOf(x.lp, r.past[x.lp].committed, x) {
      var recs := r.past[x.lp].committed;
      var i, j :| 0 <= i < |recs| && 0 <= j < |recs[i].committed| && x == OutputItem(x.lp, recs[i], j);
      assert OutputItem(x.lp, r.past[x.lp].committed[i], j) in CommittedItems(r);
    }
  }

  lemma ReleasedHas(r: Rank, g: TimeStamp, x: FlushItem)
    ensures x in Released(r, g) <==>
      x.lp in r.lps && ItemOf(x.lp, r.lps[x.lp].processed[..Fossils(r.lps[x.lp].processed, g)], x)
  {
    hide Fossils;
    if x in Released(r, g) {
      var l, i, j :| l in r.lps && 0 <= i < Fossils(r.lps[l].processed, g) && 0 <= j < |r.lps[l].processed[i].committed|
        && x == OutputItem(l, r.lps[l].processed[i], j);
      var front := r.lps[l].processed[..Fossils(r.lps[l].processed, g)];
      assert front[i] == r.lps[l].processed[i] && x == OutputItem(l, front[i], j);
    }
    if x.lp in r.lps {
      var front := r.lps[x.lp].processed[..Fossils(r.lps[x.lp].processed, g)];
      if ItemOf(x.lp, front, x) {
        var i, j :| 0 <= i < |front| && 0 <= j < |front[i].committed| && x == OutputItem(x.lp, front[i], j);
        assert front[i] == r.lps[x.lp].processed[i];
        assert OutputItem(x.lp, r.lps[x.lp].processed[i], j) in Released(r, g);
      }
    }
  }

  lemma PruneCommits(r: Rank, g: TimeStamp)
    requires r.past.Keys == r.lps.Keys
    ensures CommittedItems(Prune(r, g)) == CommittedItems(r) + Released(r, g)
  {
    hide CommittedItems, Released, Fossils, FossilSends, ItemOf;
    var u := Prune(r, g);
    forall x ensures x in CommittedItems(u) <==> x in CommittedItems(r) || x in Released(r, g) {
      CommittedHas(u, x);
      CommittedHas(r, x);
      ReleasedHas(r, g, x);
      if x.lp in r.past {
        ItemsConcat(x.lp, r.past[x.lp].committed, r.lps[x.lp].processed[..Fossils(r.lps[x.lp].processed, g)], x);
      }
    }
  }

  ghost predicate UniqueHistories(r: Rank) {
    && r.past.Keys == r.lps.Keys
    && forall l :: l in r.lps ==>
         UniqueEvents(AllRecords(r.lps[l], r.past[l])) && AntisSilent(AllRecords(r.lps[l], r.past[l]))
  }

  lemma AnyItem(r: Rank, g: TimeStamp, x: FlushItem)
    requires r.past.Keys == r.lps.Keys && x in CommittedItems(r) + Released(r, g)
    ensures x.lp in r.lps && ItemOf(x.lp, AllRecords(r.lps[x.lp], r.past[x.lp]), x)
  {
    hide CommittedItems, Released, Fossils, ItemOf;
    CommittedHas(r, x);
    ReleasedHas(r, g, x);
    var log := r.lps[x.lp].processed;
    var f := Fossils(log, g);
    SplitLog(r.past[x.lp].committed, log, f);
    ItemsConcat(x.lp, r.past[x.lp].committed + log[..f], log[f..], x);
    ItemsConcat(x.lp, r.past[x.lp].committed, log[..f], x);
  }

  lemma ItemsDistinct(r: Rank, g: TimeStamp)
    requires UniqueHistories(r)
    ensures DistinctKeys(CommittedItems(r) + Released(r, g))
  {
    hide CommittedItems, Released, ItemOf, UniqueEvents, AntisSilent, AllRecords;
    var s := CommittedItems(r) + Released(r, g);
    forall x, y | x in s && y in s && SameKey(x, y) ensures x == y {
      AnyItem(r, g, x);
      AnyItem(r, g, y);
      SameItem(x.lp, AllRecords(r.lps[x.lp], r.past[x.lp]), x, y);
    }
  }

  /** Everything committed before is before everything released now. */
  lemma ReleasedIsLater(cfg: Config, me: RankId, r: Rank, g: TimeStamp)
    requires RankStamped(r) && FloorOk(cfg, me, r) && r.past.Keys == r.lps.Keys
    ensures forall x, y :: x in CommittedItems(r) && y in Released(r, g) ==> ItemBefore(x, y)
  {
    hide CommittedItems, Released, TrafficAbove, WireOut;
    forall x, y | x in CommittedItems(r) && y in Released(r, g) ensures ItemBefore(x, y) {
      CommittedHas(r, x);
      ReleasedHas(r, g, y);
      ItemBelow(x.lp, r.past[x.lp].committed, x, r.lastGvt) by { assert PastBelow(r.past[x.lp], r.lastGvt); }
      ItemAbove(y.lp, r.lps[y.lp].processed, Fossils(r.lps[y.lp].processed, g), y, r.lastGvt);
    }
  }

  lemma ItemBelow(l: LPId, recs: seq<Record>, x: FlushItem, g: TimeStamp)
    requires RecordsStamped(recs) && RecordsBelow(recs, g) && ItemOf(l, recs, x)
    ensures x.ts.Lt(g)
  {
    var i, j :| 0 <= i < |recs| && 0 <= j < |recs[i].committed| && x == OutputItem(l, recs[i], j);
    assert RecordStamped(recs[i]);
  }

  lemma ItemAbove(l: LPId, recs: seq<Record>, k: nat, x: FlushItem, g: TimeStamp)
    requires RecordsStamped(recs) && RecordsAbove(recs, g) && k <= |recs| && ItemOf(l, recs[..k], x)
    ensures g.Le(x.ts)
  {
    var i, j :| 0 <= i < k && 0 <= j < |recs[..k][i].committed| && x == OutputItem(l, recs[..k][i], j);
    assert recs[..k][i] == recs[i];
    assert RecordStamped(recs[i]);
  }

  /** A flush appends the ordered outputs of the newly committed records, and the whole stays the
      ordered list of all of them. */
  lemma PruneFlushes(cfg: Config, me: RankId, r: Rank, g: TimeStamp)
    requires OutputOk(r) && RankStamped(r) && FloorOk(cfg, me, r) && UniqueHistories(r)
    ensures OutputOk(Prune(r, g))
  {
    hide CommittedItems, Released, Fossils, FossilSends, RankStamped, FloorOk, PruneCtx, PrunePast, DistinctKeys, Ascending;
    var old_items, new_items := CommittedItems(r), Released(r, g);
    ItemsDistinct(r, g);
    SubsetDistinct(old_items + new_items, old_items);
    SubsetDistinct(old_items + new_items, new_items);
    InOrderAscends(old_items);
    InOrderAscends(new_items);
    InOrderAscends(old_items + new_items);
    ReleasedIsLater(cfg, me, r, g);
    AscendingConcat(InOrder(old_items), InOrder(new_items));
    AscendingIsUnique(InOrder(old_items) + InOrder(new_items), InOrder(old_items + new_items));
    PruneCommits(r, g);
  }

  lemma SubsetDistinct(s: set<FlushItem>, t: set<FlushItem>)
    requires DistinctKeys(s) && t <= s
    ensures DistinctKeys(t)
  {
  }
}
