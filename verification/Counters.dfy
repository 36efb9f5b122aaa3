/** The counters the kernel stamps sequences from.

    A rollback takes them back to what the oldest undone record saved, so that sequences come out
    the same on re-execution (tests/sequence_restored_on_rollback_test.cpp).  The record of an
    event saves them just before its handler runs; the record of an anti-message saves them before
    the rollback that the anti-message itself may cause. */
module Counters {
  import opened Collections
  import opened Stamps
  import opened Events
  import opened Models
  import opened Kernel
  import opened Replay
  import opened LpInvariant
  import opened LpSteps
  import opened RankSteps
  import opened Ledgers
  import opened Books
  import opened Tombs
  import opened Floor
  import opened Handling
  import opened Worlds
  import opened Gvt
  import opened Moves
  import opened Network
  import opened Runs

  predicate SameCounters(a: LpContext, b: LpContext) {
    a.nextSeqNormal == b.nextSeqNormal && a.nextSeqControl == b.nextSeqControl
  }

  predicate Saved(rec: Record, ctx: LpContext) {
    rec.preSeqNormal == ctx.nextSeqNormal && rec.preSeqControl == ctx.nextSeqControl
  }

  /** The anti-message for `key` finds its event processed, and the counters have moved on since the
      oldest record that its rollback undoes. */
  predicate RewindsCounters(ctx: LpContext, key: UidKey) {
    var found := FindProcessed(ctx.processed, key);
    found.Some? &&
    var k := Cut(ctx.processed, found.value);
    k < |ctx.processed| && !Saved(ctx.processed[k], ctx)
  }

  lemma LogIsSorted(cfg: Config, m: Model, r: Rank, l: LPId)
    requires LpsOk(cfg, m, r) && l in r.lps
    ensures SortedRecords(r.lps[l].processed)
  {
    hide Replays, SendsLogged;
    var all := AllRecords(r.lps[l], r.past[l]);
    assert SortedRecords(all);
    var log := r.lps[l].processed;
    forall i, j | 0 <= i < j < |log| ensures log[i].ev.ts.Le(log[j].ev.ts) {
      var n := |r.past[l].committed|;
      assert log[i] == all[n + i] && log[j] == all[n + j];
    }
  }

  lemma FoundIsUndone(processed: seq<Record>, key: UidKey)
    requires FindProcessed(processed, key).Some? && SortedRecords(processed)
    ensures Cut(processed, FindProcessed(processed, key).value) < |processed|
  {
    hide Cut, FindProcessed;
    FindProcessedStamp(processed, key);
    var ts := FindProcessed(processed, key).value;
    var i :| 0 <= i < |processed| && processed[i].ev.ts == ts;
    if i < |processed| - 1 { assert processed[i].ev.ts.Le(processed[|processed| - 1].ev.ts); }
  }

  /** What a cancellation does to the counters. */
  lemma CancelCounters(cfg: Config, m: Model, me: RankId, r: Rank, anti: Event)
    requires LpsOk(cfg, m, r) && !r.aborted && anti.dst in r.lps
    ensures SameCounters(Cancel(cfg, me, r, anti).lps[anti.dst], r.lps[anti.dst])
       <==> !RewindsCounters(r.lps[anti.dst], KeyOf(anti))
  {
    hide LpOk, Rollback, Cut, Restore, FindProcessed, SortedRecords;
    var l := anti.dst;
    var buried := Bury(r, anti);
    var found := FindProcessed(r.lps[l].processed, KeyOf(anti));
    if found.Some? {
      LogIsSorted(cfg, m, r, l);
      FoundIsUndone(r.lps[l].processed, KeyOf(anti));
      RollbackShape(cfg, m, me, buried, l, found.value);
    }
  }

  /* ---- Undoing the newest record ---- */

  /** The rank after a message was taken up. */
  ghost function TakenUp(cfg: Config, m: Model, w: World, me: RankId, ev: Event): Rank
    requires me < |w|
  {
    Dispatch(cfg, m, me, TakePending(w[me], ev), ev)
  }

  /** A message that is no straggler has been taken up, and a rollback to `to` undoes its record
      and no other. */
  ghost predicate OneUndone(cfg: Config, m: Model, w: World, me: RankId, ev: Event, to: TimeStamp) {
    && me < |w| && MayTake(w, me, ev) && NoAbort(w[me := TakenUp(cfg, m, w, me, ev)])
    && ev.dst in w[me].lps && w[me].lps[ev.dst].vt.Le(ev.ts)
    && ev.dst in TakenUp(cfg, m, w, me, ev).lps
    && var log := TakenUp(cfg, m, w, me, ev).lps[ev.dst].processed;
       |log| > 0 && Cut(log, to) == |log| - 1
  }

  lemma TakenUpOk(cfg: Config, m: Model, w: World, me: RankId, ev: Event, to: TimeStamp)
    requires GoodModel(m) && Reachable(cfg, m, w) && OneUndone(cfg, m, w, me, ev, to)
    ensures LpsOk(cfg, m, TakePending(w[me], ev)) && LpsOk(cfg, m, TakenUp(cfg, m, w, me, ev))
    ensures !TakePending(w[me], ev).aborted && !TakenUp(cfg, m, w, me, ev).aborted
  {
    hide GoodModel, Reachable, Dispatch, MayTake, LpOk, NetsOk, TombsOk, FloorOk, StartedFirst, LedgerOk, LedgerOf, Placed;
    var u := w[me := TakenUp(cfg, m, w, me, ev)];
    ReachableOk(cfg, m, w);
    StepKeeps(cfg, m, w, Take(me, ev));
    assert RankOk(cfg, m, me, w[me]) && RankOk(cfg, m, me, u[me]);
  }

  /** The counters after the rollback are those of before the message was taken up; undoing an event
      thus restores them exactly. */
  lemma CountersGoBack(cfg: Config, m: Model, w: World, me: RankId, ev: Event, to: TimeStamp)
    requires GoodModel(m) && Reachable(cfg, m, w) && OneUndone(cfg, m, w, me, ev, to)
    ensures ev.dst in Rollback(cfg, me, TakenUp(cfg, m, w, me, ev), ev.dst, to).lps
    ensures SameCounters(Rollback(cfg, me, TakenUp(cfg, m, w, me, ev), ev.dst, to).lps[ev.dst], w[me].lps[ev.dst])
  {
    hide GoodModel, Reachable, Rollback, LpOk, Cut, Execute, Cancel, RunFrame, Restore;
    TakenUpOk(cfg, m, w, me, ev, to);
    var r, t := TakePending(w[me], ev), TakenUp(cfg, m, w, me, ev);
    if !ev.isAnti { ExecutedSaves(cfg, m, me, r, ev); }
    RollbackShape(cfg, m, me, t, ev.dst, to);
    var log := t.lps[ev.dst].processed;
    assert log[Cut(log, to)..] == [log[|log| - 1]];
  }

  lemma ExecutedSaves(cfg: Config, m: Model, me: RankId, r: Rank, ev: Event)
    requires GoodModel(m) && LpsOk(cfg, m, r) && ev.dst in r.lps && !ev.isAnti && !Execute(cfg, m, me, r, ev).aborted
    ensures ev.dst in Execute(cfg, m, me, r, ev).lps
    ensures
      var log := Execute(cfg, m, me, r, ev).lps[ev.dst].processed;
      |log| == |r.lps[ev.dst].processed| + 1 && Saved(log[|log| - 1], r.lps[ev.dst])
  {
    hide Execute, RunFrame, Replays, SendsLogged, InTime, DisciplinedModel, CausalModel;
    var ctx, log, more := ExecuteShape(cfg, m, me, r, ev);
  }

  /** Undoing an anti-message leaves the log as the cancellation left it, so the counters should stay what they
      are; they do just if the cancellation did not have to take them back. */
  lemma UndoneAntiRestoresCounters(cfg: Config, m: Model, w: World, me: RankId, anti: Event, to: TimeStamp)
    requires GoodModel(m) && Reachable(cfg, m, w) && OneUndone(cfg, m, w, me, anti, to) && anti.isAnti
    ensures anti.dst in Rollback(cfg, me, TakenUp(cfg, m, w, me, anti), anti.dst, to).lps
    ensures SameCounters(Rollback(cfg, me, TakenUp(cfg, m, w, me, anti), anti.dst, to).lps[anti.dst],
                         TakenUp(cfg, m, w, me, anti).lps[anti.dst])
       <==> !RewindsCounters(w[me].lps[anti.dst], KeyOf(anti))
  {
    hide GoodModel, Reachable, Rollback, LpOk, Cut, Cancel, RewindsCounters, MayTake;
    TakenUpOk(cfg, m, w, me, anti, to);
    CountersGoBack(cfg, m, w, me, anti, to);
    CancelCounters(cfg, m, me, TakePending(w[me], anti), anti);
  }

  /* ---- Counters that stay ahead ---- */

  /** LP 1 on rank 1 answers an event by a message to itself one tick later, whose sequence the kernel
      fills in. */
  function EchoConfig(): Config {
    Config(ColoredCounters, {0, 1}, (l: LPId) => if l == 0 then 0 else 1, None, None)
  }

  function Reply(e: Event): Event {
    Event(TimeStamp(if e.ts.time < TWO64 - 1 then e.ts.time + 1 else 0, 0), 1, 1, 0, 0, e.payload, 0, false)
  }

  function EchoModel(): Model {
    Model((l: LPId) => map[], (l: LPId) => [], (l: LPId, s: LpState, e: Event) => if e.ts.time < TWO64 - 1 then [Send(Reply(e))] else [], (l: LPId) => true)
  }

  function From0(time: u64, uid: Uid, isAnti: bool): Event {
    Event(TimeStamp(time, 1), 0, 1, 0, uid, Payload(0, []), 0, isAnti)
  }

  function Echoed(): Record {
    Record(From0(5, 1, false), 1, 1, false, map[], map[], [], false, ZERO)
  }

  function EchoSend(): SentRecord {
    SentRecord(TimeStamp(5, 1), TimeStamp(6, 1), 1, 1)
  }

  function Revoked(): Record {
    Record(From0(5, 1, true), 2, 1, false, map[], map[], [], false, ZERO)
  }

  ghost predicate Echo(r: Rank, log: seq<Record>, sends: seq<SentRecord>, next: u64, vt: TimeStamp) {
    && r.lps.Keys == {1} && r.past.Keys == {1} && !r.aborted && r.phase.color == 0
    && r.lps[1].state == map[] && !r.lps[1].inEvent && r.lps[1].vt == vt
    && r.lps[1].processed == log && r.lps[1].sentLog == sends
    && r.lps[1].nextSeqNormal == next && r.lps[1].nextSeqControl == 1
    && r.cancelled == (if |log| > 0 && log[0].ev.isAnti then map[KeyOf(log[0].ev) := log[0].ev.ts] else map[])
  }

  lemma EchoStarts()
    ensures Echo(FreshRank(EchoConfig(), EchoModel(), 1), [], [], 1, ZERO)
    ensures FreshRank(EchoConfig(), EchoModel(), 1).lps[1].nextUid == 1
  {
    var r := FreshRank(EchoConfig(), EchoModel(), 1);
    assert r.lps.Keys == {1} && r.past.Keys == {1};
  }

  function Stamped(): Event {
    Reply(From0(5, 1, false)).(uid := 1, ts := TimeStamp(6, 1))
  }

  lemma ReplyStamped(ctx: LpContext)
    requires ctx.nextSeqNormal == 1 && ctx.nextUid == 1
    ensures Stamp(EchoConfig(), ctx, Reply(From0(5, 1, false))) == Stamping(ctx.(nextUid := 2, nextSeqNormal := 2), Stamped())
  {
  }

  lemma ReplyLogged(r: Rank)
    requires r.lps.Keys == {1} && r.past.Keys == {1} && r.lps[1].sentLog == []
    requires r.lps[1].inEvent && r.lps[1].currentExecTs == TimeStamp(5, 1)
    ensures
      var u := LogSend(r, Stamped());
      && u.lps == r.lps[1 := r.lps[1].(sentLog := [EchoSend()])] && u.past.Keys == {1}
      && u.aborted == r.aborted && u.phase == r.phase && u.cancelled == r.cancelled
  {
    assert r.lps[1].sentLog + [EchoSend()] == [EchoSend()];
  }

  lemma ReplySent(r: Rank)
    requires r.lps.Keys == {1} && r.past.Keys == {1} && !r.aborted && r.phase.color == 0
    requires r.lps[1].nextSeqNormal == 1 && r.lps[1].nextUid == 1 && r.lps[1].sentLog == []
    requires r.lps[1].inEvent && r.lps[1].currentExecTs == TimeStamp(5, 1)
    ensures
      var u := SendEvent(EchoConfig(), 1, r, Reply(From0(5, 1, false)));
      && u.lps == r.lps[1 := r.lps[1].(nextUid := 2, nextSeqNormal := 2, sentLog := [EchoSend()])]
      && u.past.Keys == {1} && !u.aborted && u.phase == r.phase && u.cancelled == r.cancelled
  {
    hide Stamp, LogSend;
    ReplyStamped(r.lps[1]);
    var ctx := r.lps[1].(nextUid := 2, nextSeqNormal := 2);
    var posted := Enqueue(WithLp(r, 1, ctx), Stamped());
    ReplyLogged(posted);
    PutPut(r.lps, 1, ctx, ctx.(sentLog := [EchoSend()]));
  }

  lemma ReplyScript(e: Event)
    ensures SendsOf([Send(Reply(e))]) == [Reply(e)]
    ensures RunFrame(true, OpenFrame(map[]), [Send(Reply(e))]) == OpenFrame(map[])
  {
    var script := [Send(Reply(e))];
    assert script[1..] == [] && SendsOf([]) == [] && SendsOf(script) == [Reply(e)] + [];
    assert RunFrame(true, OpenFrame(map[]), script) == RunFrame(true, OpenFrame(map[]), []);
  }

  lemma OneSent(cfg: Config, r: Rank, e: Event)
    ensures SendAll(cfg, 1, r, [e]) == SendEvent(cfg, 1, r, e)
  {
    assert [e][1..] == [];
    assert SendAll(cfg, 1, r, [e]) == SendAll(cfg, 1, SendEvent(cfg, 1, r, e), []);
  }

  lemma EchoReplies(r: Rank)
    requires Echo(r, [], [], 1, ZERO) && r.lps[1].nextUid == 1
    ensures Echo(Dispatch(EchoConfig(), EchoModel(), 1, r, From0(5, 1, false)), [Echoed()],
                 [EchoSend()], 2, TimeStamp(5, 1))
  {
    hide SendAll, SendEvent, RunFrame, SendsOf;
    var cfg, m, ev := EchoConfig(), EchoModel(), From0(5, 1, false);
    var open := WithLp(r, 1, OpenLp(r.lps[1], ev));
    assert m.handle(1, map[], ev) == [Send(Reply(ev))];
    ReplyScript(ev);
    ReplySent(open);
    OneSent(cfg, open, Reply(ev));
    assert EventRecord(r.lps[1], ev, OpenFrame(map[])) == Echoed();
  }

  lemma AntiSent(r: Rank)
    requires r.lps.Keys == {1} && r.past.Keys == {1} && !r.aborted && r.phase.color == 0
    ensures
      var u := SendEvent(EchoConfig(), 1, r, AntiFor(1, EchoSend()));
      u.lps == r.lps && u.past.Keys == {1} && !u.aborted && u.phase == r.phase && u.cancelled == r.cancelled
  {
    var cfg, anti := EchoConfig(), AntiFor(1, EchoSend());
    assert Stamp(cfg, r.lps[1], anti) == Stamping(r.lps[1], anti);
    assert WithLp(r, 1, r.lps[1]).lps == r.lps;
  }

  lemma EchoRewound(r: Rank)
    requires Echo(r.(cancelled := map[]), [Echoed()], [EchoSend()], 2, TimeStamp(5, 1))
    ensures
      var u := Rollback(EchoConfig(), 1, r, 1, TimeStamp(5, 1));
      Echo(u.(cancelled := map[]), [], [], 1, PrevStamp(TimeStamp(5, 1))) && u.cancelled == r.cancelled
  {
    hide SendAll, SendEvent;
    var cfg, to := EchoConfig(), TimeStamp(5, 1);
    assert Cut([Echoed()], to) == 0 && SendCut([EchoSend()], to) == 0;
    assert UndoCancels(r.cancelled, [Echoed()]) == UndoCancels(r.cancelled, []) by { assert [Echoed()][..0] == []; }
    assert Restore([Echoed()], map[]) == map[] by { assert [Echoed()][1..] == []; }
    var base := Rewound(r, 1, to);
    assert AntisFor(1, [EchoSend()]) == [AntiFor(1, EchoSend())] by { assert [EchoSend()][..0] == []; }
    OneSent(cfg, base, AntiFor(1, EchoSend()));
    AntiSent(base);
  }

  /** The anti-message for the event rolls the LP back and takes its place in the log. */
  lemma EchoRevoked(r: Rank)
    requires Echo(r, [Echoed()], [EchoSend()], 2, TimeStamp(5, 1))
    ensures Echo(Dispatch(EchoConfig(), EchoModel(), 1, r, From0(5, 1, true)), [Revoked()], [], 1, TimeStamp(5, 1))
  {
    hide Rollback;
    var anti := From0(5, 1, true);
    assert FindProcessed([Echoed()], KeyOf(anti)) == Some(TimeStamp(5, 1));
    EchoRewound(Bury(r, anti));
    assert [] + [Revoked()] == [Revoked()];
  }

  /** A straggler rolls the LP back once more: its log is empty and its counter is not 1. */
  lemma EchoRolledBack(r: Rank)
    requires Echo(r, [Revoked()], [], 1, TimeStamp(5, 1))
    ensures Echo(Dispatch(EchoConfig(), EchoModel(), 1, r, From0(4, 2, false)), [], [], 2, PrevStamp(TimeStamp(4, 1)))
  {
    hide SendEvent;
    var cfg := EchoConfig();
    var to := TimeStamp(4, 1);
    assert Cut([Revoked()], to) == 0;
    assert UndoCancels(r.cancelled, [Revoked()]) == map[];
  }

  /** An event, its anti-message and an earlier event, one after the other: in the end the LP's log
      is as empty as it was, but the next sequence it fills in is 2 and no longer 1. */
  lemma CountersMayStayAhead()
    ensures
      var cfg, m := EchoConfig(), EchoModel();
      var first := FreshRank(cfg, m, 1);
      var r := Dispatch(cfg, m, 1, Dispatch(cfg, m, 1, Dispatch(cfg, m, 1, first, From0(5, 1, false)),
                                            From0(5, 1, true)), From0(4, 2, false));
      && 1 in first.lps && first.lps[1].processed == [] && first.lps[1].nextSeqNormal == 1
      && 1 in r.lps && !r.aborted && r.lps[1].processed == [] && r.lps[1].nextSeqNormal == 2
  {
    hide Dispatch, FreshRank;
    var cfg, m := EchoConfig(), EchoModel();
    var first := FreshRank(cfg, m, 1);
    EchoStarts();
    EchoReplies(first);
    var one := Dispatch(cfg, m, 1, first, From0(5, 1, false));
    EchoRevoked(one);
    EchoRolledBack(Dispatch(cfg, m, 1, one, From0(5, 1, true)));
  }
}
