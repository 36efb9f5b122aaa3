/** Every step of one rank keeps the invariants of all ranks together. */
module Moves {
  import opened Stamps
  import opened Events
  import opened Models
  import opened Kernel
  import opened Replay
  import opened LpInvariant
  import opened RankSteps
  import opened Ledgers
  import opened Books
  import opened BookSteps
  import opened Tombs
  import opened Floor
  import opened Handling
  import opened Dispatching
  import opened AntiDispatch
  import opened Worlds
  import opened Collections

  ghost predicate GvtAgree(w: World) {
    forall r, q :: 0 <= r < |w| && 0 <= q < |w| ==> w[r].lastGvt == w[q].lastGvt
  }

  /** A rank that differs only in what it has waiting. */
  predicate SameButBags(r: Rank, u: Rank) {
    u == r.(pending := u.pending, wire := u.wire, acks := u.acks, inflight := u.inflight,
            inflightTs := u.inflightTs, phase := u.phase, dropped := u.dropped)
  }

  lemma BagsKeepRank(cfg: Config, m: Model, me: RankId, r: Rank, u: Rank)
    requires RankOk(cfg, m, me, r) && SameButBags(r, u)
    requires TrafficAbove(u, u.lastGvt) && WireOut(cfg, me, u)
    ensures RankOk(cfg, m, me, u)
  {
    hide LpOk, TombsOk, RecordsAbove, PastBelow, TrafficAbove, WireOut;
    SameLogsKeepTombs(r, u);
  }

  /* ---- Taking a message out of a queue ---- */

  lemma TakenIsWaiting(w: World, me: RankId, ev: Event)
    requires me < |w| && ev in w[me].pending
    ensures Traffic(TakePending(w[me], ev)) + multiset{ev} == Traffic(w[me]) + multiset{}
  {
  }

  lemma TakeOk(cfg: Config, m: Model, w: World, me: RankId, ev: Event)
    requires AllOk(cfg, m, w, multiset{}) && me < |w| && ev in w[me].pending
    ensures AllOk(cfg, m, w[me := TakePending(w[me], ev)], multiset{ev})
    ensures w[me].lastGvt.Le(ev.ts)
  {
    hide LpsOk, TombsOk, LedgerOk, LedgerOf, PastsBelow, LogsAbove, Placed, StartedFirst;
    var r := w[me];
    var u := TakePending(r, ev);
    assert RankOk(cfg, m, me, r);
    TakenIsWaiting(w, me, ev);
    LedgerSame(cfg, w, me, u, multiset{}, multiset{ev});
    BagsKeepRank(cfg, m, me, r, u);
    RanksOkWith(cfg, m, w, me, u);
  }

  /* ---- Throwing away a cancelled event ---- */

  /** A tombstoned message waiting in a queue is an event, never an anti-message, and it has been
      cancelled. */
  lemma TombstonedIsCancelledEvent(cfg: Config, m: Model, w: World, me: RankId, ev: Event)
    requires AllOk(cfg, m, w, multiset{}) && me < |w| && ev in w[me].pending && Tombstoned(w[me], ev)
    ensures !ev.isAnti
    ensures Cancelled(LedgerOf(cfg, w, multiset{}), ev)
  {
    hide LedgerOk, LedgerOf, LpsOk, FloorOk, Placed, Known, AntisHaveTombs, StartedFirst, AllOk, Cancelled;
    var r := w[me];
    assert RankOk(cfg, m, me, r) && Placed(cfg, w) && LedgerOk(LedgerOf(cfg, w, multiset{})) by { AllOkParts(cfg, m, w, me); }
    var l, i :| AntiAt(r, l, i, KeyOf(ev)) && r.lps[l].processed[i].ev.ts == r.cancelled[KeyOf(ev)];
    var a := r.lps[l].processed[i].ev;
    var L := LedgerOf(cfg, w, multiset{});
    LoggedIsKnown(cfg, w, multiset{}, me, l, i);
    WaitingIsInBag(cfg, w, me, ev);
    BagIsKnown(L, ev);
    KnownAntiIsCancelled(L, a, ev);
    if ev.isAnti {
      KnownAntisAgree(L, a, ev);
      KnownIsOnce(L, ev);
      assert false;
    }
  }

  lemma AllOkParts(cfg: Config, m: Model, w: World, me: RankId)
    requires AllOk(cfg, m, w, multiset{}) && me < |w|
    ensures RankOk(cfg, m, me, w[me]) && Placed(cfg, w) && LedgerOk(LedgerOf(cfg, w, multiset{}))
  {
    hide RankOk;
  }

  lemma KnownAntiIsCancelled(L: Ledger, a: Event, e: Event)
    requires Known(L, a) && a.isAnti && KeyOf(a) == KeyOf(e)
    ensures Cancelled(L, e)
  {
  }

  lemma {:induction false} TrafficHolds(w: World, me: RankId, e: Event)
    requires me < |w|
    ensures Traffic(w[me])[e] <= AllTraffic(w)[e]
    decreases |w|
  {
    if me < |w| - 1 { TrafficHolds(w[..|w| - 1], me, e); }
  }

  lemma WaitingIsInBag(cfg: Config, w: World, me: RankId, ev: Event)
    requires me < |w| && (ev in w[me].pending || ev in w[me].wire)
    ensures ev in LedgerOf(cfg, w, multiset{}).bag
  {
    TrafficHolds(w, me, ev);
  }

  lemma DiscardOk(cfg: Config, m: Model, w: World, me: RankId, ev: Event)
    requires AllOk(cfg, m, w, multiset{}) && me < |w| && ev in w[me].pending && Tombstoned(w[me], ev)
    ensures AllOk(cfg, m, w[me := DropPending(w[me], ev)], multiset{})
  {
    hide LpsOk, TombsOk, LedgerOk, LedgerOf, PastsBelow, LogsAbove, Placed, StartedFirst, RankOk, Cancelled;
    var r := w[me];
    var u := DropPending(r, ev);
    assert RankOk(cfg, m, me, r);
    TombstonedIsCancelledEvent(cfg, m, w, me, ev);
    DiscardLedger(cfg, w, me, ev);
    DropKeeps(LedgerOf(cfg, w, multiset{}), ev);
    DiscardRank(cfg, m, me, r, ev);
    RanksOkWith(cfg, m, w, me, u);
  }

  lemma DiscardRank(cfg: Config, m: Model, me: RankId, r: Rank, ev: Event)
    requires RankOk(cfg, m, me, r)
    ensures RankOk(cfg, m, me, DropPending(r, ev))
  {
    hide LpsOk, TombsOk, PastsBelow, LogsAbove, StartedFirst;
    BagsKeepRank(cfg, m, me, r, DropPending(r, ev));
  }

  lemma DiscardLedger(cfg: Config, w: World, me: RankId, ev: Event)
    requires me < |w| && ev in w[me].pending
    ensures LedgerOf(cfg, w[me := DropPending(w[me], ev)], multiset{}) == Drop(LedgerOf(cfg, w, multiset{}), ev)
    ensures ev in LedgerOf(cfg, w, multiset{}).bag
    ensures Placed(cfg, w) ==> Placed(cfg, w[me := DropPending(w[me], ev)])
  {
    hide Traffic, AccountsOf, Placed;
    var u := DropPending(w[me], ev);
    WaitingIsInBag(cfg, w, me, ev);
    assert Traffic(u) + multiset{} + multiset{ev} == Traffic(w[me]) + multiset{} by { DropTraffic(w[me], ev); }
    BagWith(cfg, w, me, u, multiset{}, multiset{}, multiset{ev});
    var b := LedgerOf(cfg, w[me := u], multiset{}).bag;
    TakeAway(b, LedgerOf(cfg, w, multiset{}).bag, multiset{ev}) by {
      assert LedgerOf(cfg, w, multiset{}).bag + multiset{} == LedgerOf(cfg, w, multiset{}).bag;
    }
    AccountsSame(cfg, w, me, u);
    DroppedSame(w, me, u, multiset{ev});
  }

  lemma DropTraffic(r: Rank, ev: Event)
    requires ev in r.pending
    ensures Traffic(DropPending(r, ev)) + multiset{} + multiset{ev} == Traffic(r) + multiset{}
  {
  }

  /* ---- Delivery ---- */

  /** A rank puts a message in its queue; acknowledgements and counters may change with it. */
  lemma PutOk(cfg: Config, m: Model, w: World, me: RankId, u: Rank, ev: Event)
    requires AllOk(cfg, m, w, multiset{ev}) && me < |w| && w[me].lastGvt.Le(ev.ts)
    requires SameButBags(w[me], u) && u.dropped == w[me].dropped
    requires u.pending == w[me].pending + multiset{ev} && u.wire == w[me].wire
    ensures AllOk(cfg, m, w[me := u], multiset{})
  {
    hide LpsOk, TombsOk, LedgerOk, LedgerOf, PastsBelow, LogsAbove, Placed, StartedFirst;
    var r := w[me];
    assert RankOk(cfg, m, me, r);
    LedgerSame(cfg, w, me, u, multiset{ev}, multiset{});
    BagsKeepRank(cfg, m, me, r, u);
    RanksOkWith(cfg, m, w, me, u);
  }

  /** Bookkeeping of acknowledgements alone. */
  lemma QuietOk(cfg: Config, m: Model, w: World, me: RankId, u: Rank)
    requires AllOk(cfg, m, w, multiset{}) && me < |w|
    requires SameButBags(w[me], u) && u.dropped == w[me].dropped
    requires u.pending == w[me].pending && u.wire == w[me].wire
    ensures AllOk(cfg, m, w[me := u], multiset{})
  {
    hide LpsOk, TombsOk, LedgerOk, LedgerOf, PastsBelow, LogsAbove, Placed, StartedFirst;
    var r := w[me];
    assert RankOk(cfg, m, me, r);
    LedgerSame(cfg, w, me, u, multiset{}, multiset{});
    BagsKeepRank(cfg, m, me, r, u);
    RanksOkWith(cfg, m, w, me, u);
  }

  lemma UnwireOk(cfg: Config, m: Model, w: World, from: RankId, ev: Event)
    requires AllOk(cfg, m, w, multiset{}) && from < |w| && ev in w[from].wire
    ensures AllOk(cfg, m, w[from := Unwire(w[from], ev)], multiset{ev})
    ensures w[from].lastGvt.Le(ev.ts) && cfg.rankOf(ev.dst) != from
  {
    hide LpsOk, TombsOk, LedgerOk, LedgerOf, PastsBelow, LogsAbove, Placed, StartedFirst;
    var r := w[from];
    var u := Unwire(r, ev);
    assert RankOk(cfg, m, from, r);
    assert ev in Traffic(r);
    assert Traffic(u) + multiset{ev} == Traffic(r) + multiset{};
    LedgerSame(cfg, w, from, u, multiset{}, multiset{ev});
    BagsKeepRank(cfg, m, from, r, u);
    RanksOkWith(cfg, m, w, from, u);
  }

  lemma ReceiveOk(cfg: Config, m: Model, w: World, from: RankId, me: RankId, ev: Event)
    requires AllOk(cfg, m, w, multiset{}) && GvtAgree(w)
    requires MayReceive(cfg, w, from, me, ev)
    ensures AllOk(cfg, m, Delivered(cfg, w, from, me, ev), multiset{})
  {
    hide AllOk;
    UnwireOk(cfg, m, w, from, ev);
    var sent := w[from := Unwire(w[from], ev)];
    PutOk(cfg, m, sent, me, ReceiveEvent(cfg, sent[me], from, ev), ev);
  }

  lemma HearAckOk(cfg: Config, m: Model, w: World, from: RankId, me: RankId, key: InflightKey)
    requires AllOk(cfg, m, w, multiset{}) && MayHear(w, from, me, key)
    ensures AllOk(cfg, m, Heard(cfg, w, from, me, key), multiset{})
  {
    hide AllOk;
    QuietOk(cfg, m, w, from, Unack(w[from], Ack(me, key)));
    var sent := w[from := Unack(w[from], Ack(me, key))];
    QuietOk(cfg, m, sent, me, ReceiveAck(cfg, sent[me], key));
  }

  /* ---- Dispatching ---- */

  lemma DispatchOk(cfg: Config, m: Model, w: World, me: RankId, ev: Event)
    requires GoodModel(m) && AllOk(cfg, m, w, multiset{ev}) && me < |w| && Ready(w[me])
    requires w[me].lastGvt.Le(ev.ts) && (ev.isAnti || !Tombstoned(w[me], ev))
    requires !Dispatch(cfg, m, me, w[me], ev).aborted
    ensures AllOk(cfg, m, w[me := Dispatch(cfg, m, me, w[me], ev)], multiset{})
  {
    hide RanksOk, LedgerOk, LedgerOf, Rollback, DispatchAnti, Execute, DisciplinedModel, CausalModel;
    var r := w[me];
    var l := ev.dst;
    HandIsKnown(cfg, w, ev);
    InHistoryLp(cfg, w, me, l);
    if ev.ts.Lt(r.lps[l].vt) {
      RollbackOk(cfg, m, w, me, l, ev.ts, multiset{ev});
      var back := w[me := Rollback(cfg, me, r, l, ev.ts)];
      RollbackKeepsGvt(cfg, m, w, me, l, ev.ts, multiset{ev});
      EnqueueOk(cfg, m, back, me, ev);
      assert back[me := Enqueue(back[me], ev)] == w[me := Dispatch(cfg, m, me, r, ev)];
    } else if ev.isAnti {
      AntiOk(cfg, m, w, me, ev);
    } else {
      ExecuteOk(cfg, m, w, me, ev);
    }
  }

  lemma RollbackKeepsGvt(cfg: Config, m: Model, w: World, me: RankId, l: LPId, to: TimeStamp, hand: multiset<Event>)
    requires AllOk(cfg, m, w, hand) && me < |w| && l in w[me].lps
    ensures Rollback(cfg, me, w[me], l, to).lastGvt == w[me].lastGvt
  {
    hide LpsOk, TombsOk, FloorOk, StartedFirst, Rollback, LedgerOk, LedgerOf, Placed;
    assert RankOk(cfg, m, me, w[me]);
    RollbackAborts(cfg, m, me, w[me], l, to);
  }

  lemma TakeStepOk(cfg: Config, m: Model, w: World, me: RankId, ev: Event)
    requires GoodModel(m) && AllOk(cfg, m, w, multiset{}) && MayTake(w, me, ev)
    requires !Dispatch(cfg, m, me, TakePending(w[me], ev), ev).aborted
    ensures AllOk(cfg, m, w[me := Dispatch(cfg, m, me, TakePending(w[me], ev), ev)], multiset{})
  {
    hide AllOk, GoodModel, Dispatch;
    TakeOk(cfg, m, w, me, ev);
    var taken := w[me := TakePending(w[me], ev)];
    DispatchOk(cfg, m, taken, me, ev);
    assert taken[me := Dispatch(cfg, m, me, taken[me], ev)] == w[me := Dispatch(cfg, m, me, taken[me], ev)];
  }

  /* ---- Start-up ---- */

  lemma StartBooks(cfg: Config, m: Model, w: World, me: RankId, l: LPId)
    requires CausalModel(m) && Placed(cfg, w) && me < |w| && Hosts(w[me], l)
    requires LpOk(cfg, m, l, w[me].lps[l], w[me].past[l])
    requires !StartLp(cfg, m, me, w[me], l).aborted
    requires LedgerOk(LedgerOf(cfg, w, multiset{}))
    ensures Placed(cfg, w[me := StartLp(cfg, m, me, w[me], l)])
    ensures LedgerOk(LedgerOf(cfg, w[me := StartLp(cfg, m, me, w[me], l)], multiset{}))
  {
    hide Placed, LedgerOk, LedgerOf, SendEvent, InTime, Replays, SendsLogged;
    var r := w[me];
    var begun := r.(past := r.past[l := r.past[l].(started := true)]);
    PutSame(r.lps, l);
    SameBooksStill(cfg, w, me, l, begun, multiset{}, multiset{});
    SendAllBooks(cfg, w[me := begun], me, l, m.start(l), multiset{});
    assert w[me := begun][me := StartLp(cfg, m, me, r, l)] == w[me := StartLp(cfg, m, me, r, l)];
  }

  lemma StartRank(cfg: Config, m: Model, me: RankId, r: Rank, l: LPId)
    requires CausalModel(m) && RankOk(cfg, m, me, r) && Hosts(r, l) && cfg.rankOf(l) == me
    requires !r.past[l].started && !StartLp(cfg, m, me, r, l).aborted
    ensures RankOk(cfg, m, me, StartLp(cfg, m, me, r, l))
  {
    hide TombsOk, RecordsAbove, SendEvent, InTime, Replays, SendsLogged, StartLp, PastBelow, TrafficOk, SendAll, TrafficAbove, WireOut;
    StartKeeps(cfg, m, me, r, l);
    var ctx, log, more := StartShape(cfg, m, me, r, l);
    var u := StartLp(cfg, m, me, r, l);
    SameLogsKeepTombs(r, u);
    StartTraffic(cfg, m, me, r, l);
    assert TrafficOk(cfg, me, u, ZERO) ==> TrafficAbove(u, ZERO) && WireOut(cfg, me, u) by { TrafficOkParts(cfg, me, u); }
    assert PastBelow(u.past[l], ZERO) by {
      assert PastBelow(r.past[l], ZERO);
      StartedPastBelow(r.past[l], u.past[l]);
    }
    LogsWith(r, l, u, ZERO);
  }

  lemma TrafficOkParts(cfg: Config, me: RankId, r: Rank)
    ensures TrafficOk(cfg, me, r, ZERO) ==> TrafficAbove(r, ZERO) && WireOut(cfg, me, r)
  {
  }

  lemma StartedPastBelow(past: LpPast, pastAfter: LpPast)
    requires PastBelow(past, ZERO) && pastAfter == past.(started := true, sent := pastAfter.sent)
    ensures PastBelow(pastAfter, ZERO)
  {
  }

  lemma StartShape(cfg: Config, m: Model, me: RankId, r: Rank, l: LPId)
    returns (ctx: LpContext, log: seq<SentRecord>, more: seq<Event>)
    requires CausalModel(m) && LpsOk(cfg, m, r) && Hosts(r, l)
    requires !StartLp(cfg, m, me, r, l).aborted
    ensures StartLp(cfg, m, me, r, l).lps == r.lps[l := ctx]
    ensures StartLp(cfg, m, me, r, l).past
         == r.past[l := r.past[l].(started := true, sent := r.past[l].sent + more)]
    ensures SameButCounters(ctx, r.lps[l].(sentLog := r.lps[l].sentLog + log))
    ensures SameButTraffic(StartLp(cfg, m, me, r, l), r)
  {
    hide InTime, Replays, SendsLogged, SendEvent;
    var past := r.past[l].(started := true);
    var begun := r.(past := r.past[l := past]);
    ctx, log, more := SendAllShape(cfg, me, begun, l, m.start(l));
    PutPut(r.past, l, past, past.(sent := past.sent + more));
  }

  lemma StartTraffic(cfg: Config, m: Model, me: RankId, r: Rank, l: LPId)
    requires CausalModel(m) && LpsOk(cfg, m, r) && Hosts(r, l) && cfg.rankOf(l) == me
    requires !StartLp(cfg, m, me, r, l).aborted
    requires FloorOk(cfg, me, r) && r.lastGvt == ZERO
    ensures TrafficOk(cfg, me, StartLp(cfg, m, me, r, l), ZERO)
  {
    hide InTime, Replays, SendsLogged, SendEvent, LogsAbove, PastsBelow;
    var begun := r.(past := r.past[l := r.past[l].(started := true)]);
    assert TrafficOk(cfg, me, begun, ZERO);
    SendAllKeepsTraffic(cfg, me, begun, l, m.start(l), ZERO);
  }

  lemma StartOk(cfg: Config, m: Model, w: World, me: RankId, l: LPId)
    requires CausalModel(m) && AllOk(cfg, m, w, multiset{}) && MayStart(w, me, l)
    requires !StartLp(cfg, m, me, w[me], l).aborted
    ensures AllOk(cfg, m, w[me := StartLp(cfg, m, me, w[me], l)], multiset{})
  {
    hide TombsOk, FloorOk, StartedFirst, LedgerOk, LedgerOf, CausalModel, InTime, Replays, SendsLogged, StartLp;
    assert RankOk(cfg, m, me, w[me]);
    InHistoryLp(cfg, w, me, l);
    StartRank(cfg, m, me, w[me], l);
    StartBooks(cfg, m, w, me, l);
    RanksOkWith(cfg, m, w, me, StartLp(cfg, m, me, w[me], l));
  }
}
