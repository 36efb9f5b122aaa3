/** What holds in every reachable state of any number of ranks, one claim after the other. */
module Safety {
  import opened Stamps
  import opened Events
  import opened Models
  import opened Kernel
  import opened Replay
  import opened LpInvariant
  import opened LpSteps
  import opened RankSteps
  import opened Ledgers
  import opened Books
  import opened BookSteps
  import opened Tombs
  import opened Floor
  import opened Handling
  import opened Dispatching
  import opened Worlds
  import opened Moves
  import opened Network
  import opened Pruning
  import opened Gvt
  import opened Collecting
  import opened Runs
  import opened History
  import opened Invisible
  import opened Equivalence
  import opened Collections

  /** The parts of the invariant a claim about one rank starts from. */
  lemma RankParts(cfg: Config, m: Model, w: World, me: RankId)
    requires GoodModel(m) && Reachable(cfg, m, w) && me < |w|
    ensures WorldOk(cfg, m, w)
    ensures !w[me].aborted && LpsOk(cfg, m, w[me]) && TombsOk(w[me]) && FloorOk(cfg, me, w[me]) && NetOk(cfg, w[me])
    ensures Placed(cfg, w) && LedgerOk(LedgerOf(cfg, w, multiset{}))
  {
    hide LpsOk, TombsOk, FloorOk, NetOk, Placed, LedgerOk, LedgerOf, Reachable, GoodModel, GvtAgree, AcksOk, PhasesAgree, CountsOk, StartedFirst;
    ReachableOk(cfg, m, w);
    assert RankOk(cfg, m, me, w[me]);
    assert NetOk(cfg, w[me]);
  }

  /* ---- GVT ---- */

  /** In either protocol, nothing waiting, on a wire or in a log of any rank is below the GVT of any
      rank, and everything committed is. */
  lemma NothingBelowGvt(cfg: Config, m: Model, w: World, me: RankId, at: RankId)
    requires GoodModel(m) && Reachable(cfg, m, w) && me < |w| && at < |w|
    ensures w[at].lastGvt == w[me].lastGvt
    ensures forall e :: e in w[at].pending || e in w[at].wire ==> w[me].lastGvt.Le(e.ts)
    ensures forall l, i :: l in w[at].lps && 0 <= i < |w[at].lps[l].processed| ==> w[me].lastGvt.Le(w[at].lps[l].processed[i].ev.ts)
    ensures forall l, i :: l in w[at].past && 0 <= i < |w[at].past[l].committed| ==> w[at].past[l].committed[i].ev.ts.Lt(w[me].lastGvt)
  {
    hide LpsOk, TombsOk, Placed, LedgerOk, LedgerOf, Reachable, GoodModel, AllOk, EachNetOk, AcksOk, PhasesAgree, CountsOk;
    RankParts(cfg, m, w, at);
    assert w[at].lastGvt == w[me].lastGvt;
    var g := w[me].lastGvt;
    forall e | e in w[at].pending || e in w[at].wire ensures g.Le(e.ts) { assert e in Traffic(w[at]); }
    forall l, i | l in w[at].lps && 0 <= i < |w[at].lps[l].processed| ensures g.Le(w[at].lps[l].processed[i].ev.ts) {
      assert RecordsAbove(w[at].lps[l].processed, g);
    }
    forall l, i | l in w[at].past && 0 <= i < |w[at].past[l].committed| ensures w[at].past[l].committed[i].ev.ts.Lt(g) {
      assert PastBelow(w[at].past[l], g);
    }
  }

  /** And so it stays: at no later moment of the run is anything below a GVT that was once taken, on
      any rank, and what had been committed then still is. */
  lemma NothingLaterIsBelow(cfg: Config, m: Model, trace: seq<World>, i: nat, j: nat, me: RankId, at: RankId)
    requires GoodModel(m) && Run(cfg, m, trace) && i <= j < |trace| && me < |trace[i]| && at < |trace[j]|
    ensures |trace[i]| == |trace[j]|
    ensures forall e :: e in trace[j][at].pending || e in trace[j][at].wire ==> trace[i][me].lastGvt.Le(e.ts)
    ensures forall l, k :: l in trace[j][at].lps && 0 <= k < |trace[j][at].lps[l].processed| ==>
      trace[i][me].lastGvt.Le(trace[j][at].lps[l].processed[k].ev.ts)
    ensures forall l :: l in trace[i][at].past ==>
      l in trace[j][at].past && trace[i][at].past[l].committed <= trace[j][at].past[l].committed
  {
    hide Run, GoodModel, Init, StepTo;
    RunIsMonotone(cfg, m, trace, i, j);
    assert LaterRank(trace[i][me], trace[j][me]) && LaterRank(trace[i][at], trace[j][at]);
    assert Reachable(cfg, m, trace[j]) by { PrefixRuns(cfg, m, trace, j); }
    hide Reachable, LaterRank;
    NothingBelowGvt(cfg, m, trace[j], me, at);
    LaterFields(trace[i][me], trace[j][me]);
    LaterFields(trace[i][at], trace[j][at]);
    var g, h := trace[i][me].lastGvt, trace[j][me].lastGvt;
    forall e | e in trace[j][at].pending || e in trace[j][at].wire ensures g.Le(e.ts) { LeTrans(g, h, e.ts); }
    forall l, k | l in trace[j][at].lps && 0 <= k < |trace[j][at].lps[l].processed|
      ensures g.Le(trace[j][at].lps[l].processed[k].ev.ts)
    {
      LeTrans(g, h, trace[j][at].lps[l].processed[k].ev.ts);
    }
  }

  lemma LaterFields(r: Rank, u: Rank)
    requires LaterRank(r, u)
    ensures r.lastGvt.Le(u.lastGvt)
    ensures forall l :: l in r.past ==> l in u.past && r.past[l].committed <= u.past[l].committed
  {
  }

  /** Every state of a run is reachable. */
  lemma PrefixRuns(cfg: Config, m: Model, trace: seq<World>, i: nat)
    requires Run(cfg, m, trace) && i < |trace|
    ensures Reachable(cfg, m, trace[i])
  {
    hide Init, StepTo;
    var front := trace[..i + 1];
    forall k | 0 <= k < |front| - 1 ensures StepTo(cfg, m, front[k], front[k + 1]) {
      assert StepTo(cfg, m, trace[k], trace[k + 1]);
    }
    assert Run(cfg, m, front) && front[|front| - 1] == trace[i];
  }

  /** Acknowledgement GVT: a message in transit is in its sender's in-flight map, with its stamp,
      until the acknowledgement is heard; while an acknowledgement is on its way, the message is not. */
  lemma InTransitIsInFlight(cfg: Config, m: Model, w: World, me: RankId)
    requires GoodModel(m) && Reachable(cfg, m, w) && me < |w| && cfg.mode.AckInflight?
    ensures forall e :: e in w[me].wire ==>
      FlightKeyOf(e) in w[me].inflight && w[me].inflight[FlightKeyOf(e)] == e.ts && e.ts in w[me].inflightTs
    ensures forall a :: a in w[me].acks ==> a.to < |w| && forall e :: e in w[a.to].wire ==> FlightKeyOf(e) != a.key
  {
    hide LpsOk, TombsOk, FloorOk, Placed, LedgerOk, LedgerOf, Reachable, GoodModel, AllOk, EachNetOk, SentKey, ValuesOf, GvtAgree;
    RankParts(cfg, m, w, me);
    forall e | e in w[me].wire ensures e.ts in w[me].inflightTs { InflightStamp(w[me], e); }
    forall a | a in w[me].acks ensures a.to < |w| && forall e :: e in w[a.to].wire ==> FlightKeyOf(e) != a.key {
      assert AckOk(w, a);
    }
  }

  /** Coloured GVT: all ranks are in one phase of one round; in a white phase only white messages
      are in transit; in a red phase the reduced difference counts exactly the white ones. */
  lemma ColorsAgree(cfg: Config, m: Model, w: World, me: RankId, at: RankId)
    requires GoodModel(m) && Reachable(cfg, m, w) && me < |w| && at < |w| && cfg.mode.ColoredCounters?
    ensures w[me].phase.red == w[at].phase.red && w[me].phase.white == w[at].phase.white
    ensures w[me].phase.color == if w[me].phase.red then 1 - w[me].phase.white else w[me].phase.white
    ensures !w[me].phase.red ==> forall e :: e in w[at].wire ==> e.gvtColor == w[me].phase.white
    ensures w[me].phase.red ==> WhiteInTransit(w) == GlobalSum(CountColor(w[me].phase.white), w)
  {
    hide LpsOk, TombsOk, FloorOk, Placed, LedgerOk, LedgerOf, Reachable, GoodModel, AllOk, GvtAgree, GlobalSum, CountsOk, EachNetOk;
    RankParts(cfg, m, w, me);
    RankParts(cfg, m, w, at);
    assert w[me].phase.red == w[0].phase.red && w[me].phase.white == w[0].phase.white;
    if w[me].phase.red { WhiteInTransitIsExact(cfg, w, w[me].phase.white); }
  }

  /** No rollback ever needs a pruned record or log entry: what a rank may dispatch next is at or
      after its GVT, and everything it has pruned is strictly before. */
  lemma NoPrunedRecordIsNeeded(cfg: Config, m: Model, w: World, me: RankId, ev: Event, l: LPId)
    requires GoodModel(m) && Reachable(cfg, m, w) && me < |w| && ev in w[me].pending && l in w[me].past
    ensures w[me].lastGvt.Le(ev.ts)
    ensures RecordsBelow(w[me].past[l].committed, ev.ts) && SendsBelow(w[me].past[l].pruned, ev.ts)
  {
    hide LpsOk, TombsOk, Placed, LedgerOk, LedgerOf, Reachable, GoodModel, WorldOk, NetOk, RecordsBelow, SendsBelow;
    RankParts(cfg, m, w, me);
    assert ev in Traffic(w[me]);
    assert PastBelow(w[me].past[l], w[me].lastGvt);
    PastBelowLater(w[me].past[l], w[me].lastGvt, ev.ts);
  }

  /* ---- States and rollback ---- */

  /** An LP's state is always the replay of its whole log, from its initial state. */
  lemma StateIsReplay(cfg: Config, m: Model, w: World, me: RankId, l: LPId)
    requires GoodModel(m) && Reachable(cfg, m, w) && me < |w| && l in w[me].lps
    ensures l in w[me].past
    ensures w[me].lps[l].state == StateAfter(m, l, EventsOf(w[me].past[l].committed + w[me].lps[l].processed))
  {
    hide TombsOk, FloorOk, Placed, LedgerOk, LedgerOf, Reachable, GoodModel, WorldOk, NetOk, InTime, SendsLogged, StateAfter;
    RankParts(cfg, m, w, me);
  }

  /** Rollback restores exactly: the log keeps just its records before `to`, and the snapshots of
      the others, LP-wide or per entity, give back the state their replay leads to. */
  lemma RollbackRestoresExactly(cfg: Config, m: Model, w: World, me: RankId, l: LPId, to: TimeStamp)
    requires GoodModel(m) && Reachable(cfg, m, w) && me < |w| && l in w[me].lps
    requires w[me].lastGvt.Le(to) && to != ZERO
    ensures l in w[me].past && l in Rollback(cfg, me, w[me], l, to).lps
    ensures
      var ctx := w[me].lps[l];
      var u := Rollback(cfg, me, w[me], l, to).lps[l];
      var k := |u.processed|;
      && k <= |ctx.processed| && u.processed == ctx.processed[..k]
      && (forall i :: 0 <= i < |ctx.processed| ==> (i < k <==> ctx.processed[i].ev.ts.Lt(to)))
      && u.state == StateAfter(m, l, EventsOf(w[me].past[l].committed + ctx.processed[..k]))
      && u.vt == PrevStamp(to)
  {
    hide TombsOk, Placed, LedgerOk, LedgerOf, Reachable, WorldOk, NetOk, Rollback, UndoCancels, StateAfter, CausalModel,
         DisciplinedModel, TrafficAbove, WireOut, LogsAbove, PastBelow, InTime, SendsLogged, RecordsOk;
    RankParts(cfg, m, w, me);
    var r := w[me];
    var ctx := r.lps[l];
    var u := Rollback(cfg, me, r, l, to);
    RollbackShape(cfg, m, me, r, l, to);
    RollbackLpsOk(cfg, m, me, r, l, to);
    CutIsExact(cfg, m, l, ctx, r.past[l], to) by { PastBelowLater(r.past[l], r.lastGvt, to); }
    assert LpOk(cfg, m, l, u.lps[l], u.past[l]);
    RewindVtIs(ctx, to);
  }

  lemma RewindVtIs(ctx: LpContext, to: TimeStamp)
    ensures RewoundLp(ctx, to).vt == PrevStamp(to)
    ensures RewoundLp(ctx, to).processed == ctx.processed[..Cut(ctx.processed, to)]
    ensures RewoundLp(ctx, to).sentLog == ctx.sentLog[..SendCut(ctx.sentLog, to)]
  {
  }

  lemma CutIsExact(cfg: Config, m: Model, l: LPId, ctx: LpContext, past: LpPast, to: TimeStamp)
    requires LpOk(cfg, m, l, ctx, past) && PastBelow(past, to)
    ensures forall i :: 0 <= i < |ctx.processed| ==> (i < Cut(ctx.processed, to) <==> ctx.processed[i].ev.ts.Lt(to))
  {
    hide Replays, SendsLogged, Cut;
    WholeCut(past.committed, ctx.processed, to);
    var all := AllRecords(ctx, past);
    var n := |past.committed|;
    forall i | 0 <= i < |ctx.processed|
      ensures i < Cut(ctx.processed, to) <==> ctx.processed[i].ev.ts.Lt(to)
    {
      assert all[n + i] == ctx.processed[i];
    }
  }

  /* ---- The send log ---- */

  ghost predicate TimesInOrder(reqs: seq<Request>) {
    forall i, j :: 0 <= i < j < |reqs| ==> reqs[i].sendTime.Le(reqs[j].sendTime)
  }

  lemma NoRecordTimes(m: Model, l: LPId, started: bool, recs: seq<Record>)
    requires |recs| == 0
    ensures TimesInOrder(RequestsOf(m, l, started, EventsOf(recs)))
  {
  }

  lemma {:induction false} RequestTimesInOrder(m: Model, l: LPId, started: bool, recs: seq<Record>)
    requires SortedRecords(recs)
    ensures TimesInOrder(RequestsOf(m, l, started, EventsOf(recs)))
    ensures |recs| > 0 ==> forall q :: q in RequestsOf(m, l, started, EventsOf(recs)) ==> q.sendTime.Le(recs[|recs| - 1].ev.ts)
    decreases |recs|
  {
    hide RequestsOf, StateAfter, EventsOf, TimesInOrder;
    if |recs| == 0 {
      NoRecordTimes(m, l, started, recs);
    } else {
      var n := |recs| - 1;
      RequestTimesInOrder(m, l, started, recs[..n]);
      assert recs[..n + 1] == recs;
      RequestsOneMore(m, l, started, recs, n);
      var before := RequestsOf(m, l, started, EventsOf(recs[..n]));
      var more := RequestsOfEvent(m, l, StateAfter(m, l, EventsOf(recs[..n])), recs[n].ev);
      BeforeTimes(m, l, started, recs, n);
      TimesConcat(before, more, recs[n].ev.ts);
    }
  }

  lemma BeforeTimes(m: Model, l: LPId, started: bool, recs: seq<Record>, n: nat)
    requires SortedRecords(recs) && |recs| == n + 1
    requires n > 0 ==> forall q :: q in RequestsOf(m, l, started, EventsOf(recs[..n])) ==> q.sendTime.Le(recs[n - 1].ev.ts)
    ensures forall q :: q in RequestsOf(m, l, started, EventsOf(recs[..n])) ==> q.sendTime.Le(recs[n].ev.ts)
  {
    if n == 0 {
      assert EventsOf(recs[..0]) == [];
    } else {
      hide RequestsOf;
      assert recs[n - 1].ev.ts.Le(recs[n].ev.ts);
    }
  }

  lemma TimesConcat(a: seq<Request>, b: seq<Request>, t: TimeStamp)
    requires TimesInOrder(a) && (forall q :: q in a ==> q.sendTime.Le(t)) && (forall i :: 0 <= i < |b| ==> b[i].sendTime == t)
    ensures TimesInOrder(a + b) && forall q :: q in a + b ==> q.sendTime.Le(t)
  {
    forall i | 0 <= i < |a| ensures a[i].sendTime.Le(t) { assert a[i] in a; }
  }

  /** The send log is in order of send time. */
  lemma SendLogInOrder(cfg: Config, m: Model, l: LPId, ctx: LpContext, past: LpPast)
    requires LpOk(cfg, m, l, ctx, past)
    ensures forall i, j :: 0 <= i < j < |AllSends(ctx, past)| ==>
      AllSends(ctx, past)[i].sendTime.Le(AllSends(ctx, past)[j].sendTime)
  {
    hide Replays, RequestsOf;
    var recs := AllRecords(ctx, past);
    RequestTimesInOrder(m, l, past.started, recs);
    var reqs := RequestsOf(m, l, past.started, EventsOf(recs));
    var log := AllSends(ctx, past);
    forall i | 0 <= i < |log| ensures log[i].sendTime == reqs[i].sendTime {
      assert Answers(cfg, past.sent, log[i], reqs[i]);
    }
  }

  function Painted(cfg: Config, r: Rank, antis: seq<Event>): (ps: seq<Event>)
    ensures |ps| == |antis|
    ensures forall i :: 0 <= i < |antis| ==> ps[i] == Paint(cfg, r, antis[i])
  {
    seq(|antis|, i requires 0 <= i < |antis| => Paint(cfg, r, antis[i]))
  }

  lemma {:induction false} AntisTraffic(cfg: Config, me: RankId, r: Rank, l: LPId, antis: seq<Event>)
    requires !r.aborted && Hosts(r, l)
    requires forall i :: 0 <= i < |antis| ==> CompleteAnti(l, antis[i])
    ensures Traffic(SendAll(cfg, me, r, antis)) == Traffic(r) + multiset(Painted(cfg, r, antis))
    decreases |antis|
  {
    hide SendEvent, Post, Traffic;
    if |antis| == 0 {
      assert Painted(cfg, r, antis) == [];
    } else {
      var one := SendEvent(cfg, me, r, antis[0]);
      SendAntiShape(cfg, me, r, antis[0]);
      PostTraffic(cfg, me, r, Paint(cfg, r, antis[0]));
      assert Traffic(one) == Traffic(r) + multiset{Paint(cfg, r, antis[0])} by { LoggedTraffic(cfg, me, r, Paint(cfg, r, antis[0])); }
      AntisTraffic(cfg, me, one, l, antis[1..]);
      SamePaint(cfg, me, r, one, antis);
      assert Painted(cfg, r, antis) == [Paint(cfg, r, antis[0])] + Painted(cfg, r, antis[1..]);
    }
  }

  lemma LoggedTraffic(cfg: Config, me: RankId, r: Rank, e: Event)
    requires Hosts(r, e.src) && e.isAnti
    ensures Hosts(Post(cfg, me, r, e), e.src)
    ensures Traffic(LogSend(Post(cfg, me, r, e), e)) == Traffic(Post(cfg, me, r, e))
  {
    hide Post;
  }

  lemma SamePaint(cfg: Config, me: RankId, r: Rank, one: Rank, antis: seq<Event>)
    requires |antis| > 0 && !r.aborted && Hosts(r, antis[0].src) && CompleteAnti(antis[0].src, antis[0])
    requires one == SendEvent(cfg, me, r, antis[0])
    ensures Painted(cfg, one, antis[1..]) == Painted(cfg, r, antis[1..])
  {
    hide SendEvent;
    SendAntiShape(cfg, me, r, antis[0]);
    PostColor(cfg, me, r, Paint(cfg, r, antis[0]));
  }

  lemma PostColor(cfg: Config, me: RankId, r: Rank, e: Event)
    ensures Post(cfg, me, r, e).phase.color == r.phase.color
  {
    PostFields(cfg, me, r, e);
    hide Post;
  }

  /** A rollback to `to` sends one anti-message for each send made at or after `to` and no other,
      and its log keeps the rest.  Each anti-message carries the stamp, identity and destination
      the send was logged with, and those are the event's own. */
  lemma RollbackCancelsExactly(cfg: Config, m: Model, w: World, me: RankId, l: LPId, to: TimeStamp)
    requires GoodModel(m) && Reachable(cfg, m, w) && me < |w| && l in w[me].lps
    ensures l in w[me].past && l in Rollback(cfg, me, w[me], l, to).lps
    ensures
      var ctx := w[me].lps[l];
      var u := Rollback(cfg, me, w[me], l, to);
      var j := |u.lps[l].sentLog|;
      var k := Cut(ctx.processed, to);
      && j <= |ctx.sentLog| && u.lps[l].sentLog == ctx.sentLog[..j]
      && (forall i :: 0 <= i < |ctx.sentLog| ==> (i < j <==> ctx.sentLog[i].sendTime.Lt(to)))
      && Traffic(u) == Traffic(w[me]) + multiset(EventsOf(ctx.processed[k..]))
                       + multiset(Painted(cfg, w[me], AntisFor(l, ctx.sentLog[j..])))
    ensures forall i :: 0 <= i < |w[me].lps[l].sentLog| ==>
      && 1 <= w[me].lps[l].sentLog[i].uid <= |w[me].past[l].sent|
      && IsAntiOf(AntiFor(l, w[me].lps[l].sentLog[i]), w[me].past[l].sent[w[me].lps[l].sentLog[i].uid - 1])
  {
    hide TombsOk, Placed, LedgerOk, LedgerOf, Reachable, GoodModel, WorldOk, NetOk, Rollback, UndoCancels, LpOk, FloorOk, Traffic, IsAntiOf;
    RankParts(cfg, m, w, me);
    var r := w[me];
    var ctx := r.lps[l];
    RollbackShape(cfg, m, me, r, l, to);
    RewindVtIs(ctx, to);
    SendCutIsExact(cfg, m, l, ctx, r.past[l], to);
    RollbackSends(cfg, m, me, r, l, to);
    AntisMatch(cfg, w, me, l);
  }

  lemma SendCutIsExact(cfg: Config, m: Model, l: LPId, ctx: LpContext, past: LpPast, to: TimeStamp)
    requires LpOk(cfg, m, l, ctx, past)
    ensures forall i :: 0 <= i < |ctx.sentLog| ==> (i < SendCut(ctx.sentLog, to) <==> ctx.sentLog[i].sendTime.Lt(to))
  {
    hide LpOk;
    SendLogInOrder(cfg, m, l, ctx, past);
    var all := AllSends(ctx, past);
    var n := |past.pruned|;
    var j := SendCut(ctx.sentLog, to);
    forall i | 0 <= i < |ctx.sentLog|
      ensures i < j <==> ctx.sentLog[i].sendTime.Lt(to)
    {
      assert all[n + i] == ctx.sentLog[i];
      if i < j { assert all[n + j - 1] == ctx.sentLog[j - 1]; }
    }
  }

  lemma RollbackSends(cfg: Config, m: Model, me: RankId, r: Rank, l: LPId, to: TimeStamp)
    requires LpsOk(cfg, m, r) && l in r.lps && !r.aborted
    ensures
      var ctx := r.lps[l];
      Traffic(Rollback(cfg, me, r, l, to))
        == Traffic(r) + multiset(EventsOf(ctx.processed[Cut(ctx.processed, to)..])) + multiset(Painted(cfg, r, RollbackAntis(l, ctx, to)))
  {
    hide Rewound, UndoCancels, LpOk, SendEvent, SendAll;
    var ctx := r.lps[l];
    var base := Rewound(r, l, to);
    RewoundShape(r, l, to);
    RewindLogs(ctx, ctx.processed[Cut(ctx.processed, to)..], to);
    LoggedSendsAreComplete(cfg, m, l, ctx, r.past[l]);
    AntisTraffic(cfg, me, base, l, RollbackAntis(l, ctx, to));
    assert Painted(cfg, base, RollbackAntis(l, ctx, to)) == Painted(cfg, r, RollbackAntis(l, ctx, to));
  }

  lemma AntisMatch(cfg: Config, w: World, me: RankId, l: LPId)
    requires Placed(cfg, w) && LedgerOk(LedgerOf(cfg, w, multiset{})) && me < |w| && l in w[me].lps
    ensures Hosts(w[me], l)
    ensures forall i :: 0 <= i < |w[me].lps[l].sentLog| ==>
      && 1 <= w[me].lps[l].sentLog[i].uid <= |w[me].past[l].sent|
      && IsAntiOf(AntiFor(l, w[me].lps[l].sentLog[i]), w[me].past[l].sent[w[me].lps[l].sentLog[i].uid - 1])
  {
    hide BagOk, HistOk, OnePlace, NoneOpposed;
    InHistoryLp(cfg, w, me, l);
    var a := AccountIn(w[me].lps[l], w[me].past[l]);
    assert AccountOk(l, LedgerOf(cfg, w, multiset{}).accts[l]);
    var n := |w[me].past[l].pruned|;
    forall i | 0 <= i < |w[me].lps[l].sentLog|
      ensures 1 <= w[me].lps[l].sentLog[i].uid <= |w[me].past[l].sent|
      ensures IsAntiOf(AntiFor(l, w[me].lps[l].sentLog[i]), w[me].past[l].sent[w[me].lps[l].sentLog[i].uid - 1])
    {
      assert a.log[n + i] == w[me].lps[l].sentLog[i];
      assert EntryOk(a, a.log[n + i]);
    }
  }
}
