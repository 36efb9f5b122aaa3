/** The cases of dispatch_: a straggler, an event, an anti-message. */
module Dispatching {
  import opened Stamps
  import opened Events
  import opened Models
  import opened Kernel
  import opened Replay
  import opened LpInvariant
  import opened LpSteps
  import opened RankSteps
  import opened Ledgers
  import opened Books
  import opened BookSteps
  import opened Tombs
  import opened Floor
  import opened Handling
  import opened Collections

  lemma PastBelowLater(past: LpPast, g: TimeStamp, to: TimeStamp)
    requires PastBelow(past, g) && g.Le(to)
    ensures PastBelow(past, to)
  {
  }

  /* ---- Rolling back ---- */

  lemma RollbackTombs(cfg: Config, m: Model, me: RankId, r: Rank, l: LPId, to: TimeStamp)
    requires LpsOk(cfg, m, r) && l in r.lps && !r.aborted
    requires TombsOk(r) && UniqueAntis(r)
    ensures TombsOk(Rollback(cfg, me, r, l, to))
  {
    hide LpOk, TombsOk, UniqueAntis, Rollback, UndoCancels;
    var u := Rollback(cfg, me, r, l, to);
    RollbackShape(cfg, m, me, r, l, to);
    RewindLogs(r.lps[l], r.lps[l].processed[Cut(r.lps[l].processed, to)..], to);
    CutKeepsTombs(r, l, Cut(r.lps[l].processed, to), u);
  }

  lemma RollbackStarted(cfg: Config, m: Model, me: RankId, r: Rank, l: LPId, to: TimeStamp)
    requires LpsOk(cfg, m, r) && l in r.lps && !r.aborted && StartedFirst(r)
    ensures StartedFirst(Rollback(cfg, me, r, l, to))
  {
    hide LpOk, Rollback, UndoCancels;
    RollbackShape(cfg, m, me, r, l, to);
    RewindLogs(r.lps[l], r.lps[l].processed[Cut(r.lps[l].processed, to)..], to);
  }

  lemma RollbackOk(cfg: Config, m: Model, ranks: seq<Rank>, r: nat, l: LPId, to: TimeStamp, hand: multiset<Event>)
    requires GoodModel(m) && AllOk(cfg, m, ranks, hand) && r < |ranks| && l in ranks[r].lps
    requires to != ZERO && ranks[r].lastGvt.Le(to)
    ensures AllOk(cfg, m, ranks[r := Rollback(cfg, r, ranks[r], l, to)], hand)
  {
    hide LpsOk, TombsOk, UniqueAntis, FloorOk, StartedFirst, Rollback, LedgerOk, LedgerOf, PastBelow, DisciplinedModel, CausalModel;
    var R := ranks[r];
    assert RankOk(cfg, m, r, R);
    InHistoryLp(cfg, ranks, r, l);
    RollbackLpsOk(cfg, m, r, R, l, to);
    AntisAreUnique(cfg, ranks, hand, r);
    RollbackTombs(cfg, m, r, R, l, to);
    RollbackFloor(cfg, m, r, R, l, to);
    RollbackStarted(cfg, m, r, R, l, to);
    RollbackBooks(cfg, m, ranks, r, l, to, hand);
    RollbackAborts(cfg, m, r, R, l, to);
    RanksOkWith(cfg, m, ranks, r, Rollback(cfg, r, R, l, to));
  }

  lemma InHistoryLp(cfg: Config, ranks: seq<Rank>, r: nat, l: LPId)
    requires Placed(cfg, ranks) && r < |ranks| && l in ranks[r].lps
    ensures Hosts(ranks[r], l) && cfg.rankOf(l) == r && l in cfg.lps
  {
    assert PlacedAt(cfg, r, ranks[r]);
  }

  lemma RollbackLpsOk(cfg: Config, m: Model, me: RankId, r: Rank, l: LPId, to: TimeStamp)
    requires DisciplinedModel(m) && LpsOk(cfg, m, r) && l in r.lps && !r.aborted && FloorOk(cfg, me, r)
    requires to != ZERO && r.lastGvt.Le(to)
    ensures LpsOk(cfg, m, Rollback(cfg, me, r, l, to))
  {
    hide LpOk, Rollback, PastBelow, TrafficAbove, LogsAbove, WireOut;
    PastBelowLater(r.past[l], r.lastGvt, to);
    RollbackKeeps(cfg, m, me, r, l, to);
  }

  lemma RollbackAborts(cfg: Config, m: Model, me: RankId, r: Rank, l: LPId, to: TimeStamp)
    requires LpsOk(cfg, m, r) && l in r.lps && !r.aborted
    ensures !Rollback(cfg, me, r, l, to).aborted
    ensures Rollback(cfg, me, r, l, to).lastGvt == r.lastGvt
  {
    hide LpOk, Rollback, UndoCancels;
    RollbackShape(cfg, m, me, r, l, to);
  }

  /* ---- Putting a message back ---- */

  lemma EnqueueOk(cfg: Config, m: Model, ranks: seq<Rank>, r: nat, ev: Event)
    requires AllOk(cfg, m, ranks, multiset{ev}) && r < |ranks|
    requires ranks[r].lastGvt.Le(ev.ts)
    ensures AllOk(cfg, m, ranks[r := Enqueue(ranks[r], ev)], multiset{})
  {
    hide LpOk, TombsOk, LedgerOk, LedgerOf, PastsBelow, LogsAbove, Placed;
    var R := ranks[r];
    var u := Enqueue(R, ev);
    assert RankOk(cfg, m, r, R);
    SameLogsKeepTombs(R, u);
    EnqueueFloor(cfg, r, R, ev);
    LedgerSame(cfg, ranks, r, u, multiset{ev}, multiset{});
    RanksOkWith(cfg, m, ranks, r, u);
  }

  lemma EnqueueFloor(cfg: Config, me: RankId, r: Rank, ev: Event)
    requires FloorOk(cfg, me, r) && r.lastGvt.Le(ev.ts)
    ensures FloorOk(cfg, me, Enqueue(r, ev))
  {
    hide RecordsAbove, PastBelow;
  }

  /* ---- Executing an event ---- */

  /** A dispatched event is not opposed: a tombstone would have kept it from being taken up, and
      pruned anti-messages are below the GVT. */
  lemma NotOpposed(cfg: Config, m: Model, ranks: seq<Rank>, r: nat, ev: Event)
    requires AllOk(cfg, m, ranks, multiset{ev}) && r < |ranks| && ev.dst in ranks[r].lps
    requires !Tombstoned(ranks[r], ev) && ranks[r].lastGvt.Le(ev.ts)
    ensures Hosts(ranks[r], ev.dst)
    ensures forall x :: x in AccountIn(ranks[r].lps[ev.dst], ranks[r].past[ev.dst]).hist ==> !IsAntiOf(x, ev)
  {
    hide LedgerOk, LedgerOf, LpsOk, TombsHaveAntis, TrafficAbove, WireOut, LogsAbove;
    var R := ranks[r];
    var l := ev.dst;
    assert RankOk(cfg, m, r, R);
    InHistoryLp(cfg, ranks, r, l);
    var h := AccountIn(R.lps[l], R.past[l]).hist;
    var n := |R.past[l].committed|;
    forall x | x in h ensures !IsAntiOf(x, ev) {
      var i :| 0 <= i < |h| && h[i] == x;
      if i < n {
        assert PastBelow(R.past[l], R.lastGvt);
        assert h[i] == R.past[l].committed[i].ev;
      } else {
        assert h[i] == R.lps[l].processed[i - n].ev;
        assert x.isAnti ==> AntiAt(R, l, i - n, KeyOf(x));
      }
    }
  }

  lemma ExecuteTombs(cfg: Config, m: Model, me: RankId, r: Rank, ev: Event)
    requires CausalModel(m) && Hosts(r, ev.dst) && !ev.isAnti
    requires UidsInStep(r.lps[ev.dst], r.past[ev.dst])
    requires TombsOk(r) && !Execute(cfg, m, me, r, ev).aborted
    ensures TombsOk(Execute(cfg, m, me, r, ev))
  {
    hide TombsOk, Execute, RunFrame;
    var ctx, log, more := ExecuteShape(cfg, m, me, r, ev);
    var u := Execute(cfg, m, me, r, ev);
    var n := |r.lps[ev.dst].processed|;
    PushEventKeepsTombs(r, ev.dst, ctx.processed[n], u);
  }

  lemma ExecuteStarted(cfg: Config, m: Model, me: RankId, r: Rank, ev: Event)
    requires CausalModel(m) && Hosts(r, ev.dst) && !ev.isAnti
    requires UidsInStep(r.lps[ev.dst], r.past[ev.dst])
    requires StartedFirst(r) && r.past[ev.dst].started && !Execute(cfg, m, me, r, ev).aborted
    ensures StartedFirst(Execute(cfg, m, me, r, ev))
    ensures Execute(cfg, m, me, r, ev).lastGvt == r.lastGvt
  {
    hide Execute, RunFrame;
    var ctx, log, more := ExecuteShape(cfg, m, me, r, ev);
  }

  lemma ExecuteOk(cfg: Config, m: Model, ranks: seq<Rank>, r: nat, ev: Event)
    requires GoodModel(m) && AllOk(cfg, m, ranks, multiset{ev}) && r < |ranks| && ev.dst in ranks[r].lps
    requires !ev.isAnti && !Tombstoned(ranks[r], ev)
    requires ranks[r].lps[ev.dst].vt.Le(ev.ts) && ranks[r].lastGvt.Le(ev.ts)
    requires ev.dst in ranks[r].past && ranks[r].past[ev.dst].started
    requires !Execute(cfg, m, r, ranks[r], ev).aborted
    ensures AllOk(cfg, m, ranks[r := Execute(cfg, m, r, ranks[r], ev)], multiset{})
  {
    hide TombsOk, FloorOk, StartedFirst, Execute, LedgerOk, LedgerOf, DisciplinedModel, CausalModel,
         InTime, Replays, SendsLogged;
    var R := ranks[r];
    assert RankOk(cfg, m, r, R);
    InHistoryLp(cfg, ranks, r, ev.dst);
    ExecuteKeeps(cfg, m, r, R, ev);
    ExecuteTombs(cfg, m, r, R, ev);
    ExecuteFloor(cfg, m, r, R, ev);
    ExecuteStarted(cfg, m, r, R, ev);
    NotOpposed(cfg, m, ranks, r, ev);
    ExecuteBooks(cfg, m, ranks, r, ev);
    RanksOkWith(cfg, m, ranks, r, Execute(cfg, m, r, R, ev));
  }
}
