/** An anti-message that has been taken up and is undone.

    Two tests expect opposite outcomes (tests/cancellation_map_rollback_test.cpp,
    tests/anti_tombstone_survives_rollback_test.cpp).  By the code the tombstone goes and the
    anti-message waits again, so its event is not free for good: the anti-message cancels once more
    when it is taken up, and nothing is left of the event in the end. */
module AntiReturns {
  import opened Stamps
  import opened Events
  import opened Models
  import opened Kernel
  import opened LpInvariant
  import opened RankSteps
  import opened Ledgers
  import opened Books
  import opened Tombs
  import opened Floor
  import opened Handling
  import opened Worlds
  import opened Moves
  import opened Network
  import opened Gvt
  import opened Runs
  import opened Closed
  import opened Invisible
  import opened Equivalence
  import opened Lifecycle

  /** One message taken up. */
  ghost function TakenUp(cfg: Config, m: Model, w: World, me: RankId, ev: Event): (u: World)
    requires me < |w|
    ensures |u| == |w|
  {
    w[me := Dispatch(cfg, m, me, TakePending(w[me], ev), ev)]
  }

  ghost predicate MayTakeUp(cfg: Config, m: Model, w: World, me: RankId, ev: Event) {
    me < |w| && MayTake(w, me, ev) && NoAbort(TakenUp(cfg, m, w, me, ev))
  }

  lemma TakenUpOk(cfg: Config, m: Model, w: World, me: RankId, ev: Event)
    requires GoodModel(m) && WorldOk(cfg, m, w) && MayTakeUp(cfg, m, w, me, ev)
    ensures WorldOk(cfg, m, TakenUp(cfg, m, w, me, ev))
  {
    hide GoodModel, WorldOk, Dispatch, MayTake;
    StepKeeps(cfg, m, w, Take(me, ev));
  }

  lemma RankIsOk(cfg: Config, m: Model, w: World, me: RankId)
    requires WorldOk(cfg, m, w) && me < |w|
    ensures LpsOk(cfg, m, w[me]) && AntisHaveTombs(w[me]) && !w[me].aborted
  {
    hide LpOk, NetsOk, FloorOk, StartedFirst, LedgerOk, LedgerOf, Placed, AntisHaveTombs, TombsHaveAntis;
    assert RankOk(cfg, m, me, w[me]);
  }

  lemma AntiIsLast(cfg: Config, m: Model, me: RankId, r: Rank, anti: Event)
    requires anti.isAnti && anti.dst in r.lps && r.lps[anti.dst].vt.Le(anti.ts)
    ensures
      var u := Dispatch(cfg, m, me, r, anti);
      && anti.dst in u.lps && |u.lps[anti.dst].processed| > 0
      && u.lps[anti.dst].processed[|u.lps[anti.dst].processed| - 1].ev == anti && u.lps[anti.dst].vt == anti.ts
  {
    hide Cancel, AntiRecord;
    assert AntiRecord(r, anti).ev == anti by { AntiRecordIs(r, anti); }
  }

  lemma AntiRecordIs(r: Rank, anti: Event)
    requires anti.dst in r.lps
    ensures AntiRecord(r, anti).ev == anti
  {
  }

  /** Whenever an anti-message has been taken up, its event cannot be. */
  lemma TakenAntiCancels(cfg: Config, m: Model, w: World, me: RankId, anti: Event, e: Event)
    requires GoodModel(m) && Reachable(cfg, m, w) && MayTakeUp(cfg, m, w, me, anti) && anti.isAnti
    requires anti.dst in w[me].lps && w[me].lps[anti.dst].vt.Le(anti.ts)
    requires !e.isAnti && KeyOf(e) == KeyOf(anti)
    ensures KeyOf(anti) in TakenUp(cfg, m, w, me, anti)[me].cancelled
    ensures !MayTake(TakenUp(cfg, m, w, me, anti), me, e)
  {
    hide GoodModel, Reachable, WorldOk, Dispatch, LpsOk, MayTakeUp, IsTop, Ready;
    ReachableOk(cfg, m, w);
    TakenUpOk(cfg, m, w, me, anti);
    MayIsInside(cfg, m, w, me, anti);
    var u := TakenUp(cfg, m, w, me, anti);
    AntiIsLast(cfg, m, me, TakePending(w[me], anti), anti);
    RankIsOk(cfg, m, u, me);
    assert AntiAt(u[me], anti.dst, |u[me].lps[anti.dst].processed| - 1, KeyOf(anti));
  }

  lemma MayIsInside(cfg: Config, m: Model, w: World, me: RankId, ev: Event)
    requires MayTakeUp(cfg, m, w, me, ev)
    ensures me < |w|
  {
  }

  /* ---- Undone by a straggler ---- */

  lemma SendKeepsWaiting(cfg: Config, me: RankId, r: Rank, ev: Event)
    ensures r.pending <= SendEvent(cfg, me, r, ev).pending
  {
    hide Stamp, Post, LogSend, WithLp;
    if !r.aborted && Hosts(r, ev.src) && Stamp(cfg, r.lps[ev.src], ev).Stamping? {
      var st := Stamp(cfg, r.lps[ev.src], ev);
      PostKeepsWaiting(cfg, me, r, st.ctx, Paint(cfg, r, st.ev));
    }
  }

  lemma PostKeepsWaiting(cfg: Config, me: RankId, r: Rank, ctx: LpContext, e: Event)
    requires Hosts(r, e.src)
    ensures r.pending <= LogSend(Post(cfg, me, WithLp(r, e.src, ctx), e), e).pending
  {
    hide TrackSend, CountRed;
  }

  lemma {:induction false} SendsKeepWaiting(cfg: Config, me: RankId, r: Rank, evs: seq<Event>)
    ensures r.pending <= SendAll(cfg, me, r, evs).pending
    decreases |evs|
  {
    hide SendEvent;
    if |evs| > 0 {
      SendKeepsWaiting(cfg, me, r, evs[0]);
      SendsKeepWaiting(cfg, me, SendEvent(cfg, me, r, evs[0]), evs[1..]);
    }
  }

  /** What a rollback undoes waits again. */
  lemma UndoneWaits(cfg: Config, me: RankId, r: Rank, l: LPId, to: TimeStamp, i: nat)
    requires l in r.lps && Cut(r.lps[l].processed, to) <= i < |r.lps[l].processed|
    ensures r.lps[l].processed[i].ev in Rollback(cfg, me, r, l, to).pending
  {
    hide Cut, Rewound, SendAll, UndoCancels, Rewind;
    var k := Cut(r.lps[l].processed, to);
    var undone := EventsOf(r.lps[l].processed[k..]);
    RewoundShape(r, l, to);
    assert undone[i - k] == r.lps[l].processed[i].ev;
    var base := Rewound(r, l, to);
    SendsKeepWaiting(cfg, me, base, AntisFor(l, base.lps[l].sentLog[SendCut(base.lps[l].sentLog, to)..]));
  }

  /** A straggler before the anti-message undoes it: its tombstone is gone, and it waits again. */
  lemma UndoneAntiReturns(cfg: Config, m: Model, w: World, me: RankId, anti: Event, s: Event)
    requires GoodModel(m) && Reachable(cfg, m, w) && MayTakeUp(cfg, m, w, me, anti) && anti.isAnti
    requires anti.dst in w[me].lps && w[me].lps[anti.dst].vt.Le(anti.ts)
    requires MayTakeUp(cfg, m, TakenUp(cfg, m, w, me, anti), me, s) && s.dst == anti.dst && s.ts.Lt(anti.ts)
    ensures
      var r := TakenUp(cfg, m, TakenUp(cfg, m, w, me, anti), me, s)[me];
      KeyOf(anti) !in r.cancelled && anti in r.pending
  {
    hide GoodModel, Reachable, WorldOk, Dispatch, LpOk, MayTakeUp, Rollback, Cut, UndoCancels, Execute, DispatchAnti;
    ReachableOk(cfg, m, w);
    TakenUpOk(cfg, m, w, me, anti);
    MayIsInside(cfg, m, w, me, anti);
    var one := TakenUp(cfg, m, w, me, anti);
    AntiIsLast(cfg, m, me, TakePending(w[me], anti), anti);
    RankIsOk(cfg, m, one, me);
    StragglerUndoes(cfg, m, me, TakePending(one[me], s), s, anti);
  }

  lemma StragglerUndoes(cfg: Config, m: Model, me: RankId, r: Rank, s: Event, anti: Event)
    requires LpsOk(cfg, m, r) && AntisHaveTombs(r) && !r.aborted && s.dst in r.lps && anti.isAnti
    requires |r.lps[s.dst].processed| > 0 && r.lps[s.dst].processed[|r.lps[s.dst].processed| - 1].ev == anti
    requires s.ts.Lt(anti.ts) && r.lps[s.dst].vt == anti.ts
    ensures KeyOf(anti) !in Dispatch(cfg, m, me, r, s).cancelled && anti in Dispatch(cfg, m, me, r, s).pending
  {
    hide LpOk, Rollback, UndoCancels, Execute, DispatchAnti;
    var l := s.dst;
    var log := r.lps[l].processed;
    var k := Cut(log, s.ts);
    var u := Rollback(cfg, me, r, l, s.ts);
    RollbackShape(cfg, m, me, r, l, s.ts);
    UndoneWaits(cfg, me, r, l, s.ts, |log| - 1);
    forall i | 0 <= i < |log[k..]| && log[k..][i].ev.isAnti ensures !log[k..][i].cancelHadEntry {
      assert AntiAt(r, l, k + i, KeyOf(log[k..][i].ev));
    }
    UndoCancelsExactly(r.cancelled, log[k..]);
    assert log[k..][|log| - 1 - k].ev == anti;
  }
}
