/** Advancing GVT and pruning: history moves from the logs to the past, and nothing else the
    invariants speak of changes. */
module Pruning {
  import opened Stamps
  import opened Events
  import opened Models
  import opened Kernel
  import opened Replay
  import opened LpInvariant
  import opened RankSteps
  import opened Ledgers
  import opened Books
  import opened Tombs
  import opened Floor
  import opened Handling
  import opened Worlds
  import opened Collections

  /** A rank that takes `g` as its GVT. */
  ghost function Advance(r: Rank, g: TimeStamp): Rank {
    Prune(r.(lastGvt := g), g)
  }

  lemma SplitLog<T>(front: seq<T>, s: seq<T>, k: nat)
    requires k <= |s|
    ensures front + s == front + s[..k] + s[k..]
  {
  }

  lemma PruneLp(ctx: LpContext, past: LpPast, g: TimeStamp)
    ensures AllRecords(PruneCtx(ctx, g), PrunePast(ctx, past, g)) == AllRecords(ctx, past)
    ensures AllSends(PruneCtx(ctx, g), PrunePast(ctx, past, g)) == AllSends(ctx, past)
    ensures AccountIn(PruneCtx(ctx, g), PrunePast(ctx, past, g)) == AccountIn(ctx, past)
  {
    hide Fossils, FossilSends;
    SplitLog(past.committed, ctx.processed, Fossils(ctx.processed, g));
    SplitLog(past.pruned, ctx.sentLog, FossilSends(ctx.sentLog, g));
  }

  lemma PruneLpOk(cfg: Config, m: Model, l: LPId, ctx: LpContext, past: LpPast, g: TimeStamp)
    requires LpOk(cfg, m, l, ctx, past)
    ensures LpOk(cfg, m, l, PruneCtx(ctx, g), PrunePast(ctx, past, g))
  {
    hide InTime, Replays, SendsLogged, AllRecords, AllSends, Fossils, FossilSends;
    PruneLp(ctx, past, g);
  }

  lemma PruneLpFloor(ctx: LpContext, past: LpPast, old_g: TimeStamp, g: TimeStamp)
    requires SortedRecords(ctx.processed) && PastBelow(past, old_g) && old_g.Le(g)
    ensures RecordsAbove(PruneCtx(ctx, g).processed, g)
    ensures PastBelow(PrunePast(ctx, past, g), g)
  {
    hide Fossils, FossilSends;
    FossilsDivide(ctx.processed, g);
  }

  lemma ProcessedSorted(cfg: Config, m: Model, l: LPId, ctx: LpContext, past: LpPast)
    requires LpOk(cfg, m, l, ctx, past)
    ensures SortedRecords(ctx.processed)
  {
    hide Replays, SendsLogged;
    var all := AllRecords(ctx, past);
    var n := |past.committed|;
    forall i, j | 0 <= i < j < |ctx.processed| ensures ctx.processed[i].ev.ts.Le(ctx.processed[j].ev.ts) {
      assert all[n + i] == ctx.processed[i] && all[n + j] == ctx.processed[j];
    }
  }

  lemma AdvanceLpsOk(cfg: Config, m: Model, r: Rank, g: TimeStamp)
    requires LpsOk(cfg, m, r)
    ensures LpsOk(cfg, m, Advance(r, g))
    ensures forall l :: l in r.lps ==> SortedRecords(r.lps[l].processed)
  {
    hide LpOk, PruneCtx, PrunePast, Released;
    var u := Advance(r, g);
    forall l | l in r.lps
      ensures LpOk(cfg, m, l, u.lps[l], u.past[l]) && SortedRecords(r.lps[l].processed)
    {
      PruneLpOk(cfg, m, l, r.lps[l], r.past[l], g);
      ProcessedSorted(cfg, m, l, r.lps[l], r.past[l]);
    }
  }

  lemma AdvanceTombs(r: Rank, g: TimeStamp)
    requires TombsOk(r)
    requires forall l :: l in r.lps ==> SortedRecords(r.lps[l].processed)
    ensures TombsOk(Advance(r, g))
  {
    hide TombsOk, Released, Fossils, FossilSends, SortedRecords;
    PruneKeepsTombs(r, g, Advance(r, g));
  }

  lemma AdvanceFloor(cfg: Config, me: RankId, r: Rank, g: TimeStamp)
    requires FloorOk(cfg, me, r) && r.lastGvt.Le(g) && TrafficAbove(r, g) && r.past.Keys == r.lps.Keys
    requires forall l :: l in r.lps ==> SortedRecords(r.lps[l].processed)
    ensures FloorOk(cfg, me, Advance(r, g))
  {
    hide Released, Fossils, FossilSends, SortedRecords, RecordsAbove, PastBelow, PruneCtx, PrunePast;
    var u := Advance(r, g);
    forall l | l in r.lps
      ensures RecordsAbove(u.lps[l].processed, g) && PastBelow(u.past[l], g)
    {
      PruneLpFloor(r.lps[l], r.past[l], r.lastGvt, g);
    }
  }

  lemma AdvanceOk(cfg: Config, m: Model, me: RankId, r: Rank, g: TimeStamp)
    requires RankOk(cfg, m, me, r) && r.lastGvt.Le(g) && TrafficAbove(r, g) && Ready(r)
    ensures RankOk(cfg, m, me, Advance(r, g)) && Ready(Advance(r, g))
  {
    hide LpOk, TombsOk, FloorOk, SortedRecords, Released, Fossils, FossilSends;
    AdvanceLpsOk(cfg, m, r, g);
    AdvanceTombs(r, g);
    AdvanceFloor(cfg, me, r, g);
    AdvanceReady(r, g);
  }

  lemma AdvanceReady(r: Rank, g: TimeStamp)
    requires Ready(r) && r.past.Keys == r.lps.Keys
    ensures Ready(Advance(r, g)) && StartedFirst(Advance(r, g)) && Advance(r, g).aborted == r.aborted
  {
    hide Released, Fossils, FossilSends;
  }

  /* ---- The ledger ---- */

  /** Pruning does not show in the ledger. */
  ghost predicate SameAccounts(r: Rank, u: Rank) {
    && u.lps.Keys == r.lps.Keys && u.past.Keys == r.past.Keys
    && u.pending == r.pending && u.wire == r.wire && u.dropped == r.dropped
    && forall l :: l in r.lps && l in r.past ==> AccountIn(u.lps[l], u.past[l]) == AccountIn(r.lps[l], r.past[l])
  }

  lemma AdvanceAccounts(r: Rank, g: TimeStamp)
    ensures SameAccounts(r, Advance(r, g))
  {
    hide Released, AccountIn, PruneCtx, PrunePast;
    var u := Advance(r, g);
    forall l | l in r.lps && l in r.past ensures AccountIn(u.lps[l], u.past[l]) == AccountIn(r.lps[l], r.past[l]) {
      PruneLp(r.lps[l], r.past[l], g);
    }
  }

  lemma {:induction false} SameTrafficAll(w: World, u: World)
    requires |u| == |w| && forall r :: 0 <= r < |w| ==> SameAccounts(w[r], u[r])
    ensures AllTraffic(u) == AllTraffic(w) && AllDropped(u) == AllDropped(w)
    decreases |w|
  {
    hide AccountIn;
    if |w| > 0 {
      var n := |w| - 1;
      assert SameAccounts(w[n], u[n]);
      SameTrafficAll(w[..n], u[..n]);
    }
  }

  lemma SamePlaced(cfg: Config, me: RankId, r: Rank, u: Rank)
    requires PlacedAt(cfg, me, r) && SameAccounts(r, u)
    ensures PlacedAt(cfg, me, u)
  {
    hide AccountIn;
  }

  lemma SameAccountAt(cfg: Config, w: World, u: World, l: LPId)
    requires |u| == |w| && cfg.rankOf(l) < |w| && SameAccounts(w[cfg.rankOf(l)], u[cfg.rankOf(l)])
    ensures AccountAt(cfg, u, l) == AccountAt(cfg, w, l)
  {
    hide AccountIn;
  }

  ghost predicate SameAccountsAll(w: World, u: World) {
    |u| == |w| && forall r :: 0 <= r < |w| ==> SameAccounts(w[r], u[r])
  }

  lemma SameLedger(cfg: Config, w: World, u: World)
    requires Placed(cfg, w) && SameAccountsAll(w, u)
    ensures Placed(cfg, u)
    ensures LedgerOf(cfg, u, multiset{}) == LedgerOf(cfg, w, multiset{})
  {
    hide AccountIn, Traffic, SameAccounts, PlacedAt, AccountAt;
    SameTrafficAll(w, u);
    forall r | 0 <= r < |u| ensures PlacedAt(cfg, r, u[r]) {
      SamePlaced(cfg, r, w[r], u[r]);
    }
    forall l | l in cfg.lps ensures AccountAt(cfg, u, l) == AccountAt(cfg, w, l) {
      SameAccountAt(cfg, w, u, l);
    }
  }
}
