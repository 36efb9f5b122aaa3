/** What a collective does to GVT, said of the ranks' fields alone: the new GVT is the least stamp
    that any rank still has to account for, every rank takes it, and everything below it leaves the
    logs for good. */
module Advancing {
  import opened Stamps
  import opened Events
  import opened Models
  import opened Flush
  import opened Kernel
  import opened Replay
  import opened LpInvariant
  import opened LpSteps
  import opened Ledgers
  import opened Books
  import opened Tombs
  import opened Floor
  import opened Handling
  import opened Worlds
  import opened Moves
  import opened Network
  import opened Gvt
  import opened Collecting
  import opened Pruning
  import opened Runs
  import opened Safety
  import opened Outputs

  /* ---- The least stamp around ---- */

  /** A stamp a rank still has to account for: the virtual time of an LP, a waiting message, and in
      acknowledgement mode a message in flight, in coloured mode the least red stamp. */
  ghost predicate HasStamp(cfg: Config, r: Rank, t: TimeStamp) {
    || (exists l :: l in r.lps && r.lps[l].vt == t)
    || (exists e :: e in r.pending && e.ts == t)
    || (if cfg.mode.AckInflight? then t in r.inflightTs else t == r.phase.minRedSent)
  }

  /** Not above any stamp of any rank, and one of them unless there are none. */
  ghost predicate LeastOfAll(cfg: Config, w: World, g: TimeStamp) {
    && (forall r, t :: 0 <= r < |w| && HasStamp(cfg, w[r], t) ==> g.Le(t))
    && (g == MAX_STAMP || exists r :: 0 <= r < |w| && HasStamp(cfg, w[r], g))
  }

  lemma LocalLeast(cfg: Config, r: Rank)
    ensures forall t :: HasStamp(cfg, r, t) ==> Bound(cfg, r).Le(t)
    ensures Bound(cfg, r) == MAX_STAMP || HasStamp(cfg, r, Bound(cfg, r))
  {
    LocalIsOne(cfg, r);
    hide LocalGvt;
    PendingBound(cfg, r);
  }

  lemma LocalIsOne(cfg: Config, r: Rank)
    ensures
      var g := LocalGvt(cfg, r);
      || g == MAX_STAMP || (exists l :: l in r.lps && r.lps[l].vt == g) || (exists e :: e in r.pending && e.ts == g)
      || (cfg.mode.AckInflight? && g in r.inflightTs)
  {
  }

  /** The reduction yields a least stamp. */
  lemma ReducedIsLeast(cfg: Config, w: World)
    ensures LeastOfAll(cfg, w, Reduced(cfg, w))
  {
    hide Bound, HasStamp;
    var h := Reduced(cfg, w);
    forall r | 0 <= r < |w|
      ensures forall t :: HasStamp(cfg, w[r], t) ==> Bound(cfg, w[r]).Le(t)
      ensures Bound(cfg, w[r]) == MAX_STAMP || HasStamp(cfg, w[r], Bound(cfg, w[r]))
      ensures h.Le(Bound(cfg, w[r]))
    {
      LocalLeast(cfg, w[r]);
      ReducedBounds(cfg, w, r);
    }
    forall r, t | 0 <= r < |w| && HasStamp(cfg, w[r], t) ensures h.Le(t) {
      LeTrans(h, Bound(cfg, w[r]), t);
    }
  }

  /** And there is only one. */
  lemma LeastIsUnique(cfg: Config, w: World, g: TimeStamp, h: TimeStamp)
    requires LeastOfAll(cfg, w, g) && LeastOfAll(cfg, w, h)
    ensures g == h
  {
    hide HasStamp;
    assert g.Le(h) && h.Le(g);
  }

  /* ---- What goes ---- */

  /** An LP has given up exactly its records and sends below `g`, the records as committed ones, and
      is otherwise as it was. */
  ghost predicate LpCommits(ctx: LpContext, past: LpPast, ctx': LpContext, past': LpPast, g: TimeStamp) {
    var k, j := |ctx.processed| - |ctx'.processed|, |ctx.sentLog| - |ctx'.sentLog|;
    && 0 <= k && ctx'.processed == ctx.processed[k..] && past'.committed == past.committed + ctx.processed[..k]
    && (forall i :: 0 <= i < |ctx.processed| ==> (i < k <==> ctx.processed[i].ev.ts.Lt(g)))
    && 0 <= j && ctx'.sentLog == ctx.sentLog[j..] && past'.pruned == past.pruned + ctx.sentLog[..j]
    && (forall i :: 0 <= i < |ctx.sentLog| ==> (i < j <==> ctx.sentLog[i].sendTime.Lt(g)))
    && ctx' == ctx.(processed := ctx'.processed, sentLog := ctx'.sentLog)
    && past' == past.(committed := past'.committed, pruned := past'.pruned)
  }

  /** An output of a record below `g` in one of the rank's logs. */
  ghost predicate GivesOut(r: Rank, g: TimeStamp, x: FlushItem) {
    exists l, i, j :: l in r.lps && 0 <= i < |r.lps[l].processed| && r.lps[l].processed[i].ev.ts.Lt(g)
      && 0 <= j < |r.lps[l].processed[i].committed| && IsOutput(l, r.lps[l].processed[i], j, x)
  }

  /** A rank has given up everything below `g`: records, sends and tombstones; the records' outputs,
      and nothing else, have gone out behind what had gone out before; messages are untouched. */
  ghost predicate Commits(r: Rank, u: Rank, g: TimeStamp) {
    && u.lps.Keys == r.lps.Keys && u.past.Keys == r.past.Keys
    && (forall l :: l in r.lps && l in r.past ==> LpCommits(r.lps[l], r.past[l], u.lps[l], u.past[l], g))
    && (forall k :: k in u.cancelled <==> k in r.cancelled && g.Le(r.cancelled[k]))
    && (forall k :: k in u.cancelled ==> u.cancelled[k] == r.cancelled[k])
    && r.output <= u.output && (forall x :: x in u.output[|r.output|..] <==> GivesOut(r, g, x))
    && u.pending == r.pending && u.inflight == r.inflight && u.inflightTs == r.inflightTs
    && u.wire == r.wire && u.acks == r.acks && u.dropped == r.dropped
    && u.rollbacks == r.rollbacks && u.aborted == r.aborted
  }

  /** A log without its records below `g`, where the log is in order. */
  ghost predicate InOrderBelow(ctx: LpContext) {
    && (forall i, j :: 0 <= i < j < |ctx.processed| ==> ctx.processed[i].ev.ts.Le(ctx.processed[j].ev.ts))
    && (forall i, j :: 0 <= i < j < |ctx.sentLog| ==> ctx.sentLog[i].sendTime.Le(ctx.sentLog[j].sendTime))
  }

  lemma FossilSendsDivide(log: seq<SentRecord>, g: TimeStamp)
    requires forall i, j :: 0 <= i < j < |log| ==> log[i].sendTime.Le(log[j].sendTime)
    ensures forall i :: 0 <= i < |log| ==> (i < FossilSends(log, g) <==> log[i].sendTime.Lt(g))
  {
    var f := FossilSends(log, g);
    forall i | f < i < |log| ensures !log[i].sendTime.Lt(g) { assert log[f].sendTime.Le(log[i].sendTime); }
  }

  lemma PrunedLpCommits(ctx: LpContext, past: LpPast, g: TimeStamp)
    requires InOrderBelow(ctx)
    ensures LpCommits(ctx, past, PruneCtx(ctx, g), PrunePast(ctx, past, g), g)
  {
    hide Fossils, FossilSends;
    FossilsDivide(ctx.processed, g);
    FossilSendsDivide(ctx.sentLog, g);
  }

  lemma ReleasedGoesOut(r: Rank, g: TimeStamp, x: FlushItem)
    requires forall l :: l in r.lps ==> InOrderBelow(r.lps[l])
    ensures x in Released(r, g) <==> GivesOut(r, g, x)
  {
    hide Fossils;
    forall l | l in r.lps
      ensures Divides(r.lps[l].processed, Fossils(r.lps[l].processed, g), g)
    {
      FossilsDivide(r.lps[l].processed, g);
    }
    if x in Released(r, g) {
      var l, i, j :| l in r.lps && 0 <= i < Fossils(r.lps[l].processed, g) && 0 <= j < |r.lps[l].processed[i].committed|
        && x == OutputItem(l, r.lps[l].processed[i], j);
      assert IsOutput(l, r.lps[l].processed[i], j, x);
    }
    if GivesOut(r, g, x) {
      var l, i, j :| l in r.lps && 0 <= i < |r.lps[l].processed| && r.lps[l].processed[i].ev.ts.Lt(g)
        && 0 <= j < |r.lps[l].processed[i].committed| && IsOutput(l, r.lps[l].processed[i], j, x);
      assert OutputItem(l, r.lps[l].processed[i], j) in Released(r, g);
    }
  }

  /** What pruning does to each field of a rank. */
  lemma PruneFields(r: Rank, g: TimeStamp)
    requires r.past.Keys == r.lps.Keys
    ensures
      var u := Prune(r, g);
      && u.lps.Keys == r.lps.Keys && u.past.Keys == r.past.Keys
      && (forall l :: l in r.lps ==> u.lps[l] == PruneCtx(r.lps[l], g) && u.past[l] == PrunePast(r.lps[l], r.past[l], g))
      && (forall k :: k in u.cancelled <==> k in r.cancelled && g.Le(r.cancelled[k]))
      && (forall k :: k in u.cancelled ==> u.cancelled[k] == r.cancelled[k])
      && u.output == r.output + InOrder(Released(r, g))
      && u.pending == r.pending && u.inflight == r.inflight && u.inflightTs == r.inflightTs
      && u.wire == r.wire && u.acks == r.acks && u.dropped == r.dropped
      && u.rollbacks == r.rollbacks && u.aborted == r.aborted
  {
    hide Released, PruneCtx, PrunePast;
  }

  lemma PruneIsCommit(r: Rank, g: TimeStamp)
    requires r.past.Keys == r.lps.Keys && forall l :: l in r.lps ==> InOrderBelow(r.lps[l])
    ensures Commits(r, Prune(r, g), g)
  {
    hide Prune, Released, InOrderBelow, PruneCtx, PrunePast, GivesOut, LpCommits;
    var u := Prune(r, g);
    PruneFields(r, g);
    forall l | l in r.lps ensures LpCommits(r.lps[l], r.past[l], u.lps[l], u.past[l], g) {
      PrunedLpCommits(r.lps[l], r.past[l], g);
    }
    OutputGrows(r, u, g);
  }

  lemma OutputGrows(r: Rank, u: Rank, g: TimeStamp)
    requires forall l :: l in r.lps ==> InOrderBelow(r.lps[l])
    requires u.output == r.output + InOrder(Released(r, g))
    ensures r.output <= u.output && forall x :: x in u.output[|r.output|..] <==> GivesOut(r, g, x)
  {
    hide Released, InOrderBelow, GivesOut;
    var out := InOrder(Released(r, g));
    assert u.output[|r.output|..] == out;
    forall x ensures x in out <==> GivesOut(r, g, x) { ReleasedGoesOut(r, g, x); }
  }

  lemma AdvanceIsCommit(r: Rank, g: TimeStamp)
    requires r.past.Keys == r.lps.Keys && forall l :: l in r.lps ==> InOrderBelow(r.lps[l])
    ensures Commits(r, Advance(r, g), g)
  {
    hide InOrderBelow, Prune, LpCommits, GivesOut;
    var s := r.(lastGvt := g);
    PruneIsCommit(s, g);
    forall x ensures GivesOut(s, g, x) <==> GivesOut(r, g, x) { SameLogsGiveOut(s, r, g, x); }
  }

  lemma SameLogsGiveOut(r: Rank, u: Rank, g: TimeStamp, x: FlushItem)
    requires r.lps == u.lps
    ensures GivesOut(r, g, x) <==> GivesOut(u, g, x)
  {
  }

  lemma LogsInOrder(cfg: Config, m: Model, w: World, me: RankId)
    requires GoodModel(m) && Reachable(cfg, m, w) && me < |w|
    ensures w[me].past.Keys == w[me].lps.Keys && forall l :: l in w[me].lps ==> InOrderBelow(w[me].lps[l])
  {
    hide TombsOk, Placed, LedgerOk, LedgerOf, Reachable, GoodModel, WorldOk, NetOk, LpOk;
    RankParts(cfg, m, w, me);
    forall l | l in w[me].lps ensures InOrderBelow(w[me].lps[l]) { LpInOrder(cfg, m, l, w[me].lps[l], w[me].past[l]); }
  }

  lemma LpInOrder(cfg: Config, m: Model, l: LPId, ctx: LpContext, past: LpPast)
    requires LpOk(cfg, m, l, ctx, past)
    ensures InOrderBelow(ctx)
  {
    hide LpOk;
    ProcessedSorted(cfg, m, l, ctx, past);
    SendLogInOrder(cfg, m, l, ctx, past);
    var all, n := AllSends(ctx, past), |past.pruned|;
    forall i, j | 0 <= i < j < |ctx.sentLog| ensures ctx.sentLog[i].sendTime.Le(ctx.sentLog[j].sendTime) {
      assert all[n + i] == ctx.sentLog[i] && all[n + j] == ctx.sentLog[j];
    }
  }

  /* ---- Acknowledgements ---- */

  /** A collective in acknowledgement mode finds the least stamp that any rank has to account for.
      Unless that is behind the last GVT, every rank takes it and gives up everything below it;
      otherwise nothing changes. */
  lemma AckCollectiveAdvances(cfg: Config, m: Model, w: World, g: TimeStamp)
    requires GoodModel(m) && Reachable(cfg, m, w) && cfg.mode.AckInflight? && MayCollect(cfg, w)
    requires LeastOfAll(cfg, w, g)
    ensures
      var u := Next(cfg, m, w, Collect);
      |u| == |w| && forall r :: 0 <= r < |w| ==>
        if w[r].lastGvt.Le(g) then u[r].lastGvt == g && Commits(w[r], u[r], g) && u[r].phase == w[r].phase
        else u[r] == w[r]
  {
    hide Reachable, GoodModel, MayCollect, LeastOfAll, Reduced, Prune, Commits, InOrderBelow, Bound;
    ReducedIsLeast(cfg, w);
    LeastIsUnique(cfg, w, g, Reduced(cfg, w));
    var u := Next(cfg, m, w, Collect);
    forall r | 0 <= r < |w|
      ensures if w[r].lastGvt.Le(g) then u[r].lastGvt == g && Commits(w[r], u[r], g) && u[r].phase == w[r].phase
              else u[r] == w[r]
    {
      LogsInOrder(cfg, m, w, r);
      AdvanceIsCommit(w[r], g);
      AdvanceFields(w[r], g);
      assert u[r] == CollectOne(cfg, w[r], WhiteInTransit(w), g);
    }
  }

  /* ---- Colours ---- */

  /** A message of the white colour of the round is on some wire. */
  ghost predicate WhiteOnWire(w: World) {
    exists r, e :: 0 <= r < |w| && e in w[r].wire && e.gvtColor == w[r].phase.white
  }

  lemma {:induction false} NoneCounts(bag: multiset<Event>, c: Color)
    requires forall e :: e in bag ==> e.gvtColor != c
    ensures InColor(bag, c) == 0
    decreases |bag|
  {
    if bag != multiset{} {
      var e :| e in bag;
      InColorWithout(bag, e, c);
      NoneCounts(bag - multiset{e}, c);
    }
  }

  lemma {:induction false} NoneSums(c: Color, w: World)
    requires forall r :: 0 <= r < |w| ==> InColor(w[r].wire, c) == 0
    ensures GlobalSum(CountColor(c), w) == 0
    decreases |w|
  {
    hide InColor;
    if |w| > 0 { NoneSums(c, w[..|w| - 1]); }
  }

  /** In a red phase the summed difference is zero exactly when no white message is on a wire. */
  lemma WhiteIsGone(cfg: Config, w: World)
    requires cfg.mode.ColoredCounters? && NetsOk(cfg, w) && |w| > 0 && w[0].phase.red
    ensures WhiteInTransit(w) == 0 <==> !WhiteOnWire(w)
  {
    hide EachNetOk, GvtAgree, CountsOk, GlobalSum, InColor;
    var white := w[0].phase.white;
    forall r | 0 <= r < |w| ensures w[r].phase.white == white && w[r].phase.red {
      assert w[r].phase.white == w[0].phase.white && w[r].phase.red == w[0].phase.red;
    }
    WhiteInTransitIsExact(cfg, w, white);
    if WhiteInTransit(w) == 0 {
      forall r | 0 <= r < |w| ensures forall e :: e in w[r].wire ==> e.gvtColor != white {
        NoneOfNats(CountColor(white), w, r);
        NoneInColor(w[r].wire, white);
      }
    }
    if !WhiteOnWire(w) {
      forall r | 0 <= r < |w| ensures InColor(w[r].wire, white) == 0 { NoneCounts(w[r].wire, white); }
      NoneSums(white, w);
    }
  }

  /** The phase after the flip to red: what was sent white is noted, and no red message yet. */
  ghost predicate Flipped(p: Phase, q: Phase) {
    && q.red && q.white == p.white && q.color == 1 - p.white
    && q.whiteSentAtFlip == (if p.white == 0 then p.sent0 else p.sent1) && q.minRedSent == MAX_STAMP
    && q.sent0 == p.sent0 && q.sent1 == p.sent1 && q.recv0 == p.recv0 && q.recv1 == p.recv1
  }

  /** The phase at the start of the next round: the colours have changed their parts. */
  ghost predicate NewRound(p: Phase, q: Phase) {
    && !q.red && q.white == 1 - p.white && q.color == q.white
    && q.whiteSentAtFlip == 0 && q.minRedSent == MAX_STAMP
    && q.sent0 == p.sent0 && q.sent1 == p.sent1 && q.recv0 == p.recv0 && q.recv1 == p.recv1
  }

  /** A collective in coloured mode.  In a white phase all ranks turn red and nothing else changes.
      In a red phase, while a white message is on a wire, nothing changes.  Once none is, and unless
      the least stamp, red ones sent included, is behind the last GVT, every rank takes it, gives up
      everything below it and starts the next round. */
  lemma ColoredCollectiveAdvances(cfg: Config, m: Model, w: World, g: TimeStamp)
    requires GoodModel(m) && Reachable(cfg, m, w) && cfg.mode.ColoredCounters? && MayCollect(cfg, w)
    requires LeastOfAll(cfg, w, g)
    ensures
      var u := Next(cfg, m, w, Collect);
      |u| == |w| && forall r :: 0 <= r < |w| ==>
        if !w[r].phase.red then u[r] == w[r].(phase := u[r].phase) && Flipped(w[r].phase, u[r].phase)
        else if WhiteOnWire(w) || g.Lt(w[r].lastGvt) then u[r] == w[r]
        else u[r].lastGvt == g && Commits(w[r], u[r], g) && NewRound(w[r].phase, u[r].phase)
  {
    hide Reachable, GoodModel, MayCollect, LeastOfAll, Reduced, Prune, Commits, InOrderBelow, Bound, WhiteOnWire, WhiteInTransit, AllOk, NetsOk;
    ReducedIsLeast(cfg, w);
    LeastIsUnique(cfg, w, g, Reduced(cfg, w));
    ReachableOk(cfg, m, w);
    var u := Next(cfg, m, w, Collect);
    forall r | 0 <= r < |w|
      ensures if !w[r].phase.red then u[r] == w[r].(phase := u[r].phase) && Flipped(w[r].phase, u[r].phase)
              else if WhiteOnWire(w) || g.Lt(w[r].lastGvt) then u[r] == w[r]
              else u[r].lastGvt == g && Commits(w[r], u[r], g) && NewRound(w[r].phase, u[r].phase)
    {
      assert u[r] == CollectOne(cfg, w[r], WhiteInTransit(w), g);
      if w[r].phase.red {
        SamePhase(cfg, w, r);
        WhiteIsGone(cfg, w);
        LogsInOrder(cfg, m, w, r);
        AdvanceIsCommit(w[r], g);
        AdvanceFields(w[r], g);
        PhaseCommits(w[r], Advance(w[r], g), NextRound(w[r].phase), g);
      }
    }
  }

  lemma SamePhase(cfg: Config, w: World, r: nat)
    requires cfg.mode.ColoredCounters? && NetsOk(cfg, w) && r < |w|
    ensures w[r].phase.red == w[0].phase.red && w[r].phase.white == w[0].phase.white
  {
    hide EachNetOk, GvtAgree, CountsOk;
  }

  lemma PhaseCommits(r: Rank, u: Rank, p: Phase, g: TimeStamp)
    requires Commits(r, u, g)
    ensures Commits(r, u.(phase := p), g)
  {
    hide LpCommits, GivesOut;
  }
}
