/** The collective step: the reduced value is a lower bound on every message around, in either
    protocol, and advancing to it keeps every invariant. */
module Collecting {
  import opened Stamps
  import opened Events
  import opened Models
  import opened Kernel
  import opened Replay
  import opened LpInvariant
  import opened RankSteps
  import opened Ledgers
  import opened Books
  import opened Tombs
  import opened Floor
  import opened Handling
  import opened Worlds
  import opened Moves
  import opened Network
  import opened Pruning
  import opened Gvt
  import opened Collections

  /* ---- Lower bounds ---- */

  lemma PendingBound(cfg: Config, r: Rank)
    ensures forall e :: e in r.pending ==> LocalGvt(cfg, r).Le(e.ts)
    ensures forall l :: l in r.lps ==> LocalGvt(cfg, r).Le(r.lps[l].vt)
    ensures cfg.mode.AckInflight? ==> forall t :: t in r.inflightTs ==> LocalGvt(cfg, r).Le(t)
  {
    forall e | e in r.pending ensures LocalGvt(cfg, r).Le(e.ts) { assert e.ts in LocalStamps(cfg, r); }
    forall l | l in r.lps ensures LocalGvt(cfg, r).Le(r.lps[l].vt) { assert r.lps[l].vt in LocalStamps(cfg, r); }
    if cfg.mode.AckInflight? {
      forall t | t in r.inflightTs ensures LocalGvt(cfg, r).Le(t) { assert t in LocalStamps(cfg, r); }
    }
  }

  lemma InflightStamp(r: Rank, e: Event)
    requires InflightOk(r) && e in r.wire
    ensures e.ts in r.inflightTs
  {
    hide SentKey, ValuesOf;
    ValuesWithout(r.inflight, FlightKeyOf(e));
  }

  lemma LeTrans(a: TimeStamp, b: TimeStamp, c: TimeStamp)
    requires a.Le(b) && b.Le(c)
    ensures a.Le(c)
  {
  }

  /** Acknowledgements: nothing waiting on the rank, and nothing it has on the wire, is below its
      contribution. */
  lemma AckBound(cfg: Config, r: Rank, g: TimeStamp)
    requires cfg.mode.AckInflight? && InflightOk(r) && g.Le(LocalGvt(cfg, r))
    ensures TrafficAbove(r, g)
  {
    hide LocalGvt, InflightOk;
    PendingBound(cfg, r);
    forall e | e in Traffic(r) ensures g.Le(e.ts) {
      if e in r.wire { InflightStamp(r, e); }
      LeTrans(g, LocalGvt(cfg, r), e.ts);
    }
  }

  /** Colours: the same, once no white message is on the wire. */
  lemma ColorBound(cfg: Config, r: Rank, g: TimeStamp)
    requires cfg.mode.ColoredCounters? && ColorsOk(r) && r.phase.red && g.Le(ColoredGvt(cfg, r))
    requires InColor(r.wire, r.phase.white) == 0
    ensures TrafficAbove(r, g)
  {
    hide LocalGvt, InColor;
    PendingBound(cfg, r);
    NoneInColor(r.wire, r.phase.white);
    forall e | e in Traffic(r) ensures g.Le(e.ts) {
      if e in r.wire {
        LeTrans(g, r.phase.minRedSent, e.ts);
      } else {
        LeTrans(g, LocalGvt(cfg, r), e.ts);
      }
    }
  }

  /* ---- White messages in transit ---- */

  ghost function CountColor(c: Color): Rank -> int {
    (r: Rank) => InColor(r.wire, c)
  }

  lemma {:induction false} SumSplit(f: Rank -> int, g: Rank -> int, h: Rank -> int, w: World)
    requires forall r :: 0 <= r < |w| ==> f(w[r]) == g(w[r]) + h(w[r])
    ensures GlobalSum(f, w) == GlobalSum(g, w) + GlobalSum(h, w)
    decreases |w|
  {
    if |w| > 0 { SumSplit(f, g, h, w[..|w| - 1]); }
  }

  lemma {:induction false} NoneOfNats(h: Rank -> int, w: World, r: nat)
    requires r < |w| && forall q :: 0 <= q < |w| ==> h(w[q]) >= 0
    ensures GlobalSum(h, w) >= h(w[r])
    decreases |w|
  {
    var n := |w| - 1;
    SumOfNats(h, w[..n]);
    if r < n { NoneOfNats(h, w[..n], r); }
  }

  lemma {:induction false} SumOfNats(h: Rank -> int, w: World)
    requires forall q :: 0 <= q < |w| ==> h(w[q]) >= 0
    ensures GlobalSum(h, w) >= 0
    decreases |w|
  {
    if |w| > 0 { SumOfNats(h, w[..|w| - 1]); }
  }

  /** In a red phase the summed difference of the counters is exactly the number of white messages
      still on the wires, whatever has been sent and received since the flip. */
  lemma WhiteInTransitIsExact(cfg: Config, w: World, white: Color)
    requires cfg.mode.ColoredCounters? && NetsOk(cfg, w) && |w| > 0
    requires w[0].phase.red && w[0].phase.white == white
    ensures WhiteInTransit(w) == GlobalSum(CountColor(white), w)
  {
    hide GlobalSum, InColor;
    forall r | 0 <= r < |w|
      ensures WhiteDelta(w[r]) == SlackOf(white)(w[r]) + CountColor(white)(w[r])
    {
      assert NetOk(cfg, w[r]);
      assert w[r].phase.white == w[0].phase.white && w[r].phase.red == w[0].phase.red;
    }
    SumSplit(WhiteDelta, SlackOf(white), CountColor(white), w);
  }

  lemma NoWhiteLeft(cfg: Config, w: World, r: nat)
    requires cfg.mode.ColoredCounters? && NetsOk(cfg, w) && r < |w|
    requires w[r].phase.red && WhiteInTransit(w) == 0
    ensures InColor(w[r].wire, w[r].phase.white) == 0
  {
    hide GlobalSum, NetOk, CountsOk;
    var white := w[r].phase.white;
    assert w[0].phase.white == white && w[0].phase.red;
    WhiteInTransitIsExact(cfg, w, white);
    NoneOfNats(CountColor(white), w, r);
  }

  /* ---- Advancing ---- */

  lemma AdvanceKeys(r: Rank, g: TimeStamp)
    ensures forall k :: SentKey(r, k) <==> SentKey(Advance(r, g), k)
  {
    hide Released, Fossils, FossilSends;
  }

  lemma AdvanceFields(r: Rank, g: TimeStamp)
    ensures
      var u := Advance(r, g);
      && u.wire == r.wire && u.acks == r.acks && u.inflight == r.inflight && u.inflightTs == r.inflightTs
      && u.phase == r.phase && u.lastGvt == g && u.pending == r.pending
  {
    hide Released, Fossils, FossilSends, PruneCtx, PrunePast;
  }

  lemma AdvanceInflight(r: Rank, g: TimeStamp)
    requires InflightOk(r)
    ensures InflightOk(Advance(r, g))
  {
    AdvanceKeys(r, g);
    AdvanceFields(r, g);
    hide SentKey, Advance;
  }

  ghost function AdvanceAll(w: World, g: TimeStamp): (u: World)
    ensures |u| == |w|
    ensures forall r :: 0 <= r < |w| ==> u[r] == Advance(w[r], g)
  {
    seq(|w|, r requires 0 <= r < |w| => Advance(w[r], g))
  }

  /** Everything around is at or above `g`. */
  ghost predicate AllAbove(w: World, g: TimeStamp) {
    forall r :: 0 <= r < |w| ==> w[r].lastGvt.Le(g) && TrafficAbove(w[r], g)
  }

  lemma AdvanceAllOk(cfg: Config, m: Model, w: World, g: TimeStamp)
    requires AllOk(cfg, m, w, multiset{}) && AllAbove(w, g) && forall r :: 0 <= r < |w| ==> Ready(w[r])
    ensures AllOk(cfg, m, AdvanceAll(w, g), multiset{})
  {
    hide RankOk, Advance, TrafficAbove, Ready, SameAccounts, LedgerOf, LedgerOk;
    var u := AdvanceAll(w, g);
    forall r | 0 <= r < |w| ensures RankOk(cfg, m, r, u[r]) && SameAccounts(w[r], u[r]) {
      AdvanceOk(cfg, m, r, w[r], g);
      AdvanceAccounts(w[r], g);
    }
    SameLedger(cfg, w, u);
  }

  /** The parts of the network invariant that do not look at phases or GVT. */
  lemma AdvanceAllNets(cfg: Config, w: World, g: TimeStamp)
    requires cfg.mode.AckInflight? && NetsOk(cfg, w)
    ensures NetsOk(cfg, AdvanceAll(w, g))
  {
    hide InflightOk, Advance, SentKey;
    var u := AdvanceAll(w, g);
    forall r | 0 <= r < |w| ensures InflightOk(u[r]) && u[r].lastGvt == g {
      assert NetOk(cfg, w[r]);
      AdvanceInflight(w[r], g);
      AdvanceFields(w[r], g);
    }
    forall q, a | 0 <= q < |u| && a in u[q].acks ensures AckOk(u, a) {
      AdvanceFields(w[q], g);
      assert AckOk(w, a);
      AdvanceFields(w[a.to], g);
      AdvanceKeys(w[a.to], g);
    }
  }

  /* ---- Acknowledgement mode ---- */

  lemma ReducedBounds(cfg: Config, w: World, r: nat)
    requires r < |w|
    ensures Reduced(cfg, w).Le(Bound(cfg, w[r]))
  {
  }

  lemma CollectAckAbove(cfg: Config, m: Model, w: World)
    requires cfg.mode.AckInflight? && WorldOk(cfg, m, w) && MayCollect(cfg, w)
    requires forall r :: 0 <= r < |w| ==> w[r].lastGvt.Le(Reduced(cfg, w))
    ensures AllAbove(w, Reduced(cfg, w))
  {
    hide AllOk, Reduced, LocalGvt, InflightOk, AcksOk, GvtAgree, MayCollect, TrafficAbove;
    forall r | 0 <= r < |w| ensures TrafficAbove(w[r], Reduced(cfg, w)) {
      assert NetOk(cfg, w[r]);
      ReducedBounds(cfg, w, r);
      AckBound(cfg, w[r], Reduced(cfg, w));
    }
  }

  lemma CollectAck(cfg: Config, m: Model, w: World)
    requires cfg.mode.AckInflight? && WorldOk(cfg, m, w) && MayCollect(cfg, w)
    ensures WorldOk(cfg, m, CollectAll(cfg, w))
  {
    hide AllOk, Reduced, EachNetOk, AcksOk, AllAbove, Ready, Settled, ComputesGvt;
    var u := CollectAll(cfg, w);
    var g := Reduced(cfg, w);
    if |w| > 0 && !g.Lt(w[0].lastGvt) {
      assert forall r :: 0 <= r < |w| ==> w[r].lastGvt == w[0].lastGvt;
      CollectAckAbove(cfg, m, w);
      AdvanceAllOk(cfg, m, w, g);
      AdvanceAllNets(cfg, w, g);
      assert u == AdvanceAll(w, g);
    } else {
      assert forall r :: 0 <= r < |w| ==> w[r].lastGvt == w[0].lastGvt;
      assert u == w;
    }
  }

  /* ---- Coloured counters ---- */

  function WithPhase(r: Rank, p: Phase): Rank {
    r.(phase := p)
  }

  ghost function FlipAll(w: World): (u: World)
    ensures |u| == |w|
    ensures forall r :: 0 <= r < |w| ==> u[r] == WithPhase(w[r], Flip(w[r].phase))
  {
    seq(|w|, r requires 0 <= r < |w| => WithPhase(w[r], Flip(w[r].phase)))
  }

  ghost function NextRoundAll(w: World, g: TimeStamp): (u: World)
    ensures |u| == |w|
    ensures forall r :: 0 <= r < |w| ==> u[r] == WithPhase(Advance(w[r], g), NextRound(w[r].phase))
  {
    seq(|w|, r requires 0 <= r < |w| => WithPhase(Advance(w[r], g), NextRound(w[r].phase)))
  }

  lemma PhaseKeepsRank(cfg: Config, m: Model, me: RankId, r: Rank, p: Phase)
    requires RankOk(cfg, m, me, r)
    ensures RankOk(cfg, m, me, WithPhase(r, p)) && SameAccounts(r, WithPhase(r, p))
  {
    hide LpsOk, TombsOk, StartedFirst, PastsBelow, LogsAbove, AccountIn;
    BagsKeepRank(cfg, m, me, r, WithPhase(r, p));
  }

  lemma FlipAllOk(cfg: Config, m: Model, w: World)
    requires AllOk(cfg, m, w, multiset{})
    ensures AllOk(cfg, m, FlipAll(w), multiset{})
  {
    hide RankOk, SameAccounts, LedgerOf, LedgerOk, WithPhase;
    forall r | 0 <= r < |w|
      ensures RankOk(cfg, m, r, FlipAll(w)[r]) && SameAccounts(w[r], FlipAll(w)[r])
    {
      PhaseKeepsRank(cfg, m, r, w[r], Flip(w[r].phase));
    }
    SameLedger(cfg, w, FlipAll(w));
  }

  lemma SameAccountsTwice(r: Rank, u: Rank, v: Rank)
    requires SameAccounts(r, u) && SameAccounts(u, v)
    ensures SameAccounts(r, v)
  {
    hide AccountIn;
  }

  lemma NextRoundAllOk(cfg: Config, m: Model, w: World, g: TimeStamp)
    requires AllOk(cfg, m, w, multiset{}) && AllAbove(w, g) && forall r :: 0 <= r < |w| ==> Ready(w[r])
    ensures AllOk(cfg, m, NextRoundAll(w, g), multiset{})
  {
    hide RankOk, Advance, TrafficAbove, Ready, SameAccounts, LedgerOf, LedgerOk, WithPhase;
    var u := NextRoundAll(w, g);
    forall r | 0 <= r < |w| ensures RankOk(cfg, m, r, u[r]) && SameAccounts(w[r], u[r]) {
      AdvanceOk(cfg, m, r, w[r], g);
      AdvanceAccounts(w[r], g);
      PhaseKeepsRank(cfg, m, r, Advance(w[r], g), NextRound(w[r].phase));
      SameAccountsTwice(w[r], Advance(w[r], g), u[r]);
    }
    SameLedger(cfg, w, u);
  }

  lemma FlipColors(r: Rank)
    requires ColorsOk(r) && !r.phase.red
    ensures ColorsOk(WithPhase(r, Flip(r.phase)))
    ensures forall c: Color :: Slack(WithPhase(r, Flip(r.phase)), c) == Slack(r, c)
  {
    hide InColor;
  }

  /** After a round the red messages are the white ones of the next. */
  lemma NextRoundColors(r: Rank, g: TimeStamp)
    requires ColorsOk(r) && r.phase.red && InColor(r.wire, r.phase.white) == 0
    ensures ColorsOk(WithPhase(Advance(r, g), NextRound(r.phase)))
    ensures forall c: Color :: Slack(WithPhase(Advance(r, g), NextRound(r.phase)), c) == Slack(r, c)
  {
    AdvanceFields(r, g);
    NoneInColor(r.wire, r.phase.white);
    hide InColor, Advance;
  }

  lemma {:induction false} CountsAll(w: World, u: World)
    requires CountsOk(w) && |u| == |w|
    requires forall r, c: Color :: 0 <= r < |w| ==> Slack(u[r], c) == Slack(w[r], c)
    ensures CountsOk(u)
  {
    hide Slack, GlobalSum;
    forall c: Color ensures GlobalSum(SlackOf(c), u) == 0 { SumSame(SlackOf(c), w, u); }
  }

  lemma FlipNets(cfg: Config, w: World)
    requires cfg.mode.ColoredCounters? && NetsOk(cfg, w) && |w| > 0 && !w[0].phase.red
    ensures NetsOk(cfg, FlipAll(w))
  {
    hide ColorsOk, Slack, CountsOk;
    var u := FlipAll(w);
    forall r | 0 <= r < |w| ensures ColorsOk(u[r]) && forall c: Color :: Slack(u[r], c) == Slack(w[r], c) {
      assert NetOk(cfg, w[r]);
      assert w[r].phase.red == w[0].phase.red;
      FlipColors(w[r]);
    }
    CountsAll(w, u);
    assert forall r :: 0 <= r < |w| ==>
      u[r].phase.white == w[r].phase.white && u[r].phase.red && u[r].lastGvt == w[r].lastGvt;
  }

  lemma NextRoundNets(cfg: Config, w: World, g: TimeStamp)
    requires cfg.mode.ColoredCounters? && NetsOk(cfg, w) && |w| > 0 && w[0].phase.red && WhiteInTransit(w) == 0
    ensures NetsOk(cfg, NextRoundAll(w, g))
  {
    hide ColorsOk, Slack, CountsOk, Advance, GlobalSum, InColor;
    var u := NextRoundAll(w, g);
    forall r | 0 <= r < |w|
      ensures ColorsOk(u[r]) && forall c: Color :: Slack(u[r], c) == Slack(w[r], c)
      ensures u[r].lastGvt == g && u[r].phase.white == 1 - w[0].phase.white && !u[r].phase.red
    {
      assert NetOk(cfg, w[r]);
      assert w[r].phase.red == w[0].phase.red && w[r].phase.white == w[0].phase.white;
      NoWhiteLeft(cfg, w, r);
      NextRoundColors(w[r], g);
      AdvanceFields(w[r], g);
    }
    CountsAll(w, u);
  }

  lemma CollectColorAbove(cfg: Config, m: Model, w: World)
    requires cfg.mode.ColoredCounters? && WorldOk(cfg, m, w) && MayCollect(cfg, w)
    requires |w| > 0 && w[0].phase.red && WhiteInTransit(w) == 0
    requires forall r :: 0 <= r < |w| ==> w[r].lastGvt.Le(Reduced(cfg, w))
    ensures AllAbove(w, Reduced(cfg, w))
  {
    hide AllOk, Reduced, LocalGvt, ColorsOk, CountsOk, GvtAgree, MayCollect, TrafficAbove, GlobalSum, ColoredGvt, InColor;
    forall r | 0 <= r < |w| ensures TrafficAbove(w[r], Reduced(cfg, w)) {
      assert NetOk(cfg, w[r]);
      assert w[r].phase.red == w[0].phase.red;
      NoWhiteLeft(cfg, w, r);
      ReducedBounds(cfg, w, r);
      ColorBound(cfg, w[r], Reduced(cfg, w));
    }
  }

  lemma CollectColored(cfg: Config, m: Model, w: World)
    requires cfg.mode.ColoredCounters? && WorldOk(cfg, m, w) && MayCollect(cfg, w)
    ensures WorldOk(cfg, m, CollectAll(cfg, w))
  {
    hide AllOk, Reduced, EachNetOk, CountsOk, AllAbove, Ready, Settled, WhiteInTransit, Prune;
    var u := CollectAll(cfg, w);
    var g := Reduced(cfg, w);
    if |w| > 0 {
      assert forall r :: 0 <= r < |w| ==> w[r].lastGvt == w[0].lastGvt && w[r].phase.red == w[0].phase.red;
      if !w[0].phase.red {
        FlipAllOk(cfg, m, w);
        FlipNets(cfg, w);
        assert u == FlipAll(w);
      } else if WhiteInTransit(w) != 0 || g.Lt(w[0].lastGvt) {
        assert u == w;
      } else {
        CollectColorAbove(cfg, m, w);
        NextRoundAllOk(cfg, m, w, g);
        NextRoundNets(cfg, w, g);
        NextRoundIs(cfg, w);
      }
    } else {
      assert u == w;
    }
  }

  lemma NextRoundIs(cfg: Config, w: World)
    requires cfg.mode.ColoredCounters? && forall r :: 0 <= r < |w| ==> w[r].phase.red && !Reduced(cfg, w).Lt(w[r].lastGvt)
    requires WhiteInTransit(w) == 0
    ensures CollectAll(cfg, w) == NextRoundAll(w, Reduced(cfg, w))
  {
    hide Reduced, WhiteInTransit, Prune;
    var u := CollectAll(cfg, w);
    var g := Reduced(cfg, w);
    forall r | 0 <= r < |w| ensures u[r] == WithPhase(Advance(w[r], g), NextRound(w[r].phase)) {
      AdvancePhase(w[r], g);
    }
  }

  lemma AdvancePhase(r: Rank, g: TimeStamp)
    ensures Advance(r, g).phase == r.phase
  {
    hide Released, Fossils, FossilSends, PruneCtx, PrunePast;
  }

  /* ---- Pruning between collectives ---- */

  /** Pruning to the GVT a rank already has. */
  lemma TidyIsAdvance(r: Rank)
    ensures Prune(r, r.lastGvt) == Advance(r, r.lastGvt)
  {
    assert r.(lastGvt := r.lastGvt) == r;
  }

  lemma SameAccountsSelf(r: Rank)
    ensures SameAccounts(r, r)
  {
  }

  lemma TidyOk(cfg: Config, m: Model, w: World, me: RankId)
    requires AllOk(cfg, m, w, multiset{}) && me < |w| && Ready(w[me])
    ensures AllOk(cfg, m, w[me := Advance(w[me], w[me].lastGvt)], multiset{})
  {
    hide LpsOk, TombsOk, StartedFirst, Advance, Ready, SameAccounts, LedgerOf, LedgerOk, WireOut, LogsAbove, PastsBelow, TrafficAbove;
    assert RankOk(cfg, m, me, w[me]);
    var u := w[me := Advance(w[me], w[me].lastGvt)];
    AdvanceOk(cfg, m, me, w[me], w[me].lastGvt);
    RanksOkWith(cfg, m, w, me, u[me]);
    forall r | 0 <= r < |w| ensures SameAccounts(w[r], u[r]) {
      if r == me { AdvanceAccounts(w[me], w[me].lastGvt); } else { SameAccountsSelf(w[r]); }
    }
    SameLedger(cfg, w, u);
  }

  lemma TidyNets(cfg: Config, w: World, me: RankId)
    requires NetsOk(cfg, w) && me < |w|
    ensures NetsOk(cfg, w[me := Advance(w[me], w[me].lastGvt)])
  {
    hide NetOk, Grows, Advance, AcksOk, CountsOk, GvtAgree, PhasesAgree, SentKey;
    assert NetOk(cfg, w[me]);
    AdvanceFields(w[me], w[me].lastGvt);
    AdvanceKeys(w[me], w[me].lastGvt);
    SameNetKept(cfg, w[me], Advance(w[me], w[me].lastGvt));
    LocalNets(cfg, w, me, Advance(w[me], w[me].lastGvt));
  }
}
