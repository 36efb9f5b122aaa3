/** Whole runs: the invariant holds in every reachable state, and GVT, the committed history and
    the committed output only ever grow. */
module Runs {
  import opened Stamps
  import opened Events
  import opened Models
  import opened Flush
  import opened Kernel
  import opened Replay
  import opened LpInvariant
  import opened LpSteps
  import opened RankSteps
  import opened Ledgers
  import opened Books
  import opened Tombs
  import opened Floor
  import opened Handling
  import opened Worlds
  import opened Moves
  import opened Network
  import opened Pruning
  import opened Gvt
  import opened Collecting
  import opened Collections

  /* ---- The beginning ---- */

  lemma FreshLpOk(cfg: Config, m: Model, l: LPId)
    ensures LpOk(cfg, m, l, FreshLp(m.init(l)), LpPast(false, [], [], [], map[]))
  {
    assert AllRecords(FreshLp(m.init(l)), LpPast(false, [], [], [], map[])) == [];
    assert EventsOf([]) == [];
  }

  lemma FreshRankOk(cfg: Config, m: Model, me: RankId)
    ensures RankOk(cfg, m, me, FreshRank(cfg, m, me))
    ensures NetOk(cfg, FreshRank(cfg, m, me))
    ensures PlacedAt(cfg, me, FreshRank(cfg, m, me))
  {
    hide LpOk;
    var r := FreshRank(cfg, m, me);
    forall l | l in r.lps ensures LpOk(cfg, m, l, r.lps[l], r.past[l]) { FreshLpOk(cfg, m, l); }
  }

  lemma {:induction false} FreshTraffic(cfg: Config, m: Model, w: World)
    requires forall r :: 0 <= r < |w| ==> w[r] == FreshRank(cfg, m, r)
    ensures AllTraffic(w) == multiset{} && AllDropped(w) == multiset{}
    decreases |w|
  {
    if |w| > 0 { FreshTraffic(cfg, m, w[..|w| - 1]); }
  }

  lemma EmptyAccount(l: LPId)
    ensures AccountOk(l, Account([], [], [], map[]))
  {
  }

  lemma FreshLedger(cfg: Config, m: Model, w: World)
    requires Init(cfg, m, w)
    ensures LedgerOk(LedgerOf(cfg, w, multiset{}))
  {
    hide FreshRank, AccountOk;
    var L := LedgerOf(cfg, w, multiset{});
    FreshTraffic(cfg, m, w);
    forall l | l in L.accts ensures L.accts[l] == Account([], [], [], map[]) && AccountOk(l, L.accts[l]) {
      FreshAccount(cfg, m, w, l);
      EmptyAccount(l);
    }
  }

  lemma FreshAccount(cfg: Config, m: Model, w: World, l: LPId)
    requires Init(cfg, m, w) && l in cfg.lps
    ensures AccountAt(cfg, w, l) == Account([], [], [], map[])
  {
    assert w[cfg.rankOf(l)] == FreshRank(cfg, m, cfg.rankOf(l));
  }

  lemma {:induction false} FreshCounts(cfg: Config, m: Model, w: World, c: Color)
    requires forall r :: 0 <= r < |w| ==> w[r] == FreshRank(cfg, m, r)
    ensures GlobalSum(SlackOf(c), w) == 0
    decreases |w|
  {
    if |w| > 0 { FreshCounts(cfg, m, w[..|w| - 1], c); }
  }

  lemma InitOk(cfg: Config, m: Model, w: World)
    requires Init(cfg, m, w)
    ensures WorldOk(cfg, m, w)
  {
    hide RankOk, NetOk, LedgerOk, LedgerOf, PlacedAt;
    forall r | 0 <= r < |w| ensures RankOk(cfg, m, r, w[r]) && NetOk(cfg, w[r]) && PlacedAt(cfg, r, w[r]) {
      FreshRankOk(cfg, m, r);
    }
    FreshLedger(cfg, m, w);
    forall c: Color ensures GlobalSum(SlackOf(c), w) == 0 { FreshCounts(cfg, m, w, c); }
  }

  /* ---- Steps ---- */

  /** Every step that does not end in an exception keeps every invariant. */
  lemma StepKeeps(cfg: Config, m: Model, w: World, s: Step)
    requires GoodModel(m) && WorldOk(cfg, m, w) && Enabled(cfg, w, s) && NoAbort(Next(cfg, m, w, s))
    ensures WorldOk(cfg, m, Next(cfg, m, w, s))
  {
    hide AllOk, NetsOk, Dispatch, StartLp, Delivered, Heard, CollectAll, Prune, Advance, Ready, MayStart, MayReceive, MayHear, MayDiscard, MayTake,
         MayCollect, DisciplinedModel, CausalModel;
    match s {
      case Start(me, l) =>
        StartGuard(w, me, l);
        assert !Next(cfg, m, w, s)[me].aborted;
        StartOk(cfg, m, w, me, l);
        StartNets(cfg, m, w, me, l);
      case Receive(from, me, ev) =>
        AllOkAgrees(cfg, w);
        ReceiveOk(cfg, m, w, from, me, ev);
        ReceiveNets(cfg, m, w, from, me, ev);
      case HearAck(from, me, key) =>
        HearAckOk(cfg, m, w, from, me, key);
        HearAckNets(cfg, w, from, me, key);
      case Discard(me, ev) =>
        DiscardGuard(w, me, ev);
        DiscardOk(cfg, m, w, me, ev);
        DiscardNets(cfg, w, me, ev);
      case Take(me, ev) =>
        TakeGuard(w, me, ev);
        assert !Next(cfg, m, w, s)[me].aborted;
        TakeStepOk(cfg, m, w, me, ev);
        TakeNets(cfg, m, w, me, ev);
      case Tidy(me) =>
        TidyIsAdvance(w[me]);
        TidyOk(cfg, m, w, me);
        TidyNets(cfg, w, me);
      case Collect =>
        if cfg.mode.AckInflight? { CollectAck(cfg, m, w); } else { CollectColored(cfg, m, w); }
    }
  }

  lemma StartGuard(w: World, me: RankId, l: LPId)
    requires MayStart(w, me, l)
    ensures me < |w| && Hosts(w[me], l)
  {
  }

  lemma AllOkAgrees(cfg: Config, w: World)
    requires NetsOk(cfg, w)
    ensures GvtAgree(w)
  {
  }

  lemma DiscardGuard(w: World, me: RankId, ev: Event)
    requires MayDiscard(w, me, ev)
    ensures me < |w| && ev in w[me].pending && Tombstoned(w[me], ev)
  {
  }

  lemma TakeGuard(w: World, me: RankId, ev: Event)
    requires MayTake(w, me, ev)
    ensures me < |w| && ev in w[me].pending
  {
  }

  lemma {:induction false} RunKeeps(cfg: Config, m: Model, trace: seq<World>, i: nat)
    requires GoodModel(m) && Run(cfg, m, trace) && i < |trace|
    ensures WorldOk(cfg, m, trace[i])
    decreases i
  {
    hide WorldOk, GoodModel, Init, Enabled, Next, NoAbort;
    if i == 0 {
      InitOk(cfg, m, trace[0]);
    } else {
      RunKeeps(cfg, m, trace, i - 1);
      assert StepTo(cfg, m, trace[i - 1], trace[i - 1 + 1]);
      var s :| Enabled(cfg, trace[i - 1], s) && trace[i] == Next(cfg, m, trace[i - 1], s) && NoAbort(trace[i]);
      StepKeeps(cfg, m, trace[i - 1], s);
    }
  }

  lemma ReachableOk(cfg: Config, m: Model, w: World)
    requires GoodModel(m) && Reachable(cfg, m, w)
    ensures WorldOk(cfg, m, w)
  {
    hide WorldOk, GoodModel, StepTo, Init;
    var trace :| Run(cfg, m, trace) && trace[|trace| - 1] == w;
    RunKeeps(cfg, m, trace, |trace| - 1);
  }
}
