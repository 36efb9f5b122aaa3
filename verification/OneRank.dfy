/** On one rank the kernel is a sequential simulator: events are dispatched in non-decreasing
    order of their stamps, nothing is rolled back and nothing is cancelled. */
module OneRank {
  import opened Stamps
  import opened Events
  import opened Models
  import opened Kernel
  import opened Replay
  import opened LpInvariant
  import opened RankSteps
  import opened Ledgers
  import opened Books
  import opened Tombs
  import opened Floor
  import opened Handling
  import opened Dispatching
  import opened Worlds
  import opened Moves
  import opened Network
  import opened Pruning
  import opened Gvt
  import opened Collecting
  import opened Runs

  /** All LPs live on rank 0. */
  ghost predicate OneRankOnly(cfg: Config) {
    forall l: LPId :: cfg.rankOf(l) == 0
  }

  ghost predicate VtsBelow(r: Rank, g: TimeStamp) {
    forall l :: l in r.lps ==> r.lps[l].vt.Le(g)
  }

  ghost predicate NothingCancelled(r: Rank) {
    r.rollbacks == 0 && forall l :: l in r.past ==> r.past[l].antis == map[]
  }

  ghost predicate SerialOk(r: Rank) {
    && NothingCancelled(r)
    && (forall e :: e in r.pending ==> VtsBelow(r, e.ts))
    && (!Ready(r) ==> VtsBelow(r, ZERO))
  }

  lemma NoAntisKnown(cfg: Config, w: World, e: Event)
    requires |w| == 1 && NothingCancelled(w[0]) && OneRankOnly(cfg)
    requires Known(LedgerOf(cfg, w, multiset{}), e)
    ensures !e.isAnti
  {
    hide AccountIn;
    assert LedgerOf(cfg, w, multiset{}).accts[e.src].antis == map[] by { NoAntisAt(cfg, w, e.src); }
  }

  lemma NoAntisAt(cfg: Config, w: World, l: LPId)
    requires |w| == 1 && NothingCancelled(w[0])
    ensures AccountAt(cfg, w, l).antis == map[]
  {
  }

  /** With no anti-message ever sent there is no tombstone, and nothing waiting is one. */
  lemma NoTombs(cfg: Config, m: Model, w: World)
    requires |w| == 1 && WorldOk(cfg, m, w) && NothingCancelled(w[0]) && OneRankOnly(cfg)
    ensures w[0].cancelled == map[]
    ensures forall e :: e in w[0].pending ==> !e.isAnti
    ensures w[0].wire == multiset{}
  {
    hide AllOk, NetsOk, LedgerOk, LedgerOf, LpsOk, AntisHaveTombs, TrafficAbove, LogsAbove, PastsBelow, StartedFirst, Known,
         NothingCancelled, OneRankOnly, Placed;
    AllOkParts(cfg, m, w, 0);
    var r := w[0];
    forall k | k in r.cancelled ensures false {
      var l, i :| AntiAt(r, l, i, k) && r.lps[l].processed[i].ev.ts == r.cancelled[k];
      LoggedIsKnown(cfg, w, multiset{}, 0, l, i);
      NoAntisKnown(cfg, w, r.lps[l].processed[i].ev);
      assert false;
    }
    forall e | e in r.pending ensures !e.isAnti {
      WaitingIsInBag(cfg, w, 0, e);
      BagIsKnown(LedgerOf(cfg, w, multiset{}), e);
      NoAntisKnown(cfg, w, e);
    }
    NoWire(cfg, r);
  }

  lemma NoWire(cfg: Config, r: Rank)
    requires WireOut(cfg, 0, r) && OneRankOnly(cfg)
    ensures r.wire == multiset{}
  {
  }

  /* ---- Steps ---- */

  lemma TopIsLeast(pending: multiset<Event>, ev: Event)
    requires IsTop(pending, ev)
    ensures forall e :: e in pending ==> ev.ts.Le(e.ts)
  {
  }

  lemma ExecuteSerial(cfg: Config, m: Model, r: Rank, ev: Event, t: Rank, u: Rank)
    requires CausalModel(m) && OneRankOnly(cfg) && LpsOk(cfg, m, r) && SerialOk(r) && r.wire == multiset{}
    requires IsTop(r.pending, ev) && Ready(r) && ev.dst in r.lps && !ev.isAnti
    requires t == TakePending(r, ev) && u == Execute(cfg, m, 0, t, ev) && !u.aborted
    ensures SerialOk(u) && VtsGrow(r, u)
    ensures ev.dst in u.lps && u.lps[ev.dst].vt == ev.ts
  {
    hide Execute, InTime, Replays, SendsLogged, RunFrame, StepFrame, OneRankOnly, LogOk;
    TopIsLeast(r.pending, ev);
    var ctx, log, more := ExecuteShape(cfg, m, 0, t, ev);
    assert TrafficOk(cfg, 0, t, ev.ts);
    ExecuteRankZero(cfg, ev);
    ExecuteTraffic(cfg, m, 0, t, ev, ev.ts);
    ExecutedSerial(r, ev, u, ctx, more);
  }

  lemma ExecuteRankZero(cfg: Config, ev: Event)
    requires OneRankOnly(cfg)
    ensures cfg.rankOf(ev.dst) == 0
  {
  }

  lemma ExecutedSerial(r: Rank, ev: Event, u: Rank, ctx: LpContext, more: seq<Event>)
    requires SerialOk(r) && Ready(r) && Hosts(r, ev.dst) && ev in r.pending
    requires u.lps == r.lps[ev.dst := ctx] && ctx.vt == ev.ts && u.rollbacks == r.rollbacks
    requires u.past == r.past[ev.dst := r.past[ev.dst].(sent := r.past[ev.dst].sent + more)]
    requires TrafficAbove(u, ev.ts)
    ensures SerialOk(u) && VtsGrow(r, u)
  {
    assert VtsBelow(r, ev.ts);
    forall e | e in u.pending ensures VtsBelow(u, e.ts) { assert e in Traffic(u); }
    assert Ready(u);
  }

  lemma StartSerial(cfg: Config, m: Model, r: Rank, l: LPId)
    requires CausalModel(m) && LpsOk(cfg, m, r) && SerialOk(r) && Hosts(r, l) && !r.past[l].started
    requires !StartLp(cfg, m, 0, r, l).aborted
    ensures SerialOk(StartLp(cfg, m, 0, r, l)) && VtsGrow(r, StartLp(cfg, m, 0, r, l))
  {
    hide StartLp, LpOk;
    var ctx, log, more := StartShape(cfg, m, 0, r, l);
    var u := StartLp(cfg, m, 0, r, l);
    assert !Ready(r);
    assert VtsBelow(u, ZERO);
  }

  ghost predicate VtsGrow(r: Rank, u: Rank) {
    u.lps.Keys == r.lps.Keys && forall l :: l in r.lps ==> r.lps[l].vt.Le(u.lps[l].vt)
  }

  /** The parts of a rank the serial argument looks at. */
  ghost predicate SameClocks(r: Rank, u: Rank) {
    && u.lps.Keys == r.lps.Keys && u.past.Keys == r.past.Keys && u.pending <= r.pending && u.rollbacks == r.rollbacks
    && (forall l :: l in r.lps ==> u.lps[l].vt == r.lps[l].vt)
    && (forall l :: l in r.past ==> u.past[l].antis == r.past[l].antis && u.past[l].started == r.past[l].started)
  }

  lemma SameSerial(r: Rank, u: Rank)
    requires SerialOk(r) && SameClocks(r, u)
    ensures SerialOk(u) && VtsGrow(r, u)
  {
    assert Ready(r) ==> Ready(u);
    forall e | e in u.pending ensures VtsBelow(u, e.ts) { assert VtsBelow(r, e.ts); }
  }

  lemma AdvanceClocks(r: Rank, g: TimeStamp)
    ensures SameClocks(r, Advance(r, g))
  {
    hide Released, Fossils, FossilSends;
  }

  lemma AdvanceSerial(r: Rank, g: TimeStamp)
    requires SerialOk(r)
    ensures SerialOk(Advance(r, g)) && VtsGrow(r, Advance(r, g))
  {
    hide SerialOk, VtsGrow, Advance;
    AdvanceClocks(r, g);
    SameSerial(r, Advance(r, g));
  }

  lemma PhaseSerial(r: Rank, p: Phase)
    requires SerialOk(r)
    ensures SerialOk(WithPhase(r, p)) && VtsGrow(r, WithPhase(r, p))
  {
    hide SerialOk, VtsGrow;
    SameSerial(r, WithPhase(r, p));
  }

  lemma GrowTwice(r: Rank, u: Rank, v: Rank)
    requires VtsGrow(r, u) && VtsGrow(u, v)
    ensures VtsGrow(r, v)
  {
  }

  lemma CollectSerial(cfg: Config, r: Rank, white: int, g: TimeStamp)
    requires SerialOk(r)
    ensures SerialOk(CollectOne(cfg, r, white, g)) && VtsGrow(r, CollectOne(cfg, r, white, g))
  {
    hide Prune, SerialOk, VtsGrow;
    AdvanceSerial(r, g);
    PhaseSerial(Advance(r, g), NextRound(r.phase));
    GrowTwice(r, Advance(r, g), WithPhase(Advance(r, g), NextRound(r.phase)));
    PhaseSerial(r, Flip(r.phase));
    PhaseSerial(r, r.phase);
    AdvancePhase(r, g);
  }

  lemma TakeSerial(cfg: Config, m: Model, w: World, ev: Event)
    requires GoodModel(m) && |w| == 1 && OneRankOnly(cfg) && WorldOk(cfg, m, w) && SerialOk(w[0])
    requires MayTake(w, 0, ev)
    ensures !ev.isAnti && VtsBelow(w[0], ev.ts)
    ensures
      var u := Dispatch(cfg, m, 0, TakePending(w[0], ev), ev);
      !u.aborted ==> SerialOk(u) && VtsGrow(w[0], u) && ev.dst in u.lps && u.lps[ev.dst].vt == ev.ts
  {
    hide NetsOk, LpOk, TombsOk, FloorOk, StartedFirst, LedgerOk, LedgerOf, Placed, Execute, Rollback, DispatchAnti,
         CausalModel, DisciplinedModel, VtsGrow, OneRankOnly;
    NoTombs(cfg, m, w);
    assert RankOk(cfg, m, 0, w[0]);
    var t := TakePending(w[0], ev);
    assert VtsBelow(w[0], ev.ts);
    if !Dispatch(cfg, m, 0, t, ev).aborted {
      ExecuteSerial(cfg, m, w[0], ev, t, Execute(cfg, m, 0, t, ev));
    }
  }

  lemma HeardSerial(cfg: Config, w: World, key: InflightKey)
    requires |w| == 1 && SerialOk(w[0])
    ensures SerialOk(Heard(cfg, w, 0, 0, key)[0]) && VtsGrow(w[0], Heard(cfg, w, 0, 0, key)[0])
  {
    hide ReceiveAck, SerialOk, VtsGrow;
    HeardFields(cfg, Unack(w[0], Ack(0, key)), key);
    SameSerial(w[0], Heard(cfg, w, 0, 0, key)[0]);
  }

  lemma StepSerial(cfg: Config, m: Model, w: World, s: Step)
    requires GoodModel(m) && |w| == 1 && OneRankOnly(cfg) && WorldOk(cfg, m, w) && SerialOk(w[0])
    requires Enabled(cfg, w, s) && NoAbort(Next(cfg, m, w, s))
    ensures SerialOk(Next(cfg, m, w, s)[0]) && VtsGrow(w[0], Next(cfg, m, w, s)[0])
  {
    hide NetsOk, LpsOk, TombsOk, FloorOk, StartedFirst, LedgerOk, LedgerOf, Placed, Dispatch, StartLp, CollectOne,
         CausalModel, DisciplinedModel, VtsGrow, SerialOk, OneRankOnly, ReceiveAck, IsTop, Ready, Settled, MayCollect, Prune, Advance, Heard, Delivered;
    var u := Next(cfg, m, w, s);
    assert !u[0].aborted;
    assert RankOk(cfg, m, 0, w[0]);
    match s {
      case Start(me, l) => StartSerial(cfg, m, w[0], l);
      case Receive(from, me, ev) =>
        NoTombs(cfg, m, w) by { SerialParts(w[0]); }
        assert false;
      case HearAck(from, me, key) => HeardSerial(cfg, w, key);
      case Discard(me, ev) => SameSerial(w[0], u[0]);
      case Take(me, ev) => TakeSerial(cfg, m, w, ev);
      case Tidy(me) =>
        TidyIsAdvance(w[0]);
        AdvanceSerial(w[0], w[0].lastGvt);
      case Collect => CollectSerial(cfg, w[0], WhiteInTransit(w), Reduced(cfg, w));
    }
  }

  lemma SerialParts(r: Rank)
    requires SerialOk(r)
    ensures NothingCancelled(r)
  {
  }

  lemma {:induction false} SerialRun(cfg: Config, m: Model, trace: seq<World>, i: nat)
    requires GoodModel(m) && OneRankOnly(cfg) && Run(cfg, m, trace) && |trace[0]| == 1 && i < |trace|
    ensures |trace[i]| == 1 && SerialOk(trace[i][0])
    ensures i > 0 ==> |trace[i - 1]| == 1 && VtsGrow(trace[i - 1][0], trace[i][0])
    decreases i
  {
    hide WorldOk, GoodModel, Enabled, Next, NoAbort, SerialOk, OneRankOnly, VtsGrow, FreshRank;
    if i == 0 {
      assert trace[0][0] == FreshRank(cfg, m, 0);
      FreshIsSerial(cfg, m);
    } else {
      SerialRun(cfg, m, trace, i - 1);
      RunKeeps(cfg, m, trace, i - 1);
      assert StepTo(cfg, m, trace[i - 1], trace[i - 1 + 1]);
      var s :| Enabled(cfg, trace[i - 1], s) && trace[i] == Next(cfg, m, trace[i - 1], s) && NoAbort(trace[i]);
      StepSerial(cfg, m, trace[i - 1], s);
    }
  }

  lemma FreshIsSerial(cfg: Config, m: Model)
    ensures SerialOk(FreshRank(cfg, m, 0))
  {
  }

  lemma {:induction false} VtsOverRun(cfg: Config, m: Model, trace: seq<World>, i: nat, j: nat)
    requires GoodModel(m) && OneRankOnly(cfg) && Run(cfg, m, trace) && |trace[0]| == 1 && i <= j < |trace|
    ensures |trace[i]| == 1 && |trace[j]| == 1 && VtsGrow(trace[i][0], trace[j][0])
    decreases j - i
  {
    hide GoodModel, OneRankOnly, Run, VtsGrow, SerialOk;
    SerialRun(cfg, m, trace, j);
    if i < j {
      VtsOverRun(cfg, m, trace, i, j - 1);
      GrowTwice(trace[i][0], trace[j - 1][0], trace[j][0]);
    } else {
      GrowSelf(trace[i][0]);
    }
  }

  lemma GrowSelf(r: Rank)
    ensures VtsGrow(r, r)
  {
  }

  /** A run on one rank never rolls back, never sends an anti-message and never leaves a tombstone. */
  lemma SerialNeverRollsBack(cfg: Config, m: Model, trace: seq<World>, i: nat)
    requires GoodModel(m) && OneRankOnly(cfg) && Run(cfg, m, trace) && |trace[0]| == 1 && i < |trace|
    ensures |trace[i]| == 1 && trace[i][0].rollbacks == 0 && trace[i][0].cancelled == map[]
    ensures forall e :: e in trace[i][0].pending ==> !e.isAnti
    ensures forall l :: l in trace[i][0].past ==> trace[i][0].past[l].antis == map[]
    ensures forall ev :: MayTake(trace[i], 0, ev) && ev.dst in trace[i][0].lps ==> !ev.ts.Lt(trace[i][0].lps[ev.dst].vt)
  {
    hide WorldOk, GoodModel, Run, OneRankOnly;
    SerialRun(cfg, m, trace, i);
    RunKeeps(cfg, m, trace, i);
    NoTombs(cfg, m, trace[i]);
  }

  /** A dispatch in a run: no LP is ahead of the event before, and its LP is at it after. */
  ghost predicate Dispatched(cfg: Config, m: Model, w: World, ev: Event, u: World) {
    MayTake(w, 0, ev) && u == Next(cfg, m, w, Take(0, ev))
  }

  lemma DispatchedInRun(cfg: Config, m: Model, trace: seq<World>, i: nat, ev: Event)
    requires GoodModel(m) && OneRankOnly(cfg) && Run(cfg, m, trace) && |trace[0]| == 1
    requires i < |trace| - 1 && Dispatched(cfg, m, trace[i], ev, trace[i + 1])
    ensures |trace[i]| == 1 && |trace[i + 1]| == 1
    ensures VtsBelow(trace[i][0], ev.ts)
    ensures ev.dst in trace[i + 1][0].lps && trace[i + 1][0].lps[ev.dst].vt == ev.ts
  {
    hide WorldOk, GoodModel, OneRankOnly, Dispatch, SerialOk, MayTake, VtsGrow, Init;
    SerialRun(cfg, m, trace, i);
    RunKeeps(cfg, m, trace, i);
    assert StepTo(cfg, m, trace[i], trace[i + 1]);
    assert !trace[i + 1][0].aborted;
    TakeSerial(cfg, m, trace[i], ev);
  }

  /** The events dispatched in a run on one rank come in non-decreasing order of their stamps. */
  lemma SerialOrder(cfg: Config, m: Model, trace: seq<World>, i: nat, j: nat, a: Event, b: Event)
    requires GoodModel(m) && OneRankOnly(cfg) && Run(cfg, m, trace) && |trace[0]| == 1
    requires i < j < |trace| - 1
    requires Dispatched(cfg, m, trace[i], a, trace[i + 1]) && Dispatched(cfg, m, trace[j], b, trace[j + 1])
    ensures a.ts.Le(b.ts)
  {
    hide GoodModel, OneRankOnly, Run, Dispatched;
    DispatchedInRun(cfg, m, trace, i, a);
    DispatchedInRun(cfg, m, trace, j, b);
    VtsOverRun(cfg, m, trace, i + 1, j);
  }
}
