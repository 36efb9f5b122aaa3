/** All ranks and the network between them, as a transition system.

    What a rank has handed to the transport is an unordered bag; a message in it may be delivered
    at any time.  A collective is one step of all ranks: the reductions block, and a rank neither
    polls nor dispatches between entering and leaving one (fossil_collect_ in src/simulation.hpp). */
module Worlds {
  import opened Stamps
  import opened Events
  import opened Models
  import opened Kernel

  type World = seq<Rank>

  datatype Step =
    | Start(me: RankId, l: LPId)
    | Receive(from: RankId, me: RankId, ev: Event)
    | HearAck(from: RankId, me: RankId, key: InflightKey)
    | Discard(me: RankId, ev: Event)
    | Take(me: RankId, ev: Event)
    | Tidy(me: RankId)
    | Collect

  /* ---- The beginning ---- */

  function FreshLp(state: LpState): LpContext {
    LpContext(state, ZERO, false, ZERO, [], [], 1, 1, 1)
  }

  function FreshRank(cfg: Config, m: Model, me: RankId): Rank {
    Rank(map l | l in cfg.lps && cfg.rankOf(l) == me :: FreshLp(m.init(l)),
         multiset{}, map[], map[], multiset{}, FIRST_PHASE, ZERO, multiset{}, multiset{}, [], 0, false,
         map l | l in cfg.lps && cfg.rankOf(l) == me :: LpPast(false, [], [], [], map[]), multiset{})
  }

  ghost predicate Init(cfg: Config, m: Model, w: World) {
    && |w| > 0
    && (forall l :: l in cfg.lps ==> cfg.rankOf(l) < |w|)
    && (forall r :: 0 <= r < |w| ==> w[r] == FreshRank(cfg, m, r))
  }

  /* ---- Reductions ---- */

  /** The minimum over all ranks of a local bound. */
  ghost function GlobalMin(bound: Rank -> TimeStamp, w: World): (g: TimeStamp)
    ensures forall r :: 0 <= r < |w| ==> g.Le(bound(w[r]))
    ensures g == MAX_STAMP || exists r :: 0 <= r < |w| && g == bound(w[r])
    decreases |w|
  {
    if |w| == 0 then MAX_STAMP
    else
      var n := |w| - 1;
      var front := GlobalMin(bound, w[..n]);
      assert forall r :: 0 <= r < n ==> w[..n][r] == w[r];
      MinStamp(front, bound(w[n]))
  }

  ghost function GlobalSum(delta: Rank -> int, w: World): int
    decreases |w|
  {
    if |w| == 0 then 0 else GlobalSum(delta, w[..|w| - 1]) + delta(w[|w| - 1])
  }

  /* ---- Steps ---- */

  /** on_start of all of a rank's LPs comes before anything else the rank does. */
  ghost predicate Ready(r: Rank) {
    forall l :: l in r.past ==> r.past[l].started
  }

  ghost predicate MayReceive(cfg: Config, w: World, from: RankId, me: RankId, ev: Event) {
    from < |w| && me < |w| && Ready(w[me]) && ev in w[from].wire && me == cfg.rankOf(ev.dst)
  }

  ghost predicate MayHear(w: World, from: RankId, me: RankId, key: InflightKey) {
    from < |w| && me < |w| && Ready(w[me]) && Ack(me, key) in w[from].acks
  }

  ghost predicate MayStart(w: World, me: RankId, l: LPId) {
    me < |w| && Hosts(w[me], l) && !w[me].past[l].started
  }

  ghost predicate MayDiscard(w: World, me: RankId, ev: Event) {
    me < |w| && Ready(w[me]) && IsTop(w[me].pending, ev) && Tombstoned(w[me], ev)
  }

  ghost predicate MayTake(w: World, me: RankId, ev: Event) {
    me < |w| && Ready(w[me]) && IsTop(w[me].pending, ev) && (ev.isAnti || !Tombstoned(w[me], ev))
  }

  function Unwire(r: Rank, ev: Event): Rank {
    r.(wire := r.wire - multiset{ev})
  }

  function Unack(r: Rank, ack: Ack): Rank {
    r.(acks := r.acks - multiset{ack})
  }

  function Delivered(cfg: Config, w: World, from: RankId, me: RankId, ev: Event): (u: World)
    requires from < |w| && me < |w|
    ensures |u| == |w|
  {
    var sent := w[from := Unwire(w[from], ev)];
    sent[me := ReceiveEvent(cfg, sent[me], from, ev)]
  }

  function Heard(cfg: Config, w: World, from: RankId, me: RankId, key: InflightKey): (u: World)
    requires from < |w| && me < |w|
    ensures |u| == |w|
  {
    var sent := w[from := Unack(w[from], Ack(me, key))];
    sent[me := ReceiveAck(cfg, sent[me], key)]
  }

  ghost function CollectOne(cfg: Config, r: Rank, whiteInTransit: int, reduced: TimeStamp): Rank {
    if cfg.mode.AckInflight? then AdvanceAck(r, reduced) else AdvanceColored(r, whiteInTransit, reduced)
  }

  /** The bound a rank contributes to the reduction. */
  ghost function Bound(cfg: Config, r: Rank): TimeStamp {
    if cfg.mode.AckInflight? then LocalGvt(cfg, r) else ColoredGvt(cfg, r)
  }

  ghost function Reduced(cfg: Config, w: World): TimeStamp {
    GlobalMin(r => Bound(cfg, r), w)
  }

  ghost function WhiteInTransit(w: World): int {
    GlobalSum(WhiteDelta, w)
  }

  /** Whether this collective computes a new bound: always with acknowledgements; with colours only
      in a red phase, once no white message is in transit. */
  ghost predicate ComputesGvt(cfg: Config, w: World) {
    cfg.mode.AckInflight? || (WhiteInTransit(w) == 0 && forall r :: 0 <= r < |w| ==> w[r].phase.red)
  }

  /** Computing the bound peeks at each rank's queue, which settles it. */
  ghost predicate MayCollect(cfg: Config, w: World) {
    && (forall r :: 0 <= r < |w| ==> Ready(w[r]))
    && (ComputesGvt(cfg, w) ==> forall r :: 0 <= r < |w| ==> Settled(w[r]))
  }

  ghost predicate Enabled(cfg: Config, w: World, s: Step) {
    match s
    case Start(me, l) => MayStart(w, me, l)
    case Receive(from, me, ev) => MayReceive(cfg, w, from, me, ev)
    case HearAck(from, me, key) => MayHear(w, from, me, key)
    case Discard(me, ev) => MayDiscard(w, me, ev)
    case Take(me, ev) => MayTake(w, me, ev)
    case Tidy(me) => me < |w| && Ready(w[me])
    case Collect => MayCollect(cfg, w)
  }

  ghost function CollectAll(cfg: Config, w: World): (u: World)
    ensures |u| == |w|
    ensures forall r :: 0 <= r < |w| ==> u[r] == CollectOne(cfg, w[r], WhiteInTransit(w), Reduced(cfg, w))
  {
    seq(|w|, r requires 0 <= r < |w| => CollectOne(cfg, w[r], WhiteInTransit(w), Reduced(cfg, w)))
  }

  ghost function Next(cfg: Config, m: Model, w: World, s: Step): (u: World)
    requires Enabled(cfg, w, s)
    ensures |u| == |w|
  {
    match s
    case Start(me, l) => w[me := StartLp(cfg, m, me, w[me], l)]
    case Receive(from, me, ev) => Delivered(cfg, w, from, me, ev)
    case HearAck(from, me, key) => Heard(cfg, w, from, me, key)
    case Discard(me, ev) => w[me := DropPending(w[me], ev)]
    case Take(me, ev) => w[me := Dispatch(cfg, m, me, TakePending(w[me], ev), ev)]
    case Tidy(me) => w[me := Prune(w[me], w[me].lastGvt)]
    case Collect => CollectAll(cfg, w)
  }

  ghost predicate NoAbort(w: World) {
    forall r :: 0 <= r < |w| ==> !w[r].aborted
  }

  /** One step that does not end in an exception. */
  ghost predicate StepTo(cfg: Config, m: Model, w: World, u: World) {
    exists s :: Enabled(cfg, w, s) && u == Next(cfg, m, w, s) && NoAbort(u)
  }

  ghost predicate Run(cfg: Config, m: Model, trace: seq<World>) {
    && |trace| > 0
    && Init(cfg, m, trace[0])
    && forall i :: 0 <= i < |trace| - 1 ==> StepTo(cfg, m, trace[i], trace[i + 1])
  }

  ghost predicate Reachable(cfg: Config, m: Model, w: World) {
    exists trace :: Run(cfg, m, trace) && trace[|trace| - 1] == w
  }
}
