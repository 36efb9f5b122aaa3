/** The runtime invariant checker, validate_invariants_: it never fires, at any of its call sites,
    unless a 64-bit counter has run out. */
module Checker {
  import opened Stamps
  import opened Events
  import opened Models
  import opened Kernel
  import opened Replay
  import opened LpInvariant
  import opened LpSteps
  import opened RankSteps
  import opened Ledgers
  import opened Books
  import opened BookSteps
  import opened Tombs
  import opened Floor
  import opened Handling
  import opened Dispatching
  import opened AntiDispatch
  import opened Worlds
  import opened Moves
  import opened Network
  import opened Pruning
  import opened Gvt
  import opened Runs
  import opened Safety
  import opened Collections

  /* ---- The checker's clauses, as the code states them ---- */

  predicate CountersLeft(ctx: LpContext) {
    ctx.nextSeqNormal != 0 && ctx.nextSeqControl != 0 && ctx.nextUid != 0
  }

  ghost predicate LpClauses(ctx: LpContext) {
    && (forall i :: 1 <= i < |ctx.processed| ==> !ctx.processed[i].ev.ts.Lt(ctx.processed[i - 1].ev.ts))
    && (|ctx.processed| > 0 ==> !ctx.vt.Lt(ctx.processed[|ctx.processed| - 1].ev.ts))
    && (ctx.inEvent ==> ctx.currentExecTs == ctx.vt)
  }

  /** The in-flight map and multiset agree in size and in their stamps. */
  ghost predicate InflightClauses(r: Rank) {
    |r.inflight| == |r.inflightTs| && r.inflightTs == ValuesOf(r.inflight)
  }

  /** One way of popping a queue until it is empty. */
  ghost predicate PopOrder(pending: multiset<Event>, popped: seq<Event>)
    decreases |popped|
  {
    if |popped| == 0 then pending == multiset{}
    else IsTop(pending, popped[0]) && PopOrder(pending - multiset{popped[0]}, popped[1..])
  }

  /** However the queue is popped, tombstoned events or not, events come in order. */
  ghost predicate QueueClause(r: Rank) {
    forall popped, i, j :: PopOrder(r.pending, popped) && 0 <= i < j < |popped| ==> !Before(popped[j], popped[i])
  }

  ghost predicate Clauses(cfg: Config, r: Rank) {
    && (forall l :: l in r.lps ==> LpClauses(r.lps[l]))
    && (cfg.mode.AckInflight? ==> InflightClauses(r))
    && QueueClause(r)
  }

  ghost predicate Accepts(cfg: Config, r: Rank) {
    Clauses(cfg, r) && forall l :: l in r.lps ==> CountersLeft(r.lps[l])
  }

  /* ---- Why they hold ---- */

  lemma {:induction false} PoppedArePending(pending: multiset<Event>, popped: seq<Event>, j: nat)
    requires PopOrder(pending, popped) && j < |popped|
    ensures popped[j] in pending
    decreases |popped|
  {
    if j > 0 { PoppedArePending(pending - multiset{popped[0]}, popped[1..], j - 1); }
  }

  lemma {:induction false} PopsInOrder(pending: multiset<Event>, popped: seq<Event>, i: nat, j: nat)
    requires PopOrder(pending, popped) && i < j < |popped|
    ensures !Before(popped[j], popped[i])
    decreases |popped|
  {
    if i == 0 {
      PoppedArePending(pending, popped, j);
    } else {
      PopsInOrder(pending - multiset{popped[0]}, popped[1..], i - 1, j - 1);
    }
  }

  lemma {:induction false} QueueClauseHolds(r: Rank)
    ensures QueueClause(r)
  {
    forall popped, i, j | PopOrder(r.pending, popped) && 0 <= i < j < |popped|
      ensures !Before(popped[j], popped[i])
    {
      PopsInOrder(r.pending, popped, i, j);
    }
  }

  lemma {:induction false} ValuesSize<K, V>(m: map<K, V>)
    ensures |ValuesOf(m)| == |m|
    decreases |m|
  {
    if m != map[] {
      var k :| k in m;
      ValuesWithout(m, k);
      ValuesSize(m - {k});
      MapWithout(m, k);
    }
  }

  lemma MapWithout<K, V>(m: map<K, V>, k: K)
    requires k in m
    ensures |m - {k}| == |m| - 1
  {
    assert (m - {k}).Keys == m.Keys - {k};
    assert |(m - {k}).Keys| == |m - {k}| && |m.Keys| == |m|;
  }

  lemma InflightClausesHold(cfg: Config, r: Rank)
    requires NetOk(cfg, r)
    ensures cfg.mode.AckInflight? ==> InflightClauses(r)
  {
    ValuesSize(r.inflight);
  }

  /** Clauses of an LP whose log is in order and not ahead of it. */
  lemma InTimeClauses(committed: seq<Record>, ctx: LpContext)
    requires InTime(committed + ctx.processed, ctx.vt)
    requires ctx.inEvent ==> ctx.currentExecTs == ctx.vt
    ensures LpClauses(ctx)
  {
    var all := committed + ctx.processed;
    var n := |committed|;
    forall i | 1 <= i < |ctx.processed| ensures !ctx.processed[i].ev.ts.Lt(ctx.processed[i - 1].ev.ts) {
      assert all[n + i] == ctx.processed[i] && all[n + i - 1] == ctx.processed[i - 1];
    }
    if |ctx.processed| > 0 {
      assert all[|all| - 1] == ctx.processed[|ctx.processed| - 1];
    }
  }

  lemma RankClauses(cfg: Config, m: Model, r: Rank)
    requires LpsOk(cfg, m, r) && NetOk(cfg, r)
    ensures Clauses(cfg, r)
  {
    hide InTime, Replays, SendsLogged, NetOk, QueueClause, InflightClauses, LpClauses;
    forall l | l in r.lps ensures LpClauses(r.lps[l]) { InTimeClauses(r.past[l].committed, r.lps[l]); }
    InflightClausesHold(cfg, r);
    QueueClauseHolds(r);
  }

  /** Between steps (entry and exit of dispatch and fossil collection, entry of a rollback and of a
      send) the checker accepts just if no counter has run out. */
  lemma CheckerAccepts(cfg: Config, m: Model, w: World, me: RankId)
    requires GoodModel(m) && Reachable(cfg, m, w) && me < |w|
    ensures Accepts(cfg, w[me]) <==> forall l :: l in w[me].lps ==> CountersLeft(w[me].lps[l])
  {
    hide Reachable, GoodModel, WorldOk, TombsOk, FloorOk, LpsOk, NetOk, Placed, LedgerOk, LedgerOf, Clauses;
    RankParts(cfg, m, w, me);
    RankClauses(cfg, m, w[me]);
  }

  /* ---- What acceptance means ---- */

  /** The LP's log, said of any two records of it, and of the LP's times. */
  ghost predicate LogInOrder(ctx: LpContext) {
    && (forall i, j :: 0 <= i < j < |ctx.processed| ==> Ord(ctx.processed[i].ev.ts) <= Ord(ctx.processed[j].ev.ts))
    && (forall i :: 0 <= i < |ctx.processed| ==> Ord(ctx.processed[i].ev.ts) <= Ord(ctx.vt))
    && (ctx.inEvent ==> ctx.currentExecTs == ctx.vt)
  }

  /** The keys of a map's entries with this value. */
  ghost function KeysAt<K, V>(m: map<K, V>, v: V): set<K> {
    set k | k in m && m[k] == v
  }

  /** The stamps in flight are those of the map's entries, each as often. */
  ghost predicate InflightAgree(r: Rank) {
    forall t: TimeStamp :: r.inflightTs[t] == |KeysAt(r.inflight, t)|
  }

  lemma {:induction false} NeighboursSuffice(recs: seq<Record>, i: nat, j: nat)
    requires i < j < |recs| && forall k :: 1 <= k < |recs| ==> !recs[k].ev.ts.Lt(recs[k - 1].ev.ts)
    ensures Ord(recs[i].ev.ts) <= Ord(recs[j].ev.ts)
    decreases j
  {
    hide Ord;
    OrdIsOrder(recs[j].ev.ts, recs[j - 1].ev.ts);
    if i < j - 1 { NeighboursSuffice(recs, i, j - 1); }
  }

  lemma LpClausesMean(ctx: LpContext)
    ensures LpClauses(ctx) <==> LogInOrder(ctx)
  {
    hide Ord;
    var n := |ctx.processed|;
    if LpClauses(ctx) {
      forall i, j | 0 <= i < j < n ensures Ord(ctx.processed[i].ev.ts) <= Ord(ctx.processed[j].ev.ts) {
        NeighboursSuffice(ctx.processed, i, j);
      }
      if n > 0 { OrdIsOrder(ctx.vt, ctx.processed[n - 1].ev.ts); }
    }
    if LogInOrder(ctx) {
      forall i | 1 <= i < n ensures !ctx.processed[i].ev.ts.Lt(ctx.processed[i - 1].ev.ts) {
        OrdIsOrder(ctx.processed[i].ev.ts, ctx.processed[i - 1].ev.ts);
      }
      if n > 0 { OrdIsOrder(ctx.vt, ctx.processed[n - 1].ev.ts); }
    }
  }

  lemma KeysWithout<K, V>(m: map<K, V>, j: K, v: V)
    requires j in m
    ensures |KeysAt(m, v)| == |KeysAt(m - {j}, v)| + if m[j] == v then 1 else 0
  {
    var rest := m - {j};
    if m[j] == v {
      assert KeysAt(m, v) == KeysAt(rest, v) + {j};
    } else {
      assert KeysAt(m, v) == KeysAt(rest, v);
    }
  }

  lemma {:induction false} ValuesCount<K, V>(m: map<K, V>, v: V)
    ensures ValuesOf(m)[v] == |KeysAt(m, v)|
    decreases |m|
  {
    hide KeysAt;
    if m == map[] {
      NoKeys(m, v);
    } else {
      var j :| j in m;
      MapWithout(m, j);
      ValuesWithout(m, j);
      hide ValuesOf;
      ValuesCount(m - {j}, v);
      KeysWithout(m, j, v);
    }
  }

  lemma NoKeys<K, V>(m: map<K, V>, v: V)
    requires m == map[]
    ensures KeysAt(m, v) == {}
  {
  }

  lemma InflightClausesMean(r: Rank)
    ensures InflightClauses(r) <==> InflightAgree(r)
  {
    forall t: TimeStamp ensures ValuesOf(r.inflight)[t] == |KeysAt(r.inflight, t)| {
      ValuesCount(r.inflight, t);
    }
    ValuesSize(r.inflight);
    if InflightAgree(r) { assert r.inflightTs == ValuesOf(r.inflight); }
  }

  /** What acceptance means, of any state, reachable or not: no counter at zero, every log in order and
      not ahead of its LP, and in acknowledgement mode the two in-flight tables in agreement. */
  lemma CheckerMeans(cfg: Config, r: Rank)
    ensures Accepts(cfg, r) <==>
      && (forall l :: l in r.lps ==> LogInOrder(r.lps[l]))
      && (forall l :: l in r.lps ==> r.lps[l].nextSeqNormal > 0 && r.lps[l].nextSeqControl > 0 && r.lps[l].nextUid > 0)
      && (cfg.mode.AckInflight? ==> InflightAgree(r))
  {
    hide LpClauses, LogInOrder, InflightClauses, InflightAgree, QueueClause;
    QueueClauseHolds(r);
    InflightClausesMean(r);
    forall l | l in r.lps ensures LpClauses(r.lps[l]) <==> LogInOrder(r.lps[l]) { LpClausesMean(r.lps[l]); }
  }

  /* ---- In the middle of an operation ---- */

  lemma OthersAccept(cfg: Config, m: Model, r: Rank, l: LPId, u: Rank)
    requires LpsOk(cfg, m, r) && Hosts(r, l) && l in u.lps && u.lps == r.lps[l := u.lps[l]]
    requires LpClauses(u.lps[l]) && NetOk(cfg, u)
    ensures Clauses(cfg, u)
  {
    hide InTime, Replays, SendsLogged, NetOk, QueueClause, InflightClauses, LpClauses;
    forall p | p in u.lps ensures LpClauses(u.lps[p]) {
      if p != l { InTimeClauses(r.past[p].committed, r.lps[p]); }
    }
    InflightClausesHold(cfg, u);
    QueueClauseHolds(u);
  }

  /** Inside a handler, after any number of its sends: the LP is at the time of the event it
      executes, which is not before anything it has processed. */
  lemma CheckerAcceptsInHandler(cfg: Config, m: Model, me: RankId, r: Rank, ev: Event, msgs: seq<Event>)
    requires CausalModel(m) && LpsOk(cfg, m, r) && NetOk(cfg, r) && Hosts(r, ev.dst) && !ev.isAnti
    requires r.lps[ev.dst].vt.Le(ev.ts)
    requires msgs <= SendsOf(m.handle(ev.dst, r.lps[ev.dst].state, ev))
    requires !SendAll(cfg, me, WithLp(r, ev.dst, OpenLp(r.lps[ev.dst], ev)), msgs).aborted
    ensures Clauses(cfg, SendAll(cfg, me, WithLp(r, ev.dst, OpenLp(r.lps[ev.dst], ev)), msgs))
  {
    hide Replays, SendsLogged, SendEvent, NetOk, Clauses, LpClauses, Grows;
    var l := ev.dst;
    var open := WithLp(r, l, OpenLp(r.lps[l], ev));
    forall i | 0 <= i < |msgs| ensures OwnMessage(l, msgs[i]) {
      assert msgs[i] in SendsOf(m.handle(l, r.lps[l].state, ev));
    }
    SamePastNet(r, open);
    SameNetKept(cfg, r, open);
    SendAllNet(cfg, me, open, l, msgs);
    var ctx, log, more := SendAllShape(cfg, me, open, l, msgs);
    var u := SendAll(cfg, me, open, msgs);
    PutPut(r.lps, l, open.lps[l], ctx);
    InTimeClauses(r.past[l].committed, ctx);
    OthersAccept(cfg, m, r, l, u);
  }

  /** Inside a rollback, before the first anti-message and after any number of them: the exact
      predecessor of the rollback target is not before the last record kept. */
  lemma CheckerAcceptsInRollback(cfg: Config, m: Model, me: RankId, r: Rank, l: LPId, to: TimeStamp, antis: seq<Event>)
    requires LpsOk(cfg, m, r) && NetOk(cfg, r) && l in r.lps && !r.aborted && to != ZERO
    requires LogListsLive(AccountIn(r.lps[l], r.past[l])) && PastBelow(r.past[l], to)
    requires antis <= RollbackAntis(l, r.lps[l], to)
    ensures Clauses(cfg, SendAll(cfg, me, Rewound(r, l, to), antis))
  {
    hide Replays, SendsLogged, SendEvent, NetOk, Clauses, LpClauses, Grows, Rewound, UndoCancels, LogListsLive, FreshAntis, PastBelow, InTime;
    var ctx := r.lps[l];
    var base := Rewound(r, l, to);
    var k := Cut(ctx.processed, to);
    RewoundShape(r, l, to);
    RewindLogs(ctx, ctx.processed[k..], to);
    RewindVt(ctx, ctx.processed[k..], to);
    SamePastNet(r, base);
    SameNetKept(cfg, r, base);
    LoggedSendsAreComplete(cfg, m, l, ctx, r.past[l]);
    RollbackAntisFresh(l, ctx, r.past[l], to);
    FreshPrefix(r.past[l], RollbackAntis(l, ctx, to), antis);
    SendAntisNet(cfg, me, base, l, antis);
    SendAntisShape(cfg, me, base, l, antis);
    RewoundInTime(r.past[l], ctx, to);
    InTimeClauses(r.past[l].committed, base.lps[l]);
    OthersAccept(cfg, m, r, l, SendAll(cfg, me, base, antis));
  }

  lemma RewindVt(ctx: LpContext, undone: seq<Record>, to: TimeStamp)
    ensures Rewind(ctx, undone, to).vt == PrevStamp(to) && Rewind(ctx, undone, to).inEvent == ctx.inEvent
  {
  }

  lemma FreshPrefix(past: LpPast, all: seq<Event>, antis: seq<Event>)
    requires FreshAntis(past, all) && antis <= all
    ensures FreshAntis(past, antis)
  {
  }

  lemma RewoundInTime(past: LpPast, ctx: LpContext, to: TimeStamp)
    requires InTime(past.committed + ctx.processed, ctx.vt) && PastBelow(past, to) && to != ZERO
    ensures InTime(past.committed + ctx.processed[..Cut(ctx.processed, to)], PrevStamp(to))
  {
    var k := |past.committed| + Cut(ctx.processed, to);
    var all := past.committed + ctx.processed;
    WholeCut(past.committed, ctx.processed, to);
    InTimeCut(all, k, ctx.vt, to);
    CutBehind(past.committed, ctx.processed, Cut(ctx.processed, to));
  }

  /* ---- Every call site of every run ---- */

  lemma TakenParts(cfg: Config, m: Model, w: World, me: RankId, ev: Event)
    requires GoodModel(m) && Reachable(cfg, m, w) && me < |w| && MayTake(w, me, ev) && ev.dst in w[me].lps
    ensures
      var r := TakePending(w[me], ev);
      && LpsOk(cfg, m, r) && NetOk(cfg, r) && !r.aborted && Hosts(r, ev.dst) && ev.ts != ZERO
      && LogListsLive(AccountIn(r.lps[ev.dst], r.past[ev.dst])) && PastBelow(r.past[ev.dst], ev.ts)
    ensures AllOk(cfg, m, w[me := TakePending(w[me], ev)], multiset{ev})
  {
    hide LpOk, TombsOk, NetOk, Placed, LedgerOk, LedgerOf, Reachable, GoodModel, WorldOk, RecordsBelow, SendsBelow, AllOk, TrafficAbove,
         LogListsLive, AccountIn, Ready, IsTop, Known, WireOut, Grows;
    RankParts(cfg, m, w, me);
    var r := TakePending(w[me], ev);
    TakenIsTop(w, me, ev);
    WorldIsAllOk(cfg, m, w);
    TakeOk(cfg, m, w, me, ev);
    HandRank(cfg, m, w[me := r], me, ev);
    InHistoryLp(cfg, w[me := r], me, ev.dst);
    AccountsLive(cfg, w, multiset{}, me);
    SamePastNet(w[me], r);
    SameNetKept(cfg, w[me], r);
    NoPrunedRecordIsNeeded(cfg, m, w, me, ev, ev.dst);
    BelowBoth(w[me].past[ev.dst], ev.ts);
  }

  lemma BelowBoth(past: LpPast, ts: TimeStamp)
    requires RecordsBelow(past.committed, ts) && SendsBelow(past.pruned, ts)
    ensures PastBelow(past, ts)
  {
  }

  lemma TakenIsTop(w: World, me: RankId, ev: Event)
    requires MayTake(w, me, ev)
    ensures me < |w| && ev in w[me].pending
  {
  }

  lemma WorldIsAllOk(cfg: Config, m: Model, w: World)
    requires WorldOk(cfg, m, w)
    ensures AllOk(cfg, m, w, multiset{})
  {
    hide AllOk, NetsOk;
  }

  lemma HandRank(cfg: Config, m: Model, w: World, me: RankId, ev: Event)
    requires AllOk(cfg, m, w, multiset{ev}) && me < |w|
    ensures Placed(cfg, w) && ev.ts != ZERO
  {
    hide RanksOk, LedgerOk, LedgerOf, Placed, Known;
    HandIsKnown(cfg, w, ev);
  }

  /** In a send of on_start, or after it. */
  ghost predicate InStart(cfg: Config, m: Model, w: World, me: RankId, l: LPId, msgs: seq<Event>, u: Rank) {
    && MayStart(w, me, l) && msgs <= m.start(l) && !u.aborted
    && u == SendAll(cfg, me, w[me].(past := w[me].past[l := w[me].past[l].(started := true)]), msgs)
  }

  /** In a send of the handler of an event the rank has taken up, or after it. */
  ghost predicate InHandler(cfg: Config, m: Model, w: World, me: RankId, ev: Event, msgs: seq<Event>, u: Rank) {
    && me < |w| && MayTake(w, me, ev) && ev.dst in w[me].lps && !ev.isAnti && w[me].lps[ev.dst].vt.Le(ev.ts)
    && msgs <= SendsOf(m.handle(ev.dst, w[me].lps[ev.dst].state, ev)) && !u.aborted
    && u == SendAll(cfg, me, WithLp(TakePending(w[me], ev), ev.dst, OpenLp(w[me].lps[ev.dst], ev)), msgs)
  }

  /** In the rollback for a straggler, after some of its anti-messages. */
  ghost predicate InStraggler(cfg: Config, w: World, me: RankId, ev: Event, antis: seq<Event>, u: Rank) {
    && me < |w| && MayTake(w, me, ev) && ev.dst in w[me].lps && ev.ts.Lt(w[me].lps[ev.dst].vt)
    && antis <= RollbackAntis(ev.dst, w[me].lps[ev.dst], ev.ts)
    && u == SendAll(cfg, me, Rewound(TakePending(w[me], ev), ev.dst, ev.ts), antis)
  }

  /** Before the rollback of an anti-message's cancellation: the tombstone stands. */
  ghost predicate InCancel(w: World, me: RankId, anti: Event, u: Rank) {
    && me < |w| && MayTake(w, me, anti) && anti.isAnti && anti.dst in w[me].lps && w[me].lps[anti.dst].vt.Le(anti.ts)
    && u == Bury(TakePending(w[me], anti), anti)
  }

  /** In that rollback, after some of its anti-messages. */
  ghost predicate InCancelRollback(cfg: Config, w: World, me: RankId, anti: Event, antis: seq<Event>, u: Rank) {
    && me < |w| && InCancel(w, me, anti, Bury(TakePending(w[me], anti), anti)) && anti.dst in w[me].lps
    && var found := FindProcessed(w[me].lps[anti.dst].processed, KeyOf(anti));
       found.Some? && antis <= RollbackAntis(anti.dst, w[me].lps[anti.dst], found.value)
       && u == SendAll(cfg, me, Rewound(Bury(TakePending(w[me], anti), anti), anti.dst, found.value), antis)
  }

  /** A state in which a rank calls the checker while it does one thing: before and after, and in
      the middle. */
  ghost predicate CalledAt(cfg: Config, m: Model, w: World, me: RankId, u: Rank)
    requires me < |w|
  {
    || u == w[me]
    || (exists l, msgs :: InStart(cfg, m, w, me, l, msgs, u))
    || (exists ev, msgs :: InHandler(cfg, m, w, me, ev, msgs, u))
    || (exists ev, antis :: InStraggler(cfg, w, me, ev, antis, u))
    || (exists anti :: InCancel(w, me, anti, u))
    || (exists anti, antis :: InCancelRollback(cfg, w, me, anti, antis, u))
  }

  lemma StartAccepted(cfg: Config, m: Model, w: World, me: RankId, l: LPId, msgs: seq<Event>, u: Rank)
    requires GoodModel(m) && Reachable(cfg, m, w) && InStart(cfg, m, w, me, l, msgs, u)
    ensures Clauses(cfg, u)
  {
    hide Reachable, SendEvent, NetOk, Clauses, LpClauses, Grows, DisciplinedModel, Replays, SendsLogged, TombsOk, FloorOk, Placed,
         LedgerOk, LedgerOf, WorldOk, InTime;
    RankParts(cfg, m, w, me);
    var r := w[me];
    var open := r.(past := r.past[l := r.past[l].(started := true)]);
    forall i | 0 <= i < |msgs| ensures OwnMessage(l, msgs[i]) { assert msgs[i] in m.start(l); }
    SameNetKept(cfg, r, open) by { StartedNet(r, l, open); }
    SendAllNet(cfg, me, open, l, msgs);
    var ctx, log, more := SendAllShape(cfg, me, open, l, msgs);
    InTimeClauses(r.past[l].committed, ctx);
    OthersAccept(cfg, m, r, l, u);
  }

  lemma StartedNet(r: Rank, l: LPId, open: Rank)
    requires Hosts(r, l) && open == r.(past := r.past[l := r.past[l].(started := true)])
    ensures SameNet(r, open)
  {
  }

  lemma HandlerAccepted(cfg: Config, m: Model, w: World, me: RankId, ev: Event, msgs: seq<Event>, u: Rank)
    requires GoodModel(m) && Reachable(cfg, m, w) && InHandler(cfg, m, w, me, ev, msgs, u)
    ensures Clauses(cfg, u)
  {
    hide Reachable, NetOk, Clauses, DisciplinedModel, CausalModel, LpOk, AllOk, MayTake, LogListsLive, PastBelow, SendAll;
    TakenParts(cfg, m, w, me, ev);
    CheckerAcceptsInHandler(cfg, m, me, TakePending(w[me], ev), ev, msgs);
  }

  lemma StragglerAccepted(cfg: Config, m: Model, w: World, me: RankId, ev: Event, antis: seq<Event>, u: Rank)
    requires GoodModel(m) && Reachable(cfg, m, w) && InStraggler(cfg, w, me, ev, antis, u)
    ensures Clauses(cfg, u)
  {
    hide Reachable, NetOk, Clauses, GoodModel, LpOk, AllOk, MayTake, LogListsLive, PastBelow, SendAll, Rewound, RollbackAntis;
    TakenParts(cfg, m, w, me, ev);
    CheckerAcceptsInRollback(cfg, m, me, TakePending(w[me], ev), ev.dst, ev.ts, antis);
  }

  lemma BuriedParts(cfg: Config, m: Model, w: World, me: RankId, anti: Event)
    requires GoodModel(m) && Reachable(cfg, m, w) && me < |w| && InCancel(w, me, anti, Bury(TakePending(w[me], anti), anti))
    ensures
      var r := Bury(TakePending(w[me], anti), anti);
      LpsOk(cfg, m, r) && NetOk(cfg, r) && !r.aborted && r.lps == w[me].lps && r.past == w[me].past
  {
    hide Reachable, NetOk, GoodModel, LpOk, AllOk, MayTake, LogListsLive, PastBelow, Grows;
    TakenParts(cfg, m, w, me, anti);
    var r := TakePending(w[me], anti);
    SamePastNet(r, Bury(r, anti));
    SameNetKept(cfg, r, Bury(r, anti));
  }

  lemma CancelAccepted(cfg: Config, m: Model, w: World, me: RankId, anti: Event, antis: seq<Event>, u: Rank)
    requires GoodModel(m) && Reachable(cfg, m, w) && InCancelRollback(cfg, w, me, anti, antis, u)
    ensures Clauses(cfg, u)
  {
    hide Reachable, NetOk, Clauses, GoodModel, LpOk, MayTake, LogListsLive, PastBelow, SendAll, Rewound, RollbackAntis, FindProcessed,
         RanksOk, LedgerOk, LedgerOf, Placed, AccountIn, Bury;
    TakenParts(cfg, m, w, me, anti);
    BuriedParts(cfg, m, w, me, anti);
    var taken := w[me := TakePending(w[me], anti)];
    FoundAt(cfg, taken, me, anti);
    CheckerAcceptsInRollback(cfg, m, me, Bury(TakePending(w[me], anti), anti), anti.dst, anti.ts, antis);
  }

  /** The checker never fires: at every call site of every run it accepts exactly when no 64-bit
      counter has run out. */
  lemma CheckerNeverFires(cfg: Config, m: Model, w: World, me: RankId, u: Rank)
    requires GoodModel(m) && Reachable(cfg, m, w) && me < |w| && CalledAt(cfg, m, w, me, u)
    ensures Accepts(cfg, u) <==> forall l :: l in u.lps ==> CountersLeft(u.lps[l])
  {
    hide Reachable, GoodModel, Clauses, InStart, InHandler, InStraggler, InCancelRollback, LpsOk, NetOk;
    if u == w[me] {
      CheckerAccepts(cfg, m, w, me);
    } else if l, msgs :| InStart(cfg, m, w, me, l, msgs, u) {
      StartAccepted(cfg, m, w, me, l, msgs, u);
    } else if ev, msgs :| InHandler(cfg, m, w, me, ev, msgs, u) {
      HandlerAccepted(cfg, m, w, me, ev, msgs, u);
    } else if ev, antis :| InStraggler(cfg, w, me, ev, antis, u) {
      StragglerAccepted(cfg, m, w, me, ev, antis, u);
    } else if anti :| InCancel(w, me, anti, u) {
      BuriedParts(cfg, m, w, me, anti);
      RankClauses(cfg, m, u);
    } else {
      var anti, antis :| InCancelRollback(cfg, w, me, anti, antis, u);
      CancelAccepted(cfg, m, w, me, anti, antis, u);
    }
  }

  /** In the middle of a send, before it is logged, the checker sees what it sees afterwards. */
  lemma LoggingIsUnseen(cfg: Config, r: Rank, ev: Event)
    requires Hosts(r, ev.src)
    ensures Accepts(cfg, LogSend(r, ev)) <==> Accepts(cfg, r)
  {
    hide QueueClause, InflightClauses, LpClauses, CountersLeft;
    var u := LogSend(r, ev);
    assert u.lps.Keys == r.lps.Keys;
    forall l | l in r.lps
      ensures LpClauses(u.lps[l]) <==> LpClauses(r.lps[l])
      ensures CountersLeft(u.lps[l]) <==> CountersLeft(r.lps[l])
    {
      SameView(r.lps[l], u.lps[l]);
    }
    SameQueue(r, u);
  }

  lemma SameView(a: LpContext, b: LpContext)
    requires b == a.(sentLog := b.sentLog)
    ensures LpClauses(a) <==> LpClauses(b)
    ensures CountersLeft(a) <==> CountersLeft(b)
  {
  }

  lemma SameQueue(r: Rank, u: Rank)
    requires u.pending == r.pending && u.inflight == r.inflight && u.inflightTs == r.inflightTs
    ensures QueueClause(u) <==> QueueClause(r)
    ensures InflightClauses(u) <==> InflightClauses(r)
  {
  }
}
