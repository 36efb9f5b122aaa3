/** The committed output of whole runs. */
module OutputRuns {
  import opened Stamps
  import opened Events
  import opened Models
  import opened Flush
  import opened Kernel
  import opened LpInvariant
  import opened RankSteps
  import opened Ledgers
  import opened Books
  import opened Tombs
  import opened Floor
  import opened Handling
  import opened Worlds
  import opened Moves
  import opened Network
  import opened Pruning
  import opened Gvt
  import opened Collecting
  import opened Runs
  import opened History
  import opened Outputs

  ghost predicate FlushOk(r: Rank) {
    OutputOk(r) && RankStamped(r)
  }

  ghost predicate FlushesOk(w: World) {
    forall r :: 0 <= r < |w| ==> FlushOk(w[r])
  }

  lemma SameCommitted(r: Rank, u: Rank)
    requires NoPrune(r, u)
    ensures CommittedItems(u) == CommittedItems(r)
  {
    hide ItemOf, CommittedItems;
    forall x ensures x in CommittedItems(u) <==> x in CommittedItems(r) {
      CommittedHas(u, x);
      CommittedHas(r, x);
    }
  }

  lemma NoPruneFlush(r: Rank, u: Rank)
    requires FlushOk(r) && NoPrune(r, u) && RankStamped(u)
    ensures FlushOk(u)
  {
    hide RankStamped, CommittedItems;
    SameCommitted(r, u);
  }

  /** A rank whose LPs, history and output are unchanged. */
  predicate SameLogs(r: Rank, u: Rank) {
    u.lps == r.lps && u.past == r.past && u.output == r.output
  }

  lemma SameLogsFlush(r: Rank, u: Rank)
    requires FlushOk(r) && SameLogs(r, u)
    ensures FlushOk(u)
  {
    assert CommittedItems(u) == CommittedItems(r);
  }

  lemma RankIsUnique(cfg: Config, m: Model, w: World, me: RankId)
    requires WorldOk(cfg, m, w) && me < |w|
    ensures UniqueHistories(w[me]) && FloorOk(cfg, me, w[me])
  {
    hide NetsOk, LpOk, TombsOk, FloorOk, StartedFirst, LedgerOk, LedgerOf, UniqueEvents, AntisSilent, AllRecords;
    assert RankOk(cfg, m, me, w[me]);
    assert PlacedAt(cfg, me, w[me]);
    forall l | l in w[me].lps
      ensures UniqueEvents(AllRecords(w[me].lps[l], w[me].past[l])) && AntisSilent(AllRecords(w[me].lps[l], w[me].past[l]))
    {
      HistoryIsUnique(cfg, m, w, l);
    }
  }

  lemma CollectFlush(cfg: Config, m: Model, w: World, me: RankId, white: int, g: TimeStamp)
    requires WorldOk(cfg, m, w) && me < |w| && FlushOk(w[me])
    ensures FlushOk(CollectOne(cfg, w[me], white, g))
  {
    hide WorldOk, FlushOk, UniqueHistories, FloorOk, Prune;
    var r := w[me];
    RankIsUnique(cfg, m, w, me);
    PrunedFlush(cfg, me, r, g);
    AdvanceIsPrune(r, g);
    SameLogsFlush(Prune(r, g), Advance(r, g));
    SameLogsFlush(r, r.(phase := Flip(r.phase)));
    SameLogsFlush(Advance(r, g), Advance(r, g).(phase := NextRound(r.phase)));
  }

  lemma AdvanceIsPrune(r: Rank, g: TimeStamp)
    ensures SameLogs(Prune(r, g), Advance(r, g)) && Prune(r, g).(lastGvt := g) == Advance(r, g)
  {
    assert Released(r.(lastGvt := g), g) == Released(r, g);
  }

  lemma PrunedFlush(cfg: Config, me: RankId, r: Rank, g: TimeStamp)
    requires FlushOk(r) && FloorOk(cfg, me, r) && UniqueHistories(r)
    ensures FlushOk(Prune(r, g))
  {
    hide OutputOk, RankStamped, FloorOk, UniqueHistories, Prune;
    PruneFlushes(cfg, me, r, g);
    PruneStamped(r, g);
  }

  lemma DeliveredLogs(cfg: Config, w: World, from: RankId, me: RankId, ev: Event, q: nat)
    requires from < |w| && me < |w| && q < |w|
    ensures SameLogs(w[q], Delivered(cfg, w, from, me, ev)[q])
  {
    hide ReceiveEvent;
    ReceivedFields(cfg, w[from := Unwire(w[from], ev)][me], from, ev);
  }

  lemma HeardLogs(cfg: Config, w: World, from: RankId, me: RankId, key: InflightKey, q: nat)
    requires from < |w| && me < |w| && q < |w|
    ensures SameLogs(w[q], Heard(cfg, w, from, me, key)[q])
  {
    hide ReceiveAck;
    HeardFields(cfg, w[from := Unack(w[from], Ack(me, key))][me], key);
  }

  lemma TakeFlush(cfg: Config, m: Model, me: RankId, r: Rank, ev: Event)
    requires CausalModel(m) && LpsOk(cfg, m, r) && !r.aborted && FlushOk(r)
    requires !Dispatch(cfg, m, me, TakePending(r, ev), ev).aborted
    ensures FlushOk(Dispatch(cfg, m, me, TakePending(r, ev), ev))
  {
    hide Dispatch, LpOk, OutputOk, RankStamped, CausalModel, NoPrune;
    var t := TakePending(r, ev);
    SameLogsFlush(r, t);
    DispatchLater(cfg, m, me, t, ev);
    DispatchStamped(cfg, m, me, t, ev);
    NoPruneFlush(t, Dispatch(cfg, m, me, t, ev));
  }

  lemma StartFlush(cfg: Config, m: Model, me: RankId, r: Rank, l: LPId)
    requires CausalModel(m) && LpsOk(cfg, m, r) && Hosts(r, l) && FlushOk(r)
    requires !StartLp(cfg, m, me, r, l).aborted
    ensures FlushOk(StartLp(cfg, m, me, r, l))
  {
    hide StartLp, LpOk, OutputOk, RankStamped, CausalModel, NoPrune;
    StartLater(cfg, m, me, r, l);
    StartStamped(cfg, m, me, r, l);
    NoPruneFlush(r, StartLp(cfg, m, me, r, l));
  }

  lemma StepFlushes(cfg: Config, m: Model, w: World, s: Step)
    requires GoodModel(m) && WorldOk(cfg, m, w) && FlushesOk(w)
    requires Enabled(cfg, w, s) && NoAbort(Next(cfg, m, w, s))
    ensures FlushesOk(Next(cfg, m, w, s))
  {
    hide WorldOk, FlushOk, Dispatch, StartLp, Delivered, Heard, CollectOne, Prune, MayCollect, CausalModel, DisciplinedModel,
         Ready, Settled, IsTop, LpsOk, SameLogs;
    var u := Next(cfg, m, w, s);
    forall q | 0 <= q < |u| ensures FlushOk(u[q]) {
      assert !u[q].aborted;
      RankFacts(cfg, m, w, q);
      match s {
        case Start(me, l) => if q == me { StartFlush(cfg, m, me, w[me], l); }
        case Receive(from, me, ev) =>
          DeliveredLogs(cfg, w, from, me, ev, q);
          SameLogsFlush(w[q], u[q]);
        case HearAck(from, me, key) =>
          HeardLogs(cfg, w, from, me, key, q);
          SameLogsFlush(w[q], u[q]);
        case Discard(me, ev) => SameLogsFlush(w[q], u[q]) by { DiscardLogs(w, me, ev, q); }
        case Take(me, ev) => if q == me { TakeFlush(cfg, m, me, w[me], ev); }
        case Tidy(me) => if q == me { TidyFlush(cfg, m, w, me); }
        case Collect => CollectFlush(cfg, m, w, q, WhiteInTransit(w), Reduced(cfg, w));
      }
    }
  }

  lemma TidyFlush(cfg: Config, m: Model, w: World, me: RankId)
    requires WorldOk(cfg, m, w) && me < |w| && FlushOk(w[me])
    ensures FlushOk(Prune(w[me], w[me].lastGvt))
  {
    hide WorldOk, FlushOk, UniqueHistories, FloorOk, Prune;
    RankIsUnique(cfg, m, w, me);
    PrunedFlush(cfg, me, w[me], w[me].lastGvt);
  }

  lemma DiscardLogs(w: World, me: RankId, ev: Event, q: nat)
    requires me < |w| && q < |w|
    ensures SameLogs(w[q], w[me := DropPending(w[me], ev)][q])
  {
  }

  lemma RankFacts(cfg: Config, m: Model, w: World, q: nat)
    requires WorldOk(cfg, m, w) && q < |w|
    ensures LpsOk(cfg, m, w[q]) && !w[q].aborted
  {
    hide LpsOk, NetsOk, LedgerOk, LedgerOf, Placed, TombsOk, FloorOk, StartedFirst;
    assert RankOk(cfg, m, q, w[q]);
  }

  lemma FreshFlush(cfg: Config, m: Model, me: RankId)
    ensures FlushOk(FreshRank(cfg, m, me))
  {
    assert CommittedItems(FreshRank(cfg, m, me)) == {};
  }

  lemma {:induction false} RunFlushes(cfg: Config, m: Model, trace: seq<World>, i: nat)
    requires GoodModel(m) && Run(cfg, m, trace) && i < |trace|
    ensures FlushesOk(trace[i])
    decreases i
  {
    hide WorldOk, GoodModel, Enabled, Next, NoAbort, FlushOk, FreshRank;
    if i == 0 {
      forall r | 0 <= r < |trace[0]| ensures FlushOk(trace[0][r]) { FreshFlush(cfg, m, r); }
    } else {
      RunFlushes(cfg, m, trace, i - 1);
      RunKeeps(cfg, m, trace, i - 1);
      assert StepTo(cfg, m, trace[i - 1], trace[i - 1 + 1]);
      var s :| Enabled(cfg, trace[i - 1], s) && trace[i] == Next(cfg, m, trace[i - 1], s) && NoAbort(trace[i]);
      StepFlushes(cfg, m, trace[i - 1], s);
    }
  }

  /** At every moment of a run, and after a last flush at any stamp, a rank's output is the list of
      the outputs of its committed records in strictly ascending order, so each exactly once. */
  lemma OutputIsCommitted(cfg: Config, m: Model, w: World, me: RankId, last: TimeStamp)
    requires GoodModel(m) && Reachable(cfg, m, w) && me < |w|
    ensures w[me].output == InOrder(CommittedItems(w[me])) && Ascending(w[me].output)
    ensures Prune(w[me], last).output == InOrder(CommittedItems(Prune(w[me], last)))
    ensures w[me].output <= Prune(w[me], last).output
  {
    hide WorldOk, GoodModel, StepTo, Init, CommittedItems, RankStamped, FloorOk, UniqueHistories, Released, Ascending;
    var trace :| Run(cfg, m, trace) && trace[|trace| - 1] == w;
    RunFlushes(cfg, m, trace, |trace| - 1);
    RunKeeps(cfg, m, trace, |trace| - 1);
    assert FlushOk(w[me]);
    RankIsUnique(cfg, m, w, me);
    PrunedFlush(cfg, me, w[me], last);
    OutputAscends(w[me]);
  }

  /** An output of a committed record, under the stamp of the record's event. */
  ghost predicate CommittedOutput(r: Rank, x: FlushItem) {
    exists l, i, j :: l in r.past && 0 <= i < |r.past[l].committed| && 0 <= j < |r.past[l].committed[i].committed|
      && IsOutput(l, r.past[l].committed[i], j, x) && x.ts == r.past[l].committed[i].ev.ts
  }

  /** What has gone out is in the documented order, field by field, and is exactly the outputs of the
      committed records, each under its LP, its event's stamp, source and uid, and its place among
      the event's outputs. */
  lemma OutputInOrder(cfg: Config, m: Model, w: World, me: RankId)
    requires GoodModel(m) && Reachable(cfg, m, w) && me < |w|
    ensures InFlushOrder(w[me].output)
    ensures forall x :: x in w[me].output <==> CommittedOutput(w[me], x)
  {
    hide Reachable, GoodModel, CommittedItems, Prune, InFlushOrder, Ascending;
    OutputIsCommitted(cfg, m, w, me, ZERO);
    AscendingIsFlushOrder(w[me].output);
    RankIsStamped(cfg, m, w, me);
    forall x ensures x in w[me].output <==> CommittedOutput(w[me], x) { ItemIsOutput(w[me], x); }
  }

  lemma ItemIsOutput(r: Rank, x: FlushItem)
    requires RankStamped(r)
    ensures x in CommittedItems(r) <==> CommittedOutput(r, x)
  {
    if x in CommittedItems(r) {
      var l, i, j :| l in r.past && 0 <= i < |r.past[l].committed| && 0 <= j < |r.past[l].committed[i].committed|
        && x == OutputItem(l, r.past[l].committed[i], j);
      assert RecordStamped(r.past[l].committed[i]);
      assert IsOutput(l, r.past[l].committed[i], j, x);
    }
    if CommittedOutput(r, x) {
      var l, i, j :| l in r.past && 0 <= i < |r.past[l].committed| && 0 <= j < |r.past[l].committed[i].committed|
        && IsOutput(l, r.past[l].committed[i], j, x) && x.ts == r.past[l].committed[i].ev.ts;
      assert OutputItem(l, r.past[l].committed[i], j) in CommittedItems(r);
    }
  }

  /** Every output carries the stamp of its event. */
  lemma RankIsStamped(cfg: Config, m: Model, w: World, me: RankId)
    requires GoodModel(m) && Reachable(cfg, m, w) && me < |w|
    ensures RankStamped(w[me])
  {
    hide WorldOk, GoodModel, StepTo, Init, OutputOk, RankStamped;
    var trace :| Run(cfg, m, trace) && trace[|trace| - 1] == w;
    RunFlushes(cfg, m, trace, |trace| - 1);
    assert FlushOk(w[me]);
  }

  lemma OutputAscends(r: Rank)
    requires OutputOk(r) && UniqueHistories(r)
    ensures Ascending(r.output)
  {
    hide CommittedItems, Released, UniqueHistories;
    ItemsDistinct(r, ZERO);
    SubsetDistinct(CommittedItems(r) + Released(r, ZERO), CommittedItems(r));
    InOrderAscends(CommittedItems(r));
  }
}
