/** What only ever grows: the GVT, the committed history of every LP, the events it has sent, and
    the committed output. */
module History {
  import opened Stamps
  import opened Events
  import opened Models
  import opened Flush
  import opened Kernel
  import opened Replay
  import opened LpInvariant
  import opened LpSteps
  import opened RankSteps
  import opened Ledgers
  import opened Books
  import opened Tombs
  import opened Floor
  import opened Handling
  import opened AntiDispatch
  import opened Worlds
  import opened Moves
  import opened Network
  import opened Pruning
  import opened Gvt
  import opened Collecting
  import opened Runs
  import opened Collections

  ghost predicate LaterPast(p: LpPast, q: LpPast) {
    p.committed <= q.committed && p.pruned <= q.pruned && p.sent <= q.sent && (p.started ==> q.started)
  }

  ghost predicate LaterRank(r: Rank, u: Rank) {
    && r.lastGvt.Le(u.lastGvt)
    && u.past.Keys == r.past.Keys
    && (forall l :: l in r.past ==> LaterPast(r.past[l], u.past[l]))
    && r.output <= u.output
  }

  /** An operation that neither advances GVT nor prunes. */
  ghost predicate NoPrune(r: Rank, u: Rank) {
    && u.lastGvt == r.lastGvt && u.output == r.output && u.past.Keys == r.past.Keys
    && forall l :: l in r.past ==>
         && u.past[l].committed == r.past[l].committed && u.past[l].pruned == r.past[l].pruned
         && r.past[l].sent <= u.past[l].sent && (r.past[l].started ==> u.past[l].started)
  }

  lemma LaterAgain(r: Rank, u: Rank, v: Rank)
    requires LaterRank(r, u) && LaterRank(u, v)
    ensures LaterRank(r, v)
  {
  }

  lemma NoPruneAgain(r: Rank, u: Rank, v: Rank)
    requires NoPrune(r, u) && NoPrune(u, v)
    ensures NoPrune(r, v)
  {
  }

  lemma NoPruneIsLater(r: Rank, u: Rank)
    requires NoPrune(r, u)
    ensures LaterRank(r, u)
  {
  }

  lemma ExecuteLater(cfg: Config, m: Model, me: RankId, r: Rank, ev: Event)
    requires CausalModel(m) && Hosts(r, ev.dst) && !ev.isAnti
    requires UidsInStep(r.lps[ev.dst], r.past[ev.dst])
    requires !Execute(cfg, m, me, r, ev).aborted
    ensures NoPrune(r, Execute(cfg, m, me, r, ev))
  {
    hide Execute, RunFrame;
    var ctx, log, more := ExecuteShape(cfg, m, me, r, ev);
  }

  lemma RollbackLater(cfg: Config, m: Model, me: RankId, r: Rank, l: LPId, to: TimeStamp)
    requires LpsOk(cfg, m, r) && l in r.lps && !r.aborted
    ensures NoPrune(r, Rollback(cfg, me, r, l, to))
  {
    hide LpOk, Rollback, UndoCancels;
    RollbackShape(cfg, m, me, r, l, to);
  }

  lemma DispatchAntiLater(cfg: Config, m: Model, me: RankId, r: Rank, ev: Event)
    requires LpsOk(cfg, m, r) && !r.aborted && ev.dst in r.lps
    ensures NoPrune(r, DispatchAnti(cfg, me, r, ev))
  {
    hide Rollback, FindProcessed, LpOk, AntiRecord;
    var l := ev.dst;
    var x := Bury(r, ev);
    if FindProcessed(r.lps[l].processed, KeyOf(ev)).Some? {
      RollbackLater(cfg, m, me, x, l, FindProcessed(r.lps[l].processed, KeyOf(ev)).value);
    }
  }

  lemma DispatchLater(cfg: Config, m: Model, me: RankId, r: Rank, ev: Event)
    requires CausalModel(m) && LpsOk(cfg, m, r) && !r.aborted
    requires !Dispatch(cfg, m, me, r, ev).aborted
    ensures NoPrune(r, Dispatch(cfg, m, me, r, ev))
  {
    hide Rollback, DispatchAnti, Execute, InTime, Replays, SendsLogged, CausalModel, NoPrune;
    var l := ev.dst;
    if ev.ts.Lt(r.lps[l].vt) {
      RollbackLater(cfg, m, me, r, l, ev.ts);
      EnqueueLater(r, Rollback(cfg, me, r, l, ev.ts), ev);
    } else if ev.isAnti {
      DispatchAntiLater(cfg, m, me, r, ev);
    } else {
      ExecuteLater(cfg, m, me, r, ev);
    }
  }

  lemma EnqueueLater(r: Rank, u: Rank, ev: Event)
    requires NoPrune(r, u)
    ensures NoPrune(r, Enqueue(u, ev))
  {
  }

  lemma StartLater(cfg: Config, m: Model, me: RankId, r: Rank, l: LPId)
    requires CausalModel(m) && LpsOk(cfg, m, r) && Hosts(r, l)
    requires !StartLp(cfg, m, me, r, l).aborted
    ensures NoPrune(r, StartLp(cfg, m, me, r, l))
  {
    hide StartLp, LpOk;
    var ctx, log, more := StartShape(cfg, m, me, r, l);
  }

  lemma AdvanceLater(r: Rank, g: TimeStamp)
    requires r.lastGvt.Le(g)
    ensures LaterRank(r, Advance(r, g))
  {
    hide Released, Fossils, FossilSends;
  }

  ghost predicate LaterWorld(w: World, u: World) {
    |u| == |w| && forall r :: 0 <= r < |w| ==> LaterRank(w[r], u[r])
  }

  lemma LaterWith(w: World, me: RankId, u: Rank)
    requires me < |w| && NoPrune(w[me], u)
    ensures LaterWorld(w, w[me := u])
  {
    hide LaterRank, NoPrune;
    forall r | 0 <= r < |w| ensures LaterRank(w[r], w[me := u][r]) {
      if r == me { NoPruneIsLater(w[me], u); } else { LaterSelf(w[r]); }
    }
  }

  lemma LaterSelf(r: Rank)
    ensures LaterRank(r, r)
  {
  }

  lemma CollectOneLater(cfg: Config, r: Rank, white: int, g: TimeStamp)
    ensures LaterRank(r, CollectOne(cfg, r, white, g))
  {
    hide Prune, LaterRank;
    LaterSelf(r);
    if !g.Lt(r.lastGvt) {
      AdvanceLater(r, g);
      PhaseLater(r, Advance(r, g), NextRound(r.phase));
    }
    PhaseLater(r, r, Flip(r.phase));
  }

  lemma PhaseLater(r: Rank, u: Rank, p: Phase)
    requires LaterRank(r, u)
    ensures LaterRank(r, u.(phase := p))
  {
  }

  lemma DeliveredLater(cfg: Config, w: World, from: RankId, me: RankId, ev: Event)
    requires from < |w| && me < |w|
    ensures LaterWorld(w, Delivered(cfg, w, from, me, ev))
  {
    hide LaterWorld;
    var sent := w[from := Unwire(w[from], ev)];
    LaterWith(w, from, sent[from]);
    LaterWith(sent, me, ReceiveEvent(cfg, sent[me], from, ev));
    LaterTwice(w, sent, Delivered(cfg, w, from, me, ev));
  }

  lemma HeardLater(cfg: Config, w: World, from: RankId, me: RankId, key: InflightKey)
    requires from < |w| && me < |w|
    ensures LaterWorld(w, Heard(cfg, w, from, me, key))
  {
    hide LaterWorld;
    var sent := w[from := Unack(w[from], Ack(me, key))];
    LaterWith(w, from, sent[from]);
    LaterWith(sent, me, ReceiveAck(cfg, sent[me], key));
    LaterTwice(w, sent, Heard(cfg, w, from, me, key));
  }

  lemma LaterTwice(w: World, u: World, v: World)
    requires LaterWorld(w, u) && LaterWorld(u, v)
    ensures LaterWorld(w, v)
  {
    hide LaterRank;
    forall r | 0 <= r < |w| ensures LaterRank(w[r], v[r]) { LaterAgain(w[r], u[r], v[r]); }
  }

  lemma StepLater(cfg: Config, m: Model, w: World, s: Step)
    requires GoodModel(m) && WorldOk(cfg, m, w) && Enabled(cfg, w, s) && NoAbort(Next(cfg, m, w, s))
    ensures LaterWorld(w, Next(cfg, m, w, s))
  {
    hide NetsOk, Dispatch, StartLp, Delivered, Heard, LaterWorld, NoPrune, CollectOne, Prune, TombsOk, FloorOk, StartedFirst,
         Placed, LedgerOk, LedgerOf, LpsOk, Ready, Settled, IsTop, DisciplinedModel, CausalModel;
    match s {
      case Start(me, l) =>
        assert !Next(cfg, m, w, s)[me].aborted;
        assert RankOk(cfg, m, me, w[me]);
        StartLater(cfg, m, me, w[me], l);
        LaterWith(w, me, StartLp(cfg, m, me, w[me], l));
      case Receive(from, me, ev) => DeliveredLater(cfg, w, from, me, ev);
      case HearAck(from, me, key) => HeardLater(cfg, w, from, me, key);
      case Discard(me, ev) => DiscardLater(w, me, ev);
      case Take(me, ev) =>
        assert !Next(cfg, m, w, s)[me].aborted;
        assert RankOk(cfg, m, me, w[me]);
        TakeLater(cfg, m, w, me, ev);
      case Tidy(me) => TidyLater(w, me);
      case Collect => CollectLater(cfg, w);
    }
  }

  lemma CollectLater(cfg: Config, w: World)
    ensures LaterWorld(w, CollectAll(cfg, w))
  {
    hide LaterRank, CollectOne;
    forall r | 0 <= r < |w| ensures LaterRank(w[r], CollectAll(cfg, w)[r]) {
      CollectOneLater(cfg, w[r], WhiteInTransit(w), Reduced(cfg, w));
    }
  }

  lemma TidyLater(w: World, me: RankId)
    requires me < |w|
    ensures LaterWorld(w, w[me := Prune(w[me], w[me].lastGvt)])
  {
    hide LaterRank, Prune;
    TidyIsAdvance(w[me]);
    AdvanceLater(w[me], w[me].lastGvt);
    forall r | 0 <= r < |w| ensures LaterRank(w[r], w[me := Prune(w[me], w[me].lastGvt)][r]) { LaterSelf(w[r]); }
  }

  lemma DiscardLater(w: World, me: RankId, ev: Event)
    requires me < |w|
    ensures LaterWorld(w, w[me := DropPending(w[me], ev)])
  {
    hide LaterWorld;
    LaterWith(w, me, DropPending(w[me], ev));
  }

  lemma TakeLater(cfg: Config, m: Model, w: World, me: RankId, ev: Event)
    requires GoodModel(m) && me < |w| && LpsOk(cfg, m, w[me]) && !w[me].aborted
    requires !Dispatch(cfg, m, me, TakePending(w[me], ev), ev).aborted
    ensures LaterWorld(w, w[me := Dispatch(cfg, m, me, TakePending(w[me], ev), ev)])
  {
    hide Dispatch, NoPrune, LaterWorld, LpOk, DisciplinedModel, CausalModel;
    var taken := TakePending(w[me], ev);
    assert NoPrune(w[me], taken) by { TakenNoPrune(w[me], ev); }
    DispatchLater(cfg, m, me, taken, ev);
    NoPruneAgain(w[me], taken, Dispatch(cfg, m, me, taken, ev));
    LaterWith(w, me, Dispatch(cfg, m, me, taken, ev));
  }

  lemma TakenNoPrune(r: Rank, ev: Event)
    ensures NoPrune(r, TakePending(r, ev))
  {
  }

  /** Over a run no GVT ever decreases, and what has been committed, output or sent stays so. */
  lemma {:induction false} RunIsMonotone(cfg: Config, m: Model, trace: seq<World>, i: nat, j: nat)
    requires GoodModel(m) && Run(cfg, m, trace) && i <= j < |trace|
    ensures LaterWorld(trace[i], trace[j])
    decreases j - i
  {
    hide WorldOk, GoodModel, Init, Enabled, Next, NoAbort, LaterWorld;
    if i == j {
      assert LaterWorld(trace[i], trace[i]) by { LaterWorldSelf(trace[i]); }
    } else {
      RunIsMonotone(cfg, m, trace, i, j - 1);
      RunKeeps(cfg, m, trace, j - 1);
      assert StepTo(cfg, m, trace[j - 1], trace[j - 1 + 1]);
      var s :| Enabled(cfg, trace[j - 1], s) && trace[j] == Next(cfg, m, trace[j - 1], s) && NoAbort(trace[j]);
      StepLater(cfg, m, trace[j - 1], s);
      LaterTwice(trace[i], trace[j - 1], trace[j]);
    }
  }

  lemma LaterWorldSelf(w: World)
    ensures LaterWorld(w, w)
  {
    forall r | 0 <= r < |w| ensures LaterRank(w[r], w[r]) { LaterSelf(w[r]); }
  }
}
