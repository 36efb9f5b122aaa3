/** What class Simulation does with a message is a sequence of steps of the transition system, so
    everything proved about runs holds for the methods. */
module Conformance {
  import opened Stamps
  import opened Events
  import opened Models
  import opened Kernel
  import opened Worlds
  import opened SimulationFacts
  import opened Flush
  import opened Network
  import opened Gvt
  import opened Collecting

  /** Some steps lead from one state of all ranks to another. */
  ghost predicate Leads(cfg: Config, m: Model, w: World, u: World) {
    exists trace :: StepsAlong(cfg, m, trace) && trace[0] == w && trace[|trace| - 1] == u
  }

  ghost predicate StepsAlong(cfg: Config, m: Model, trace: seq<World>) {
    |trace| > 0 && forall i :: 0 <= i < |trace| - 1 ==> StepTo(cfg, m, trace[i], trace[i + 1])
  }

  lemma LeadsNowhere(cfg: Config, m: Model, w: World)
    ensures Leads(cfg, m, w, w)
  {
    assert StepsAlong(cfg, m, [w]);
    assert [w][0] == w && [w][|[w]| - 1] == w;
  }

  lemma LeadsOn(cfg: Config, m: Model, w: World, u: World, v: World)
    requires Leads(cfg, m, w, u) && StepTo(cfg, m, u, v)
    ensures Leads(cfg, m, w, v)
  {
    hide StepTo;
    var trace :| StepsAlong(cfg, m, trace) && trace[0] == w && trace[|trace| - 1] == u;
    var more := trace + [v];
    forall i | 0 <= i < |more| - 1 ensures StepTo(cfg, m, more[i], more[i + 1]) {
      if i < |trace| - 1 { assert more[i] == trace[i] && more[i + 1] == trace[i + 1]; }
    }
    assert StepsAlong(cfg, m, more) && more[0] == w && more[|more| - 1] == v;
  }

  /** Where steps lead from a reachable state is reachable. */
  lemma LeadsToReachable(cfg: Config, m: Model, w: World, u: World)
    requires Reachable(cfg, m, w) && Leads(cfg, m, w, u)
    ensures Reachable(cfg, m, u)
  {
    hide StepTo, Init;
    var run :| Run(cfg, m, run) && run[|run| - 1] == w;
    var trace :| StepsAlong(cfg, m, trace) && trace[0] == w && trace[|trace| - 1] == u;
    var all := run + trace[1..];
    forall i | 0 <= i < |all| - 1 ensures StepTo(cfg, m, all[i], all[i + 1]) {
      if i < |run| - 1 {
        assert all[i] == run[i] && all[i + 1] == run[i + 1];
      } else {
        var j := i - (|run| - 1);
        assert all[i] == trace[j] && all[i + 1] == trace[j + 1];
      }
    }
    assert all[0] == run[0] && all[|all| - 1] == u;
    assert Run(cfg, m, all);
  }

  /** Throwing away a cancelled event at the head of the queue is a step. */
  lemma DiscardIsStep(cfg: Config, m: Model, w: World, me: RankId, ev: Event)
    requires me < |w| && Ready(w[me]) && NoAbort(w) && IsTop(w[me].pending, ev) && Tombstoned(w[me], ev)
    ensures StepTo(cfg, m, w, w[me := DropPending(w[me], ev)]) && NoAbort(w[me := DropPending(w[me], ev)])
  {
    hide Ready, IsTop, Tombstoned;
    var after := w[me := DropPending(w[me], ev)];
    assert Enabled(cfg, w, Discard(me, ev)) && after == Next(cfg, m, w, Discard(me, ev));
    assert NoAbort(after);
  }

  /** The last of some cancelled events thrown away. */
  lemma LastDrop(r: Rank, drops: seq<Event>, n: nat)
    requires Droppable(r, drops) && |drops| == n + 1
    ensures DropAll(r, drops) == DropPending(DropAll(r, drops[..n]), drops[n])
    ensures IsTop(DropAll(r, drops[..n]).pending, drops[n]) && Tombstoned(DropAll(r, drops[..n]), drops[n])
  {
    hide IsTop, Tombstoned;
  }

  lemma NoDrops(cfg: Config, m: Model, w: World, me: RankId)
    requires me < |w| && NoAbort(w)
    ensures Leads(cfg, m, w, w[me := DropAll(w[me], [])]) && NoAbort(w[me := DropAll(w[me], [])])
  {
    hide Leads, NoAbort;
    LeadsNowhere(cfg, m, w);
    assert w[me := w[me]] == w;
  }

  /** A rank that has thrown away some of its cancelled events. */
  lemma {:induction false} DropsLead(cfg: Config, m: Model, w: World, me: RankId, drops: seq<Event>)
    requires me < |w| && Ready(w[me]) && NoAbort(w) && Droppable(w[me], drops)
    ensures Leads(cfg, m, w, w[me := DropAll(w[me], drops)]) && NoAbort(w[me := DropAll(w[me], drops)])
    decreases |drops|
  {
    hide Ready, Leads, IsTop, Tombstoned, NoAbort, Droppable, DropAll, DropPending, StepTo;
    if |drops| == 0 {
      assert drops == [];
      NoDrops(cfg, m, w, me);
    } else {
      var n := |drops| - 1;
      var before := w[me := DropAll(w[me], drops[..n])];
      DropsPrefix(w[me], drops, n);
      DropsLead(cfg, m, w, me, drops[..n]);
      DropsFields(w[me], drops[..n]);
      LastDrop(w[me], drops, n);
      SameReady(w[me], before[me]);
      DiscardIsStep(cfg, m, before, me, drops[n]);
      assert w[me := DropAll(w[me], drops)] == before[me := DropPending(before[me], drops[n])];
      LeadsOn(cfg, m, w, before, w[me := DropAll(w[me], drops)]);
    }
  }

  lemma DropsPrefix(r: Rank, drops: seq<Event>, n: nat)
    requires Droppable(r, drops) && n <= |drops|
    ensures Droppable(r, drops[..n])
  {
    hide IsTop, Tombstoned;
    var front := drops[..n];
    forall i | 0 <= i < n
      ensures IsTop(DropAll(r, front[..i]).pending, front[i]) && Tombstoned(DropAll(r, front[..i]), front[i])
    {
      assert front[..i] == drops[..i] && front[i] == drops[i];
    }
  }

  lemma SameReady(r: Rank, u: Rank)
    requires Ready(r) && u.past == r.past
    ensures Ready(u)
  {
  }

  /** One turn of the main loop on a rank's queue: what PopNext and DispatchMessage guarantee about
      the cancelled events thrown away, the message popped and the state it is dispatched to, makes
      the turn a sequence of steps. */
  lemma TurnIsSteps(cfg: Config, m: Model, w: World, me: RankId, drops: seq<Event>, ev: Event, popped: Rank, u: Rank)
    requires me < |w| && Ready(w[me]) && NoAbort(w) && Droppable(w[me], drops)
    requires
      var r := DropAll(w[me], drops);
      IsTop(r.pending, ev) && (ev.isAnti || !Tombstoned(r, ev)) && popped == TakePending(r, ev)
    requires u == Dispatch(cfg, m, me, popped, ev) && !u.aborted
    ensures Leads(cfg, m, w, w[me := u])
  {
    hide Ready, Leads, IsTop, Tombstoned, Dispatch, Droppable, DropAll;
    DropsLead(cfg, m, w, me, drops);
    DropsFields(w[me], drops);
    var before := w[me := DropAll(w[me], drops)];
    SameReady(w[me], before[me]);
    var after := w[me := u];
    assert after == before[me := u];
    assert StepTo(cfg, m, before, after) by {
      assert Enabled(cfg, before, Take(me, ev)) && after == Next(cfg, m, before, Take(me, ev));
      assert NoAbort(after);
    }
    LeadsOn(cfg, m, w, before, after);
  }

  /* ---- Start-up and delivery ---- */

  /** What Start leaves behind is a start-up step. */
  lemma StartIsStep(cfg: Config, m: Model, w: World, me: RankId, l: LPId, u: Rank)
    requires MayStart(w, me, l) && NoAbort(w) && u == StartLp(cfg, m, me, w[me], l) && !u.aborted
    ensures StepTo(cfg, m, w, w[me := u])
  {
    hide StartLp, MayStart;
    assert me < |w| by { StartsInside(w, me, l); }
    var after := w[me := u];
    assert Enabled(cfg, w, Start(me, l)) && after == Next(cfg, m, w, Start(me, l));
    assert NoAbort(after);
  }

  lemma StartsInside(w: World, me: RankId, l: LPId)
    requires MayStart(w, me, l)
    ensures me < |w| && Hosts(w[me], l)
  {
  }

  /** The transport takes a message from one rank's outgoing bag, and what PollEvent leaves behind on
      its destination completes a delivery step. */
  lemma PollEventIsStep(cfg: Config, m: Model, w: World, from: RankId, me: RankId, ev: Event, u: Rank)
    requires MayReceive(cfg, w, from, me, ev) && NoAbort(w)
    requires u == ReceiveEvent(cfg, w[from := Unwire(w[from], ev)][me], from, ev)
    ensures StepTo(cfg, m, w, w[from := Unwire(w[from], ev)][me := u])
  {
    hide Ready;
    var after := w[from := Unwire(w[from], ev)][me := u];
    ReceivedFields(cfg, w[from := Unwire(w[from], ev)][me], from, ev);
    assert Enabled(cfg, w, Receive(from, me, ev)) && after == Next(cfg, m, w, Receive(from, me, ev));
    assert NoAbort(after);
  }

  /** So does PollAck for an acknowledgement. */
  lemma PollAckIsStep(cfg: Config, m: Model, w: World, from: RankId, me: RankId, key: InflightKey, u: Rank)
    requires MayHear(w, from, me, key) && NoAbort(w)
    requires u == ReceiveAck(cfg, w[from := Unack(w[from], Ack(me, key))][me], key)
    ensures StepTo(cfg, m, w, w[from := Unack(w[from], Ack(me, key))][me := u])
  {
    hide Ready;
    var after := w[from := Unack(w[from], Ack(me, key))][me := u];
    HeardFields(cfg, w[from := Unack(w[from], Ack(me, key))][me], key);
    assert Enabled(cfg, w, HearAck(from, me, key)) && after == Next(cfg, m, w, HearAck(from, me, key));
    assert NoAbort(after);
  }

  /* ---- The collective ---- */

  lemma LeadsThrough(cfg: Config, m: Model, w: World, u: World, v: World)
    requires Leads(cfg, m, w, u) && Leads(cfg, m, u, v)
    ensures Leads(cfg, m, w, v)
  {
    hide StepTo;
    var a :| StepsAlong(cfg, m, a) && a[0] == w && a[|a| - 1] == u;
    var b :| StepsAlong(cfg, m, b) && b[0] == u && b[|b| - 1] == v;
    var all := a + b[1..];
    forall i | 0 <= i < |all| - 1 ensures StepTo(cfg, m, all[i], all[i + 1]) {
      if i < |a| - 1 {
        assert all[i] == a[i] && all[i + 1] == a[i + 1];
      } else {
        var j := i - (|a| - 1);
        assert all[i] == b[j] && all[i + 1] == b[j + 1];
      }
    }
    assert StepsAlong(cfg, m, all) && all[0] == w && all[|all| - 1] == v;
  }

  /** What a rank does on its own before it enters a collective: it prunes to the last GVT and throws
      away the cancelled events its peek meets. */
  ghost function Prepared(r: Rank, drops: seq<Event>): Rank {
    DropAll(Prune(r, r.lastGvt), drops)
  }

  lemma PruneKeepsReady(r: Rank, g: TimeStamp)
    requires Ready(r)
    ensures Ready(Prune(r, g)) && Prune(r, g).aborted == r.aborted
  {
    hide PruneCtx;
  }

  lemma TidyIsStep(cfg: Config, m: Model, w: World, me: RankId)
    requires me < |w| && Ready(w[me]) && NoAbort(w)
    ensures StepTo(cfg, m, w, w[me := Prune(w[me], w[me].lastGvt)]) && NoAbort(w[me := Prune(w[me], w[me].lastGvt)])
  {
    hide Ready, Prune;
    PruneKeepsReady(w[me], w[me].lastGvt);
    var after := w[me := Prune(w[me], w[me].lastGvt)];
    assert Enabled(cfg, w, Tidy(me)) && after == Next(cfg, m, w, Tidy(me));
    assert NoAbort(after);
  }

  lemma RankPrepares(cfg: Config, m: Model, w: World, me: RankId, drops: seq<Event>)
    requires me < |w| && Ready(w[me]) && NoAbort(w) && Droppable(Prune(w[me], w[me].lastGvt), drops)
    ensures Leads(cfg, m, w, w[me := Prepared(w[me], drops)]) && NoAbort(w[me := Prepared(w[me], drops)])
  {
    hide Ready, Prune, Leads, NoAbort, Droppable, DropAll, StepTo;
    var tidy := w[me := Prune(w[me], w[me].lastGvt)];
    TidyIsStep(cfg, m, w, me);
    LeadsNowhere(cfg, m, w);
    LeadsOn(cfg, m, w, w, tidy);
    PruneKeepsReady(w[me], w[me].lastGvt);
    DropsLead(cfg, m, tidy, me, drops);
    assert tidy[me := DropAll(tidy[me], drops)] == w[me := Prepared(w[me], drops)];
    LeadsThrough(cfg, m, w, tidy, w[me := Prepared(w[me], drops)]);
  }

  ghost function PreparedTo(w: World, drops: seq<seq<Event>>, n: nat): (u: World)
    requires |drops| == |w|
    ensures |u| == |w|
    ensures forall r :: 0 <= r < |w| ==> u[r] == if r < n then Prepared(w[r], drops[r]) else w[r]
  {
    seq(|w|, r requires 0 <= r < |w| => if r < n then Prepared(w[r], drops[r]) else w[r])
  }

  lemma {:induction false} RanksPrepare(cfg: Config, m: Model, w: World, drops: seq<seq<Event>>, n: nat)
    requires |drops| == |w| && n <= |w| && NoAbort(w)
    requires forall r :: 0 <= r < |w| ==> Ready(w[r]) && Droppable(Prune(w[r], w[r].lastGvt), drops[r])
    ensures Leads(cfg, m, w, PreparedTo(w, drops, n)) && NoAbort(PreparedTo(w, drops, n))
    decreases n
  {
    hide Ready, Prune, Leads, NoAbort, Droppable, Prepared;
    if n == 0 {
      LeadsNowhere(cfg, m, w);
      assert PreparedTo(w, drops, 0) == w;
    } else {
      var u := PreparedTo(w, drops, n - 1);
      RanksPrepare(cfg, m, w, drops, n - 1);
      assert u[n - 1] == w[n - 1];
      RankPrepares(cfg, m, u, n - 1, drops[n - 1]);
      assert u[n - 1 := Prepared(u[n - 1], drops[n - 1])] == PreparedTo(w, drops, n);
      LeadsThrough(cfg, m, w, u, PreparedTo(w, drops, n));
    }
  }

  lemma CollectIsStep(cfg: Config, m: Model, w: World, u: World)
    requires MayCollect(cfg, w) && |u| == |w| && NoAbort(u)
    requires forall r :: 0 <= r < |w| ==> u[r] == CollectOne(cfg, w[r], WhiteInTransit(w), Reduced(cfg, w))
    ensures StepTo(cfg, m, w, u)
  {
    hide MayCollect, CollectOne, Reduced, WhiteInTransit, NoAbort;
    assert Enabled(cfg, w, Collect);
    assert u == Next(cfg, m, w, Collect);
  }

  lemma PreparedFields(r: Rank, drops: seq<Event>)
    ensures Prepared(r, drops).past.Keys == r.past.Keys && Prepared(r, drops).phase == r.phase
    ensures Ready(r) ==> Ready(Prepared(r, drops))
    ensures Prepared(r, drops).aborted == r.aborted
  {
    hide PruneCtx, PrunePast, DropAll, InOrder, Released, Ready;
    var p := Prune(r, r.lastGvt);
    DropsFields(p, drops);
    if Ready(r) {
      PruneKeepsReady(r, r.lastGvt);
      SameReady(p, DropAll(p, drops));
    }
  }

  lemma {:induction false} SameSum(w: World, u: World)
    requires |w| == |u| && forall r :: 0 <= r < |w| ==> u[r].phase == w[r].phase
    ensures WhiteInTransit(u) == WhiteInTransit(w)
    decreases |w|
  {
    if |w| > 0 {
      var n := |w| - 1;
      SameSum(w[..n], u[..n]);
      assert WhiteInTransit(w) == WhiteInTransit(w[..n]) + WhiteDelta(w[n]);
      assert WhiteInTransit(u) == WhiteInTransit(u[..n]) + WhiteDelta(u[n]);
    }
  }

  /** Fossil collection on all ranks, in either mode: what the ranks' FossilCollect (or PruneToGvt and
      AdvanceGvtColored) guarantee, with the reductions exact over all ranks, makes it a sequence of
      prune and discard steps and one collective. */
  lemma CollectiveIsSteps(cfg: Config, m: Model, w: World, drops: seq<seq<Event>>, u: World)
    requires |drops| == |w| == |u| && NoAbort(w) && NoAbort(u)
    requires forall r :: 0 <= r < |w| ==> Ready(w[r]) && Droppable(Prune(w[r], w[r].lastGvt), drops[r])
    requires cfg.mode.AckInflight? ==> forall r :: 0 <= r < |w| ==>
      Settled(Prepared(w[r], drops[r])) && u[r] == AdvanceAck(Prepared(w[r], drops[r]), Reduced(cfg, PreparedTo(w, drops, |w|)))
    requires cfg.mode.ColoredCounters? ==> forall r :: 0 <= r < |w| ==>
      && (w[r].phase.red && WhiteInTransit(w) == 0 ==> Settled(Prepared(w[r], drops[r])))
      && u[r] == AdvanceColored(Prepared(w[r], drops[r]), WhiteInTransit(w), Reduced(cfg, PreparedTo(w, drops, |w|)))
    ensures Leads(cfg, m, w, u)
  {
    hide Ready, Prune, Leads, NoAbort, Droppable, Prepared, Settled, AdvanceAck, AdvanceColored, Reduced, StepTo, WhiteInTransit;
    var mid := PreparedTo(w, drops, |w|);
    RanksPrepare(cfg, m, w, drops, |w|);
    forall r | 0 <= r < |w| ensures mid[r].phase == w[r].phase && Ready(mid[r]) { PreparedFields(w[r], drops[r]); }
    SameSum(w, mid);
    CollectIsStep(cfg, m, mid, u);
    LeadsOn(cfg, m, w, mid, u);
  }
}
