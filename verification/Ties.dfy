/** Events of equal stamps.

    The pending queue yields them by source and uid, and docs/modeling_contract.md (section 6)
    promises that order.  The straggler test is strict, so an event that arrives after another of
    its stamp was taken up comes behind it whatever its source: the log keeps the queue's order just
    if events of one stamp arrive in it, and without distinct stamps two runs of one system may end
    in different states. */
module Ties {
  import opened Stamps
  import opened Events
  import opened Models
  import opened Kernel
  import opened Handling
  import opened LpInvariant
  import opened RankSteps
  import opened Ledgers
  import opened Books
  import opened Tombs
  import opened Floor
  import opened Worlds
  import opened Moves
  import opened Network
  import opened Gvt
  import opened Runs
  import opened Invisible
  import opened Equivalence
  import opened Conformance
  import opened Witness

  /* ---- When a log keeps the order of the queue ---- */

  ghost predicate InQueueOrder(log: seq<Record>) {
    forall i, j :: 0 <= i < j < |log| ==> !Before(log[j].ev, log[i].ev)
  }

  lemma BeforeIsTransitive(a: Event, b: Event, c: Event)
    requires !Before(b, a) && !Before(c, b)
    ensures !Before(c, a)
  {
  }

  lemma OrderSnoc(log: seq<Record>, rec: Record)
    ensures InQueueOrder(log + [rec]) <==>
      InQueueOrder(log) && (|log| == 0 || !Before(rec.ev, log[|log| - 1].ev))
  {
    hide Before;
    var n := |log|;
    var more := log + [rec];
    if InQueueOrder(more) {
      forall i, j | 0 <= i < j < n ensures !Before(log[j].ev, log[i].ev) { assert more[i] == log[i] && more[j] == log[j]; }
      if n > 0 { assert more[n - 1] == log[n - 1] && more[n] == rec; }
    }
    if InQueueOrder(log) && (n == 0 || !Before(rec.ev, log[n - 1].ev)) {
      forall i, j | 0 <= i < j < |more| ensures !Before(more[j].ev, more[i].ev) {
        if j == n && i < n - 1 { BeforeIsTransitive(log[i].ev, log[n - 1].ev, rec.ev); }
      }
    }
  }

  /** An event that is no straggler leaves the log in the queue's order just if no record of its
      own stamp should have come after it: the strict test does not look further than the stamp. */
  lemma ExecuteKeepsQueueOrder(cfg: Config, m: Model, me: RankId, r: Rank, ev: Event)
    requires CausalModel(m) && LpsOk(cfg, m, r) && ev.dst in r.lps && !ev.isAnti
    requires r.lps[ev.dst].vt.Le(ev.ts)
    requires !Dispatch(cfg, m, me, r, ev).aborted
    ensures ev.dst in Dispatch(cfg, m, me, r, ev).lps
    ensures
      var log := r.lps[ev.dst].processed;
      InQueueOrder(Dispatch(cfg, m, me, r, ev).lps[ev.dst].processed) <==>
        InQueueOrder(log) && forall i :: 0 <= i < |log| && log[i].ev.ts == ev.ts ==> !Before(ev, log[i].ev)
  {
    hide Execute, RunFrame, Replays, SendsLogged, InQueueOrder;
    var l := ev.dst;
    var log := r.lps[l].processed;
    var ctx, entries, more := ExecuteShape(cfg, m, me, r, ev);
    var f := RunFrame(m.entitySnapshots(l), OpenFrame(r.lps[l].state), m.handle(l, r.lps[l].state, ev));
    var rec := EventRecord(r.lps[l], ev, f);
    OrderSnoc(log, rec);
    LogNotAfter(cfg, m, r, l, ev.ts);
    if InQueueOrder(log) { NoneAfterJustLast(log, ev); }
  }

  /** In every run: with the log in the queue's order so far, an event about to be executed keeps it
      so just if the last event taken up at its stamp does not come after it.  That is the guard the
      straggler test leaves out. */
  lemma TakenInQueueOrder(cfg: Config, m: Model, w: World, me: RankId, ev: Event)
    requires GoodModel(m) && Reachable(cfg, m, w) && me < |w| && MayTake(w, me, ev) && !ev.isAnti
    requires ev.dst in w[me].lps && w[me].lps[ev.dst].vt.Le(ev.ts) && InQueueOrder(w[me].lps[ev.dst].processed)
    requires !Dispatch(cfg, m, me, TakePending(w[me], ev), ev).aborted
    ensures ev.dst in Dispatch(cfg, m, me, TakePending(w[me], ev), ev).lps
    ensures
      var log := w[me].lps[ev.dst].processed;
      InQueueOrder(Dispatch(cfg, m, me, TakePending(w[me], ev), ev).lps[ev.dst].processed) <==>
        (|log| == 0 || log[|log| - 1].ev.ts != ev.ts || !Before(ev, log[|log| - 1].ev))
  {
    hide GoodModel, Reachable, Dispatch, MayTake, LpOk, NetsOk, TombsOk, FloorOk, StartedFirst, LedgerOk, LedgerOf, Placed, InQueueOrder;
    ReachableOk(cfg, m, w);
    assert RankOk(cfg, m, me, w[me]);
    GoodIsCausal(m);
    ExecuteKeepsQueueOrder(cfg, m, me, TakePending(w[me], ev), ev);
    var log := w[me].lps[ev.dst].processed;
    LogNotAfter(cfg, m, w[me], ev.dst, ev.ts);
    NoneAfterJustLast(log, ev);
    LastIsAtStamp(log, ev);
  }

  lemma LastIsAtStamp(log: seq<Record>, ev: Event)
    requires forall i :: 0 <= i < |log| ==> log[i].ev.ts.Le(ev.ts)
    ensures (|log| == 0 || !Before(ev, log[|log| - 1].ev)) <==>
            (|log| == 0 || log[|log| - 1].ev.ts != ev.ts || !Before(ev, log[|log| - 1].ev))
  {
  }

  lemma LogNotAfter(cfg: Config, m: Model, r: Rank, l: LPId, ts: TimeStamp)
    requires LpsOk(cfg, m, r) && l in r.lps && r.lps[l].vt.Le(ts)
    ensures forall i :: 0 <= i < |r.lps[l].processed| ==> r.lps[l].processed[i].ev.ts.Le(ts)
  {
    hide Replays, SendsLogged, InTime;
    var all := AllRecords(r.lps[l], r.past[l]);
    assert InTime(all, r.lps[l].vt);
    RecordsNotAfter(all, r.lps[l].vt, ts);
    forall i | 0 <= i < |r.lps[l].processed| ensures r.lps[l].processed[i].ev.ts.Le(ts) {
      assert r.lps[l].processed[i] == all[|r.past[l].committed| + i];
    }
  }

  lemma RecordsNotAfter(recs: seq<Record>, vt: TimeStamp, ts: TimeStamp)
    requires InTime(recs, vt) && vt.Le(ts)
    ensures forall i :: 0 <= i < |recs| ==> recs[i].ev.ts.Le(ts)
  {
    forall i | 0 <= i < |recs| ensures recs[i].ev.ts.Le(ts) {
      if i < |recs| - 1 { assert recs[i].ev.ts.Le(recs[|recs| - 1].ev.ts); }
    }
  }

  lemma NoneAfterJustLast(log: seq<Record>, ev: Event)
    requires InQueueOrder(log) && forall i :: 0 <= i < |log| ==> log[i].ev.ts.Le(ev.ts)
    ensures (|log| == 0 || !Before(ev, log[|log| - 1].ev)) <==>
      forall i :: 0 <= i < |log| && log[i].ev.ts == ev.ts ==> !Before(ev, log[i].ev)
  {
  }

  /* ---- Two runs that end differently ---- */

  /** Two LPs on two ranks; each sends LP 1 one start-up event of one and the same stamp, and LP 1
      overwrites its entity with what it receives. */
  function TieConfig(): Config {
    Config(ColoredCounters, {0, 1}, (l: LPId) => if l == 0 then 0 else 1, None, None)
  }

  function Note(src: LPId, uid: Uid): Event {
    Event(TimeStamp(1, 1), src, 1, 0, uid, Payload(0, [if src == 0 then 0 else 1]), 0, false)
  }

  function Overwrite(l: LPId, s: LpState, e: Event): seq<Action> {
    [RequestWrite(1), Write(1, e.payload.bytes)]
  }

  function TieModel(): Model {
    Model((l: LPId) => map[1 := []], (l: LPId) => [Note(l, 0)], Overwrite, (l: LPId) => true)
  }

  lemma OverwriteScript(s: LpState, e: Event, l: LPId)
    ensures SendsOf(Overwrite(l, s, e)) == []
    ensures s.Keys == {1} ==> Disciplined(s.Keys, {}, Overwrite(l, s, e))
    ensures EmitsAt(e.ts, Overwrite(l, s, e))
    ensures RunFrame(true, OpenFrame(s), Overwrite(l, s, e)).state == s[1 := e.payload.bytes]
  {
    var ask, write := RequestWrite(1), Write(1, e.payload.bytes);
    NothingAfter(s.Keys, {1});
    assert Overwrite(l, s, e) == [ask] + ([write] + []);
    OneAfter(write, [], s.Keys, {1});
    OneAfter(ask, [write] + [], s.Keys, {});
    assert {} + {1} == {1};
    assert Overwrite(l, s, e)[1..] == [write] && [write][1..] == [];
    var asked := StepFrame(true, OpenFrame(s), ask);
    var written := StepFrame(true, asked, write);
    assert RunFrame(true, written, []) == written;
    assert RunFrame(true, asked, [write]) == written;
  }

  lemma TieIsDeterministic()
    ensures DeterministicModel(TieModel())
  {
    var m := TieModel();
    forall l: LPId, s: LpState, e: Event
      ensures SendsOf(m.handle(l, s, e)) == []
      ensures s.Keys == m.init(l).Keys ==> Disciplined(s.Keys, {}, m.handle(l, s, e))
    {
      OverwriteScript(s, e, l);
    }
    forall l: LPId, s: LpState, e: Event, f: Event | ContentOf(e) == ContentOf(f)
      ensures m.handle(l, s, e) == m.handle(l, s, f)
    {
      assert e.payload == ContentOf(e).payload;
    }
  }

  function Held(evs: seq<Event>): Bytes {
    if |evs| == 0 then [] else evs[|evs| - 1].payload.bytes
  }

  /** A rank with what the two runs look at: the events its LP has taken up, and what is waiting. */
  ghost predicate Stage(r: Rank, l: LPId, evs: seq<Event>, vt: TimeStamp, pending: multiset<Event>, wire: multiset<Event>) {
    && r.lps.Keys == {l} && r.past.Keys == {l} && r.past[l].started
    && 1 in r.lps[l].state && r.lps[l].state[1] == Held(evs) && r.lps[l].vt == vt
    && EventsOf(r.lps[l].processed) == evs && r.past[l].committed == []
    && r.pending == pending && r.wire == wire && r.cancelled == map[] && !r.aborted
  }

  /** Both ranks after start-up: LP 0's event is in transit to LP 1, whose own event is pending. */
  lemma AfterStart() returns (w: World)
    ensures Reachable(TieConfig(), TieModel(), w) && |w| == 2 && !w[0].aborted
    ensures Stage(w[0], 0, [], ZERO, multiset{}, multiset{Note(0, 1)})
    ensures Stage(w[1], 1, [], ZERO, multiset{Note(1, 1)}, multiset{})
  {
    hide StartLp, FreshRank;
    var cfg, m := TieConfig(), TieModel();
    var init := [FreshRank(cfg, m, 0), FreshRank(cfg, m, 1)];
    InitIsReachable(cfg, m, init);
    StartStage(0);
    StartStage(1);
    var one := init[0 := StartLp(cfg, m, 0, init[0], 0)];
    Onward(cfg, m, init, Start(0, 0), one);
    w := one[1 := StartLp(cfg, m, 1, one[1], 1)];
    Onward(cfg, m, one, Start(1, 1), w);
  }

  lemma StartStage(l: LPId)
    requires l < 2
    ensures
      var r := FreshRank(TieConfig(), TieModel(), l);
      && Hosts(r, l) && !r.past[l].started && !r.aborted
      && Stage(StartLp(TieConfig(), TieModel(), l, r, l), l, [], ZERO,
               if l == 0 then multiset{} else multiset{Note(1, 1)}, if l == 0 then multiset{Note(0, 1)} else multiset{})
  {
    hide Stage, SendEvent;
    var cfg, m := TieConfig(), TieModel();
    var r := FreshRank(cfg, m, l);
    assert r.lps.Keys == {l} && r.past.Keys == {l};
    var open := r.(past := r.past[l := r.past[l].(started := true)]);
    assert m.start(l) == [Note(l, 0)] && [Note(l, 0)][1..] == [];
    assert SendAll(cfg, l, open, [Note(l, 0)]) == SendAll(cfg, l, SendEvent(cfg, l, open, Note(l, 0)), []);
    assert SendAll(cfg, l, SendEvent(cfg, l, open, Note(l, 0)), []) == SendEvent(cfg, l, open, Note(l, 0));
    NoteSent(open, l);
  }

  lemma NoteSent(r: Rank, l: LPId)
    requires l < 2 && r.lps == map[l := FreshLp(map[1 := []])] && r.past.Keys == {l} && r.past[l].started
    requires r.pending == multiset{} && r.wire == multiset{} && r.cancelled == map[] && !r.aborted && r.phase.color == 0
    requires r.past[l].committed == []
    ensures Stage(SendEvent(TieConfig(), l, r, Note(l, 0)), l, [], ZERO,
                  if l == 0 then multiset{} else multiset{Note(1, 1)}, if l == 0 then multiset{Note(0, 1)} else multiset{})
  {
    hide Stamp, Post;
    var cfg := TieConfig();
    NoteStamped(r.lps[l], l);
    assert Hosts(r, l);
    var stamped := WithLp(r, l, r.lps[l].(nextUid := 2));
    assert Paint(cfg, r, Note(l, 1)) == Note(l, 1);
    NotePosted(stamped, l);
    assert SendEvent(cfg, l, r, Note(l, 0)) == LogSend(Post(cfg, l, stamped, Note(l, 1)), Note(l, 1));
  }

  lemma NotePosted(r: Rank, l: LPId)
    requires l < 2 && r.pending == multiset{} && r.wire == multiset{}
    ensures Post(TieConfig(), l, r, Note(l, 1)).pending == if l == 0 then multiset{} else multiset{Note(1, 1)}
    ensures Post(TieConfig(), l, r, Note(l, 1)).wire == if l == 0 then multiset{Note(0, 1)} else multiset{}
  {
  }

  lemma NoteStamped(ctx: LpContext, l: LPId)
    requires ctx.nextUid == 1
    ensures Stamp(TieConfig(), ctx, Note(l, 0)) == Stamping(ctx.(nextUid := 2), Note(l, 1))
  {
  }

  lemma InitIsReachable(cfg: Config, m: Model, w: World)
    requires Init(cfg, m, w)
    ensures Reachable(cfg, m, w)
  {
    hide Init;
    assert Run(cfg, m, [w]) && [w][|[w]| - 1] == w;
  }

  lemma Onward(cfg: Config, m: Model, w: World, s: Step, u: World)
    requires Reachable(cfg, m, w) && Enabled(cfg, w, s) && u == Next(cfg, m, w, s) && NoAbort(u)
    ensures Reachable(cfg, m, u)
  {
    hide Reachable, Enabled, Next, NoAbort, Leads;
    assert StepTo(cfg, m, w, u);
    LeadsNowhere(cfg, m, w);
    LeadsOn(cfg, m, w, w, u);
    LeadsToReachable(cfg, m, w, u);
  }

  lemma TakeNote(r: Rank, src: LPId, evs: seq<Event>, vt: TimeStamp, pending: multiset<Event>)
    requires src < 2 && Stage(r, 1, evs, vt, pending, multiset{}) && vt.Le(TimeStamp(1, 1))
    ensures Stage(Dispatch(TieConfig(), TieModel(), 1, TakePending(r, Note(src, 1)), Note(src, 1)),
                  1, evs + [Note(src, 1)], TimeStamp(1, 1), pending - multiset{Note(src, 1)}, multiset{})
  {
    hide RunFrame, SendsOf;
    var cfg, m := TieConfig(), TieModel();
    var ev := Note(src, 1);
    var t := TakePending(r, ev);
    OverwriteScript(t.lps[1].state, ev, 1);
    var open := WithLp(t, 1, OpenLp(t.lps[1], ev));
    assert SendAll(cfg, 1, open, []) == open;
  }

  lemma DeliverNote(w: World, evs: seq<Event>, vt: TimeStamp, pending: multiset<Event>)
    requires |w| == 2 && Stage(w[0], 0, [], ZERO, multiset{}, multiset{Note(0, 1)}) && Stage(w[1], 1, evs, vt, pending, multiset{})
    ensures
      var u := Delivered(TieConfig(), w, 0, 1, Note(0, 1));
      Stage(u[0], 0, [], ZERO, multiset{}, multiset{}) && Stage(u[1], 1, evs, vt, pending + multiset{Note(0, 1)}, multiset{})
  {
  }

  /** LP 1 takes up one of the two events, in the order of the queue. */
  lemma TakeStep(w: World, src: LPId, evs: seq<Event>, vt: TimeStamp, pending: multiset<Event>) returns (u: World)
    requires Reachable(TieConfig(), TieModel(), w) && |w| == 2 && src < 2 && vt.Le(TimeStamp(1, 1))
    requires Stage(w[1], 1, evs, vt, pending, multiset{}) && !w[0].aborted && IsTop(pending, Note(src, 1))
    ensures Reachable(TieConfig(), TieModel(), u) && |u| == 2 && u[0] == w[0]
    ensures Stage(u[1], 1, evs + [Note(src, 1)], TimeStamp(1, 1), pending - multiset{Note(src, 1)}, multiset{})
  {
    hide Dispatch, Reachable, IsTop;
    var cfg, m := TieConfig(), TieModel();
    var ev := Note(src, 1);
    TakeNote(w[1], src, evs, vt, pending);
    u := w[1 := Dispatch(cfg, m, 1, TakePending(w[1], ev), ev)];
    assert Enabled(cfg, w, Take(1, ev));
    Onward(cfg, m, w, Take(1, ev), u);
  }

  /** LP 0's event reaches the other rank. */
  lemma DeliverStep(w: World, evs: seq<Event>, vt: TimeStamp, pending: multiset<Event>) returns (u: World)
    requires Reachable(TieConfig(), TieModel(), w) && |w| == 2
    requires Stage(w[0], 0, [], ZERO, multiset{}, multiset{Note(0, 1)}) && Stage(w[1], 1, evs, vt, pending, multiset{})
    ensures Reachable(TieConfig(), TieModel(), u) && |u| == 2 && !u[0].aborted
    ensures Stage(u[0], 0, [], ZERO, multiset{}, multiset{}) && Stage(u[1], 1, evs, vt, pending + multiset{Note(0, 1)}, multiset{})
  {
    hide Delivered, Reachable;
    var cfg, m := TieConfig(), TieModel();
    DeliverNote(w, evs, vt, pending);
    u := Delivered(cfg, w, 0, 1, Note(0, 1));
    assert Enabled(cfg, w, Receive(0, 1, Note(0, 1)));
    Onward(cfg, m, w, Receive(0, 1, Note(0, 1)), u);
  }

  /** A state in which both ranks are done and LP 1 has taken up the given events. */
  ghost predicate Ended(w: World, evs: seq<Event>) {
    |w| == 2 && Stage(w[0], 0, [], ZERO, multiset{}, multiset{}) && Stage(w[1], 1, evs, TimeStamp(1, 1), multiset{}, multiset{})
  }

  lemma Alone(x: Event)
    ensures IsTop(multiset{x}, x) && multiset{x} - multiset{x} == multiset{} && multiset{} + multiset{x} == multiset{x}
    ensures [] + [x] == [x]
  {
  }

  lemma BothWaiting()
    ensures multiset{Note(1, 1)} + multiset{Note(0, 1)} == multiset{Note(0, 1), Note(1, 1)}
    ensures IsTop(multiset{Note(0, 1), Note(1, 1)}, Note(0, 1))
    ensures multiset{Note(0, 1), Note(1, 1)} - multiset{Note(0, 1)} == multiset{Note(1, 1)}
  {
  }

  lemma OwnEventFirst() returns (w: World)
    ensures Reachable(TieConfig(), TieModel(), w) && Ended(w, [Note(1, 1), Note(0, 1)])
  {
    hide Stage, Dispatch, Delivered, Reachable, IsTop, Note, TieConfig, TieModel;
    Alone(Note(1, 1));
    Alone(Note(0, 1));
    var start := AfterStart();
    var own := TakeStep(start, 1, [], ZERO, multiset{Note(1, 1)});
    var all := DeliverStep(own, [Note(1, 1)], TimeStamp(1, 1), multiset{});
    w := TakeStep(all, 0, [Note(1, 1)], TimeStamp(1, 1), multiset{Note(0, 1)});
    assert [Note(1, 1)] + [Note(0, 1)] == [Note(1, 1), Note(0, 1)];
  }

  lemma OtherEventFirst() returns (w: World)
    ensures Reachable(TieConfig(), TieModel(), w) && Ended(w, [Note(0, 1), Note(1, 1)])
  {
    hide Stage, Dispatch, Delivered, Reachable, IsTop, Note, TieConfig, TieModel;
    Alone(Note(0, 1));
    Alone(Note(1, 1));
    BothWaiting();
    var start := AfterStart();
    var both := DeliverStep(start, [], ZERO, multiset{Note(1, 1)});
    var other := TakeStep(both, 0, [], ZERO, multiset{Note(0, 1), Note(1, 1)});
    w := TakeStep(other, 1, [Note(0, 1)], TimeStamp(1, 1), multiset{Note(1, 1)});
    assert [Note(0, 1)] + [Note(1, 1)] == [Note(0, 1), Note(1, 1)];
  }

  lemma EndedIsTerminated(w: World, evs: seq<Event>)
    requires Ended(w, evs)
    ensures AllStarted(w) && AllTraffic(w) == multiset{}
    ensures Hosted(TieConfig(), w, 1) && 1 in StateOf(TieConfig(), w, 1) && StateOf(TieConfig(), w, 1)[1] == Held(evs)
    ensures 1 in HistoriesOf(TieConfig(), w) && HistoriesOf(TieConfig(), w)[1] == Positive(evs)
  {
    var ctx, past := w[1].lps[1], w[1].past[1];
    assert AllRecords(ctx, past) == ctx.processed;
    assert AllTraffic(w[..0]) == multiset{};
    assert w[..1][..0] == w[..0] && w[..2] == w;
    assert AllTraffic(w[..1]) == AllTraffic(w[..0]) + Traffic(w[0]);
    assert AllTraffic(w) == AllTraffic(w[..1]) + Traffic(w[1]);
  }

  lemma BothPositive(a: Event, b: Event)
    requires !a.isAnti && !b.isAnti
    ensures Positive([a, b]) == [a, b]
  {
    assert [a, b][..1] == [a] && [a][..0] == [];
    assert Positive([]) == [] && Positive([a]) == [] + [a];
  }

  /** Without distinct stamps the outcome depends on which of two events arrives first: two runs of
      one system, for a model that meets every hypothesis, end in different states. */
  lemma TiesFollowArrival() returns (w: World, w2: World)
    ensures DeterministicModel(TieModel())
    ensures Reachable(TieConfig(), TieModel(), w) && AllStarted(w) && AllTraffic(w) == multiset{}
    ensures Reachable(TieConfig(), TieModel(), w2) && AllStarted(w2) && AllTraffic(w2) == multiset{}
    ensures Hosted(TieConfig(), w, 1) && Hosted(TieConfig(), w2, 1)
    ensures 1 in HistoriesOf(TieConfig(), w) && HistoriesOf(TieConfig(), w)[1] == [Note(1, 1), Note(0, 1)]
    ensures 1 in HistoriesOf(TieConfig(), w2) && HistoriesOf(TieConfig(), w2)[1] == [Note(0, 1), Note(1, 1)]
    ensures StateOf(TieConfig(), w, 1) != StateOf(TieConfig(), w2, 1)
  {
    hide Reachable, AllStarted, Ended, Hosted, StateOf, DeterministicModel;
    TieIsDeterministic();
    w := OwnEventFirst();
    w2 := OtherEventFirst();
    EndedIsTerminated(w, [Note(1, 1), Note(0, 1)]);
    EndedIsTerminated(w2, [Note(0, 1), Note(1, 1)]);
    BothPositive(Note(1, 1), Note(0, 1));
    BothPositive(Note(0, 1), Note(1, 1));
  }
}
