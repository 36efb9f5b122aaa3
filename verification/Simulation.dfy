/** One rank of the kernel as the class it is (class Simulation in src/simulation.hpp).

    Its methods update the queue, the maps and the per-LP logs in place, with the loops and early
    exits of the source.  Each is proved to do what the kernel function of its name does to the
    rank's state; all that is proved about those functions, and about runs made of them, is
    thereby proved about the methods. */
module Simulations {
  import opened Stamps
  import opened Events
  import opened Models
  import opened Flush
  import opened Kernel
  import opened Replay
  import opened LpInvariant
  import opened RankSteps
  import opened BookSteps
  import opened Outputs
  import opened Checker
  import opened SendLaws
  import opened Collections
  import opened SimulationFacts

  class Simulation {
    const cfg: Config
    const me: RankId
    const model: Model

    var lps: map<LPId, LpContext>
    var pending: multiset<Event>
    var cancelled: map<UidKey, TimeStamp>
    var inflight: map<InflightKey, TimeStamp>
    var inflightTs: multiset<TimeStamp>
    var phase: Phase
    var lastGvt: TimeStamp
    var wire: multiset<Event>
    var acks: multiset<Ack>
    var output: seq<FlushItem>
    var rollbacks: nat
    var aborted: bool
    ghost var past: map<LPId, LpPast>
    ghost var dropped: multiset<Event>

    /** The state of the rank as a value. */
    ghost function State(): (r: Rank)
      reads this
      ensures r.lps == lps
    {
      Rank(lps, pending, cancelled, inflight, inflightTs, phase, lastGvt, wire, acks, output, rollbacks, aborted, past, dropped)
    }

    /** The rank has come to an expected state, or has thrown where that was expected. */
    ghost predicate Became(expected: Rank)
      reads this
    {
      aborted == expected.aborted && (!aborted ==> State() == expected)
    }

    /** A rank that is about to start. */
    constructor (cfg: Config, me: RankId, model: Model, states: map<LPId, LpState>)
      ensures this.cfg == cfg && this.me == me && this.model == model
      ensures State() == Rank(map l | l in states :: LpContext(states[l], ZERO, false, ZERO, [], [], 1, 1, 1),
        multiset{}, map[], map[], multiset{}, FIRST_PHASE, ZERO, multiset{}, multiset{}, [], 0, false,
        map l | l in states :: LpPast(false, [], [], [], map[]), multiset{})
    {
      this.cfg, this.me, this.model := cfg, me, model;
      lps := map l | l in states :: LpContext(states[l], ZERO, false, ZERO, [], [], 1, 1, 1);
      pending, cancelled, inflight, inflightTs := multiset{}, map[], map[], multiset{};
      phase, lastGvt, wire, acks, output := FIRST_PHASE, ZERO, multiset{}, multiset{}, [];
      rollbacks, aborted := 0, false;
      past := map l | l in states :: LpPast(false, [], [], [], map[]);
      dropped := multiset{};
    }

    /* ---- Sending ---- */

    method TrackInflightSend(ev: Event)
      modifies this`inflight, this`inflightTs
      ensures State() == TrackSend(old(State()), ev)
    {
      var key := FlightKeyOf(ev);
      if key !in inflight {
        inflight := inflight[key := ev.ts];
        inflightTs := inflightTs + multiset{ev.ts};
      }
    }

    method ClearInflightKey(key: InflightKey)
      modifies this`inflight, this`inflightTs
      ensures State() == ClearInflight(old(State()), key)
    {
      if key in inflight {
        inflightTs := inflightTs - multiset{inflight[key]};
        inflight := inflight - {key};
      }
    }

    /** Local deliveries go to the queue, others to the transport with the protocol's bookkeeping. */
    method Deliver(ev: Event)
      modifies this`pending, this`inflight, this`inflightTs, this`phase, this`wire
      ensures State() == Post(cfg, me, old(State()), ev)
    {
      if cfg.rankOf(ev.dst) == me {
        pending := pending + multiset{ev};
        return;
      }
      if cfg.mode.AckInflight? {
        TrackInflightSend(ev);
      } else {
        phase := phase.CountSent(ColorOf(ev));
        if ev.gvtColor != phase.white {
          phase := phase.(minRedSent := MinStamp(phase.minRedSent, ev.ts));
        }
      }
      wire := wire + multiset{ev};
    }

    /** The send log of the sender, for anti-messages later; of an anti-message only the history
        variable takes note. */
    method LogSent(e: Event)
      requires past.Keys == lps.Keys && e.src in lps
      modifies this`lps, this`past
      ensures State() == LogSend(old(State()), e)
      ensures past.Keys == lps.Keys
    {
      if e.isAnti {
        past := past[e.src := past[e.src].(antis := past[e.src].antis[e.uid := e])];
      } else {
        var ctx := lps[e.src];
        var sendTime := if ctx.inEvent then ctx.currentExecTs else ZERO;
        lps := lps[e.src := ctx.(sentLog := ctx.sentLog + [SentRecord(sendTime, e.ts, e.dst, e.uid)])];
        past := past[e.src := past[e.src].(sent := past[e.src].sent + [e])];
      }
    }

    method Send(ev: Event)
      requires past.Keys == lps.Keys
      modifies this
      ensures Became(SendEvent(cfg, me, old(State()), ev))
      ensures past.Keys == lps.Keys
      ensures !aborted ==> ev.src in old(lps)
      ensures !aborted ==> exists e :: GoesOutAs(cfg, old(State()), old(lps)[ev.src], ev, e) && PutOut(cfg, me, old(State()), e, State())
    {
      hide Stamp, Post, LogSend, GoesOutAs, PutOut;
      ghost var r := State();
      if aborted { return; }
      if ev.src !in lps {
        aborted := true;
        return;
      }
      var stamped := Stamp(cfg, lps[ev.src], ev);
      if stamped.Rejected? {
        aborted := true;
        return;
      }
      lps := lps[ev.src := stamped.ctx];
      var e := if cfg.mode.AckInflight? then stamped.ev else stamped.ev.(gvtColor := phase.color);
      Deliver(e);
      LogSent(e);
      ghost var x := SendMeans(cfg, me, r, ev);
    }

    /** on_start of one LP. */
    method Start(l: LPId)
      requires past.Keys == lps.Keys && l in lps
      modifies this
      ensures Became(StartLp(cfg, model, me, old(State()), l))
      ensures past.Keys == lps.Keys
    {
      hide SendEvent, SendAll;
      past := past[l := past[l].(started := true)];
      ghost var begun := State();
      var msgs := model.start(l);
      NoSends(cfg, me, begun);
      for i := 0 to |msgs|
        invariant Became(SendAll(cfg, me, begun, msgs[..i]))
        invariant past.Keys == lps.Keys
      {
        OneMoreSend(cfg, me, begun, msgs, i, State());
        Send(msgs[i]);
      }
      assert msgs[..|msgs|] == msgs;
    }

    /* ---- Receiving ---- */

    /** A message from the transport: it is acknowledged or counted, and queued. */
    method PollEvent(from: RankId, ev: Event)
      modifies this`pending, this`acks, this`inflight, this`inflightTs, this`phase
      ensures State() == ReceiveEvent(cfg, old(State()), from, ev)
    {
      if cfg.mode.ColoredCounters? {
        phase := phase.CountRecv(ColorOf(ev));
      } else {
        acks := acks + multiset{Ack(from, FlightKeyOf(ev))};
        ClearInflightKey(FlightKeyOf(ev));
      }
      pending := pending + multiset{ev};
    }

    method PollAck(key: InflightKey)
      modifies this`inflight, this`inflightTs
      ensures State() == ReceiveAck(cfg, old(State()), key)
    {
      if cfg.mode.AckInflight? { ClearInflightKey(key); }
    }

    /* ---- The queue ---- */

    /** The head of the queue. */
    method Top() returns (ev: Event)
      requires pending != multiset{}
      ensures IsTop(pending, ev)
    {
      ev := TopOf(pending);
    }

    /** The next message to dispatch; cancelled events before it are thrown away. */
    method PopNext() returns (next: Option<Event>, ghost drops: seq<Event>)
      modifies this`pending, this`dropped
      ensures Droppable(old(State()), drops) && forall i :: 0 <= i < |drops| ==> !drops[i].isAnti
      ensures next.None? ==> State() == DropAll(old(State()), drops) && pending == multiset{}
      ensures next.Some? ==>
        var r := DropAll(old(State()), drops);
        IsTop(r.pending, next.value) && (next.value.isAnti || !Tombstoned(r, next.value)) && State() == TakePending(r, next.value)
    {
      hide Droppable, DropAll, IsTop;
      ghost var start := State();
      drops := [];
      NoDrops(start);
      while pending != multiset{}
        invariant Droppable(start, drops) && State() == DropAll(start, drops)
        invariant forall i :: 0 <= i < |drops| ==> !drops[i].isAnti
        decreases |pending|
      {
        var ev := Top();
        TopIsPending(pending, ev);
        if !ev.isAnti && KeyOf(ev) in cancelled {
          DroppableSnoc(start, drops, ev);
          DropAllSnoc(start, drops, ev);
          pending := pending - multiset{ev};
          drops := drops + [ev];
          dropped := dropped + multiset{ev};
        } else {
          pending := pending - multiset{ev};
          return Some(ev), drops;
        }
      }
      next := None;
    }

    /** The stamp of the next message, for the GVT; everything tombstoned before it is thrown away. */
    method PeekNextPendingTs() returns (ts: Option<TimeStamp>, ghost drops: seq<Event>)
      modifies this`pending, this`dropped
      ensures Droppable(old(State()), drops) && State() == DropAll(old(State()), drops)
      ensures Settled(State())
      ensures ts.None? ==> pending == multiset{}
      ensures ts.Some? ==> (exists e :: e in pending && e.ts == ts.value) && forall e :: e in pending ==> ts.value.Le(e.ts)
    {
      hide Droppable, DropAll, IsTop, Settled;
      ghost var start := State();
      drops := [];
      NoDrops(start);
      while pending != multiset{}
        invariant Droppable(start, drops) && State() == DropAll(start, drops)
        decreases |pending|
      {
        var ev := Top();
        TopIsMin(pending, ev);
        if KeyOf(ev) !in cancelled {
          TopSettles(State(), ev);
          return Some(ev.ts), drops;
        }
        DroppableSnoc(start, drops, ev);
        DropAllSnoc(start, drops, ev);
        drops := drops + [ev];
        pending := pending - multiset{ev};
        dropped := dropped + multiset{ev};
      }
      EmptySettles(State());
      ts := None;
    }

    /** The least virtual time of the rank's LPs. */
    method MinVt() returns (least: TimeStamp)
      ensures forall l :: l in lps ==> least.Le(lps[l].vt)
      ensures least == MAX_STAMP || exists l :: l in lps && least == lps[l].vt
    {
      least := MAX_STAMP;
      var rest := lps.Keys;
      while rest != {}
        invariant rest <= lps.Keys
        invariant forall l :: l in lps && l !in rest ==> least.Le(lps[l].vt)
        invariant least == MAX_STAMP || exists l :: l in lps && least == lps[l].vt
      {
        var l :| l in rest;
        rest := rest - {l};
        least := MinStamp(least, lps[l].vt);
      }
    }

    /** The least stamp of the messages in flight. */
    method MinInflight() returns (least: TimeStamp)
      ensures forall t :: t in inflightTs ==> least.Le(t)
      ensures least == MAX_STAMP || least in inflightTs
    {
      least := MAX_STAMP;
      var rest := inflightTs;
      while rest != multiset{}
        invariant rest <= inflightTs
        invariant forall t :: t in inflightTs && t !in rest ==> least.Le(t)
        invariant least == MAX_STAMP || least in inflightTs
        decreases |rest|
      {
        var t :| t in rest;
        rest := rest - multiset{t};
        least := MinStamp(least, t);
      }
    }

    /** The rank's bound for the GVT: the least of its virtual times, its next message and, with
        acknowledgements, its messages in flight. */
    method ComputeGvt() returns (gvt: TimeStamp, ghost drops: seq<Event>)
      modifies this`pending, this`dropped
      ensures Droppable(old(State()), drops) && State() == DropAll(old(State()), drops)
      ensures Settled(State())
      ensures gvt == LocalGvt(cfg, State())
    {
      hide Droppable, DropAll, Settled, LocalGvt;
      var vt := MinVt();
      var next;
      next, drops := PeekNextPendingTs();
      gvt := if next.Some? then MinStamp(vt, next.value) else vt;
      var least := MAX_STAMP;
      if cfg.mode.AckInflight? {
        least := MinInflight();
        gvt := MinStamp(gvt, least);
      }
      LocalGvtIs(cfg, State(), vt, next, least);
    }

    /* ---- Rolling back ---- */

    /** Takes the newest record off an LP's log; its event is pending again and its tombstone is
        taken back. */
    method UndoLast(l: LPId) returns (last: Record)
      requires l in lps && |lps[l].processed| > 0
      modifies this`lps, this`pending, this`cancelled
      ensures last == old(lps)[l].processed[|old(lps)[l].processed| - 1]
      ensures State() == UndoOne(old(State()), l)
    {
      var ctx := lps[l];
      var n := |ctx.processed|;
      last := ctx.processed[n - 1];
      if last.ev.isAnti {
        cancelled := if last.cancelHadEntry then cancelled[KeyOf(last.ev) := last.cancelPrevTs] else cancelled - {KeyOf(last.ev)};
      }
      pending := pending + multiset{last.ev};
      lps := lps[l := ctx.(processed := ctx.processed[..n - 1])];
    }

    /** Undoes all records at or after `to`, newest first. */
    method UndoRecords(l: LPId, to: TimeStamp) returns (undone: seq<Record>, ghost oldestFirst: seq<Record>)
      requires l in lps
      modifies this`lps, this`pending, this`cancelled
      ensures l in old(lps) && State() == Undo(old(State()), l, to)
      ensures oldestFirst == old(lps)[l].processed[Cut(old(lps)[l].processed, to)..]
      ensures Reversed(undone, oldestFirst)
    {
      hide UndoneTo, Cut, Undo, UndoOne, Reversed;
      ghost var r := State();
      ghost var log := lps[l].processed;
      undone := [];
      NothingUndone(r, l);
      NothingReversed(log);
      while |lps[l].processed| > 0
        invariant l in lps && lps[l].processed <= log && Cut(log, to) <= |lps[l].processed|
        invariant Reversed(undone, log[|lps[l].processed|..])
        invariant UndoneTo(r, l, |lps[l].processed|, State())
        decreases |lps[l].processed|
      {
        var n := |lps[l].processed|;
        if lps[l].processed[n - 1].ev.ts.Lt(to) { break; }
        UndoneOneMore(r, l, n, State());
        ReversedMore(undone, log, n);
        var last := UndoLast(l);
        undone := undone + [last];
      }
      UndoneIs(r, l, to, State());
      oldestFirst := log[Cut(log, to)..];
    }

    /** The LP's state after loading the oldest LP-wide snapshot of the undone records, if any has
        one.  `undone` is newest first. */
    method LoadSnapshot(undone: seq<Record>, state: LpState) returns (s: LpState)
      ensures (forall i :: 0 <= i < |undone| ==> !undone[i].hasLpSnapshot) ==> s == state
      ensures forall i :: OldestSnapshot(undone, i) ==> s == undone[i].preLpState
    {
      var i := |undone|;
      while i > 0
        invariant 0 <= i <= |undone|
        invariant forall j :: i <= j < |undone| ==> !undone[j].hasLpSnapshot
      {
        i := i - 1;
        if undone[i].hasLpSnapshot { return undone[i].preLpState; }
      }
      s := state;
    }

    /** The LP's state after loading the saved entities of the undone records, oldest record first,
        each entity once. */
    method LoadEntities(undone: seq<Record>, ghost oldestFirst: seq<Record>, state: LpState) returns (s: LpState)
      requires Reversed(undone, oldestFirst)
      ensures EntitiesRestored(oldestFirst, state, s)
    {
      hide FirstPre;
      s := state;
      var restored: set<EntityId> := {};
      NothingSaved(state);
      for i := 0 to |undone|
        invariant EntitiesRestored(oldestFirst[..i], state, s)
        invariant forall id :: id in restored <==> FirstPre(oldestFirst[..i], id).Some?
      {
        var rec := undone[|undone| - 1 - i];
        ghost var front := oldestFirst[..i];
        assert oldestFirst[..i + 1] == front + [rec];
        s, restored := LoadRecord(rec, front, state, s, restored);
      }
      assert oldestFirst[..|undone|] == oldestFirst;
    }

    /** One record's entities, those not loaded before. */
    method LoadRecord(rec: Record, ghost front: seq<Record>, ghost before: LpState, state: LpState, restored: set<EntityId>)
      returns (s: LpState, more: set<EntityId>)
      requires EntitiesRestored(front, before, state)
      requires forall id :: id in restored <==> FirstPre(front, id).Some?
      ensures EntitiesRestored(front + [rec], before, s)
      ensures forall id :: id in more <==> FirstPre(front + [rec], id).Some?
    {
      hide FirstPre;
      hide EntitiesRestored, LoadedPart;
      s, more := state, restored;
      var ids := rec.preEntityState.Keys;
      LoadedStart(rec.preEntityState, restored, state);
      while ids != {}
        invariant ids <= rec.preEntityState.Keys
        invariant more == restored + (rec.preEntityState.Keys - ids)
        invariant s == state + LoadedPart(rec.preEntityState, restored, ids)
      {
        var id :| id in ids;
        LoadedStep(rec.preEntityState, restored, ids, id, state);
        ids := ids - {id};
        if id !in more { s := s[id := rec.preEntityState[id]]; }
        more := more + {id};
      }
      RecordLoaded(rec, front, before, state, restored, s);
    }

    /** Counters and state as they were before the oldest undone record, and virtual time just
        before `to`. */
    method RestoreLp(l: LPId, undone: seq<Record>, ghost oldestFirst: seq<Record>, to: TimeStamp)
      requires l in lps && KindsOk(model.entitySnapshots(l), oldestFirst)
      requires Reversed(undone, oldestFirst)
      modifies this`lps
      ensures l in old(lps) && State() == WithLp(old(State()), l, Rewind(old(lps)[l], oldestFirst, to))
    {
      var ctx := lps[l];
      if |undone| > 0 {
        var oldest := undone[|undone| - 1];
        var s := LoadSnapshot(undone, ctx.state);
        SnapshotIs(undone, oldestFirst, ctx.state, s, model.entitySnapshots(l));
        if model.entitySnapshots(l) {
          s := LoadEntities(undone, oldestFirst, s);
          RestoredIs(oldestFirst, ctx.state, s);
        }
        ctx := ctx.(state := s, nextSeqNormal := oldest.preSeqNormal, nextSeqControl := oldest.preSeqControl);
      }
      ctx := ctx.(vt := PrevStamp(to));
      lps := lps[l := ctx];
    }

    /** Cancels the sends made at or after `to`, newest first, each by an anti-message. */
    method RetractSends(l: LPId, to: TimeStamp)
      requires past.Keys == lps.Keys && l in lps && !aborted && CompleteLog(l, lps[l].sentLog)
      modifies this
      ensures l in old(lps) && State() == Retract(cfg, me, old(State()), l, to)
      ensures past.Keys == lps.Keys
    {
      hide CompleteLog, SendEvent, RetractedTo, SendCut, Retract;
      ghost var r := State();
      ghost var log := lps[l].sentLog;
      NothingRetracted(cfg, me, r, l);
      while |lps[l].sentLog| > 0
        invariant l in lps && lps[l].sentLog <= log && SendCut(log, to) <= |lps[l].sentLog|
        invariant RetractedTo(cfg, me, r, l, |lps[l].sentLog|, State())
        invariant past.Keys == lps.Keys
        decreases |lps[l].sentLog|
      {
        var n := |lps[l].sentLog|;
        var last := lps[l].sentLog[n - 1];
        assert last == log[n - 1];
        if last.sendTime.Lt(to) { break; }
        RetractedOneMore(cfg, me, r, l, n, State());
        TakeTake(log, n, n - 1);
        Send(AntiFor(l, last));
        lps := lps[l := lps[l].(sentLog := lps[l].sentLog[..n - 1])];
      }
      RetractedIs(cfg, me, r, l, to, State());
    }

    /** Undoes an LP's records at or after `to` and restores its counters, state and virtual time. */
    method RewindTo(l: LPId, to: TimeStamp)
      requires l in lps && KindsOk(model.entitySnapshots(l), lps[l].processed)
      modifies this
      ensures l in old(lps) && State() == Rewound(old(State()), l, to)
    {
      hide KindsOk, Rewind, Cut, UndoCancels, Undo, Rewound, WithLp;
      RewoundIs(State(), l, to);
      KindsSuffix(model.entitySnapshots(l), lps[l].processed, Cut(lps[l].processed, to));
      rollbacks := rollbacks + 1;
      UndoFields(State(), l, to);
      var undone, oldestFirst := UndoRecords(l, to);
      RestoreLp(l, undone, oldestFirst, to);
    }

    method RollbackTo(l: LPId, to: TimeStamp)
      requires past.Keys == lps.Keys && l in lps && !aborted
      requires CompleteLog(l, lps[l].sentLog) && KindsOk(model.entitySnapshots(l), lps[l].processed)
      modifies this
      ensures l in old(lps) && State() == Rollback(cfg, me, old(State()), l, to)
      ensures past.Keys == lps.Keys
    {
      hide CompleteLog, KindsOk, Retract, Rewound;
      RewoundFields(State(), l, to);
      RewindTo(l, to);
      RetractSends(l, to);
    }

    /* ---- Dispatching ---- */

    /** Looks from the newest record back for the event an anti-message cancels. */
    method Find(l: LPId, key: UidKey) returns (ts: Option<TimeStamp>)
      requires l in lps
      ensures ts == FindProcessed(lps[l].processed, key)
    {
      var log := lps[l].processed;
      var i := |log|;
      assert log[..i] == log;
      while i > 0
        invariant 0 <= i <= |log|
        invariant FindProcessed(log, key) == FindProcessed(log[..i], key)
      {
        i := i - 1;
        if !log[i].ev.isAnti && KeyOf(log[i].ev) == key { return Some(log[i].ev.ts); }
        assert log[..i + 1][..i] == log[..i];
      }
      ts := None;
    }

    /** Leaves a tombstone, and rolls back if the event has been processed already. */
    method CancelEvent(anti: Event)
      requires past.Keys == lps.Keys && anti.dst in lps && !aborted
      requires CompleteLog(anti.dst, lps[anti.dst].sentLog)
      requires KindsOk(model.entitySnapshots(anti.dst), lps[anti.dst].processed)
      modifies this
      ensures anti.dst in old(lps) && State() == Cancel(cfg, me, old(State()), anti)
      ensures past.Keys == lps.Keys
    {
      hide CompleteLog, KindsOk, Rollback, FindProcessed;
      var key := KeyOf(anti);
      if key !in cancelled || anti.ts.Lt(cancelled[key]) {
        cancelled := cancelled[key := anti.ts];
      }
      var found := Find(anti.dst, key);
      if found.Some? { RollbackTo(anti.dst, found.value); }
    }

    method DispatchAntiMessage(ev: Event)
      requires past.Keys == lps.Keys && ev.dst in lps && !aborted
      requires CompleteLog(ev.dst, lps[ev.dst].sentLog)
      requires KindsOk(model.entitySnapshots(ev.dst), lps[ev.dst].processed)
      modifies this
      ensures ev.dst in old(lps) && State() == DispatchAnti(cfg, me, old(State()), ev)
      ensures past.Keys == lps.Keys
    {
      hide CompleteLog, KindsOk, Cancel;
      ghost var r := State();
      var had := KeyOf(ev) in cancelled;
      var rec := Record(ev, lps[ev.dst].nextSeqNormal, lps[ev.dst].nextSeqControl, false, map[], map[], [],
                        had, if had then cancelled[KeyOf(ev)] else ZERO);
      CancelEvent(ev);
      var ctx := lps[ev.dst];
      lps := lps[ev.dst := ctx.(vt := ev.ts, processed := ctx.processed + [rec])];
    }

    /** Runs the handler's script: its requests to write take snapshots, its writes change the state,
        its output is recorded and its sends go out, each as it comes. */
    method RunHandler(ev: Event, script: seq<Action>, f0: Frame) returns (f: Frame)
      requires past.Keys == lps.Keys && !aborted
      modifies this
      ensures past.Keys == lps.Keys
      ensures aborted <==> !EmitsAt(ev.ts, script) || SendAll(cfg, me, old(State()), SendsOf(script)).aborted
      ensures !aborted ==> State() == SendAll(cfg, me, old(State()), SendsOf(script))
      ensures !aborted ==> f == RunFrame(model.entitySnapshots(ev.dst), f0, script)
    {
      hide SendEvent, SendAll, SendsOf, EmitsAt, RunFrame;
      ghost var r := State();
      var byEntity := model.entitySnapshots(ev.dst);
      f := f0;
      NothingRun(cfg, me, byEntity, r, f0, ev.ts, script);
      for i := 0 to |script|
        invariant past.Keys == lps.Keys && !aborted
        invariant State() == SendAll(cfg, me, r, SendsOf(script[..i]))
        invariant EmitsAt(ev.ts, script[..i]) && f == RunFrame(byEntity, f0, script[..i])
      {
        OneMoreAction(cfg, me, byEntity, r, f0, ev.ts, script, i);
        match script[i]
        case RequestWrite(id) =>
          if id !in f.preEntityState {
            if byEntity {
              f := f.(preEntityState := f.preEntityState[id := SaveEntity(f.state, id)]);
            } else if !f.hasLpSnapshot {
              f := f.(hasLpSnapshot := true, preLpState := f.state);
            }
          }
        case Write(id, bytes) =>
          f := f.(state := f.state[id := bytes]);
        case Emit(ts, payload) =>
          if ts != ev.ts {
            aborted := true;
            return;
          }
          f := f.(committed := f.committed + [Output(ts, payload)]);
        case Send(out) =>
          Send(out);
          if aborted { return; }
      }
      assert script[..|script|] == script;
    }

    method ExecuteEvent(ev: Event)
      requires past.Keys == lps.Keys && ev.dst in lps && !aborted
      modifies this
      ensures ev.dst in old(lps) && Became(Execute(cfg, model, me, old(State()), ev))
      ensures past.Keys == lps.Keys
    {
      hide SendEvent, SendAll, SendsOf, EmitsAt, RunFrame;
      ghost var r := State();
      var l := ev.dst;
      var ctx := lps[l];
      var script := model.handle(l, ctx.state, ev);
      lps := lps[l := ctx.(vt := ev.ts, inEvent := true, currentExecTs := ev.ts)];
      ghost var open := State();
      SendAllKeepsLps(cfg, me, open, SendsOf(script));
      var f := RunHandler(ev, script, OpenFrame(ctx.state));
      if aborted { return; }
      var rec := Record(ev, ctx.nextSeqNormal, ctx.nextSeqControl, f.hasLpSnapshot, f.preLpState, f.preEntityState,
                        f.committed, false, ZERO);
      var now := lps[l];
      lps := lps[l := now.(state := f.state, inEvent := false, processed := now.processed + [rec])];
    }

    /** One message: a straggler is put back after rolling its LP back, an anti-message cancels, an
        event is executed. */
    method DispatchMessage(ev: Event)
      requires LpsOk(cfg, model, State()) && !aborted
      modifies this
      ensures Became(Dispatch(cfg, model, me, old(State()), ev))
      ensures past.Keys == lps.Keys
    {
      hide Rollback, DispatchAnti, Execute, CompleteLog, KindsOk, LpOk;
      if ev.dst !in lps {
        aborted := true;
        return;
      }
      LoggedSendsAreComplete(cfg, model, ev.dst, lps[ev.dst], past[ev.dst]);
      LogIsComplete(ev.dst, lps[ev.dst].sentLog);
      LogKinds(cfg, model, ev.dst, lps[ev.dst], past[ev.dst]);
      if ev.ts.Lt(lps[ev.dst].vt) {
        RollbackTo(ev.dst, ev.ts);
        pending := pending + multiset{ev};
        RollbackNeverAborts(cfg, model, me, old(State()), ev.dst, ev.ts);
      } else if ev.isAnti {
        DispatchAntiMessage(ev);
        AntiNeverAborts(cfg, model, me, old(State()), ev);
      } else {
        ExecuteEvent(ev);
      }
    }

    /** One turn of the main loop on the queue: the next message, if there is one, is dispatched. */
    method Turn() returns (taken: Option<Event>, ghost drops: seq<Event>)
      requires LpsOk(cfg, model, State()) && !aborted
      modifies this
      ensures Droppable(old(State()), drops) && forall i :: 0 <= i < |drops| ==> !drops[i].isAnti
      ensures taken.None? ==> State() == DropAll(old(State()), drops) && pending == multiset{}
      ensures taken.Some? ==>
        var r := DropAll(old(State()), drops);
        && IsTop(r.pending, taken.value) && (taken.value.isAnti || !Tombstoned(r, taken.value))
        && Became(Dispatch(cfg, model, me, TakePending(r, taken.value), taken.value))
    {
      hide LpOk, Droppable, DropAll, IsTop, Tombstoned, Dispatch;
      ghost var r := State();
      taken, drops := PopNext();
      if taken.Some? {
        DropsFields(r, drops);
        SameLpsOk(cfg, model, r, State());
        DispatchMessage(taken.value);
      }
    }

    /* ---- Pruning ---- */

    /** Gives up an LP's records and sends below `gvt`; the outputs of the records go to the end of
        the flush list. */
    method PruneLpTo(l: LPId, gvt: TimeStamp, flush: seq<FlushItem>) returns (more: seq<FlushItem>)
      requires l in lps && l in past
      modifies this`lps, this`past
      ensures l in old(lps) && l in old(past)
      ensures lps == old(lps)[l := PruneCtx(old(lps)[l], gvt)] && past == old(past)[l := PrunePast(old(lps)[l], old(past)[l], gvt)]
      ensures more == flush + ItemsOf(l, old(lps)[l].processed[..Fossils(old(lps)[l].processed, gvt)])
    {
      hide Fossils, FossilSends, ItemsOf;
      ghost var ctx0, past0 := lps[l], past[l];
      var ctx := lps[l];
      more := flush;
      NoItems(l, flush);
      ghost var k := 0;
      while |ctx.processed| > 0 && ctx.processed[0].ev.ts.Lt(gvt)
        invariant lps == old(lps) && past == old(past)
        invariant k <= Fossils(ctx0.processed, gvt) && ctx == ctx0.(processed := ctx0.processed[k..])
        invariant more == flush + ItemsOf(l, ctx0.processed[..k])
        decreases |ctx.processed|
      {
        var rec := ctx.processed[0];
        OneMoreRecord(l, ctx0.processed, k, flush);
        more := more + RecordItems(l, rec);
        ctx := ctx.(processed := ctx.processed[1..]);
        k := k + 1;
      }
      ghost var j := 0;
      while |ctx.sentLog| > 0 && ctx.sentLog[0].sendTime.Lt(gvt)
        invariant lps == old(lps) && past == old(past)
        invariant j <= FossilSends(ctx0.sentLog, gvt)
        invariant ctx == ctx0.(processed := ctx0.processed[k..], sentLog := ctx0.sentLog[j..])
        decreases |ctx.sentLog|
      {
        ctx := ctx.(sentLog := ctx.sentLog[1..]);
        j := j + 1;
      }
      assert k == Fossils(ctx0.processed, gvt) && j == FossilSends(ctx0.sentLog, gvt);
      lps := lps[l := ctx];
      past := past[l := past0.(committed := past0.committed + ctx0.processed[..k], pruned := past0.pruned + ctx0.sentLog[..j])];
    }

    /** Drops the tombstones below `gvt`. */
    method PruneTombstones(gvt: TimeStamp)
      modifies this`cancelled
      ensures cancelled == map k | k in old(cancelled) && !old(cancelled)[k].Lt(gvt) :: old(cancelled)[k]
    {
      ghost var all := cancelled;
      var todo := cancelled.Keys;
      while todo != {}
        invariant todo <= cancelled.Keys
        invariant cancelled == map k | k in all && (k in todo || !all[k].Lt(gvt)) :: all[k]
      {
        var k :| k in todo;
        todo := todo - {k};
        if cancelled[k].Lt(gvt) { cancelled := cancelled - {k}; }
      }
    }

    /** Prunes every LP, in whatever order the map yields them. */
    method PruneLps(gvt: TimeStamp) returns (flush: seq<FlushItem>)
      requires UniqueHistories(State())
      modifies this`lps, this`past
      ensures lps == PrunedLps(old(State()), gvt, {}) && past == PrunedPasts(old(State()), gvt, {})
      ensures FlushedFrom(old(State()), gvt, {}, flush)
    {
      hide UniqueHistories, PruneCtx, PrunePast, Released, FlushedFrom, PrunedLps, PrunedPasts, ItemsOf;
      ghost var r := State();
      UniqueKeys(r, gvt);
      flush := [];
      var todo := lps.Keys;
      NothingFlushed(r, gvt);
      while todo != {}
        invariant todo <= r.lps.Keys && r.past.Keys == r.lps.Keys
        invariant lps == PrunedLps(r, gvt, todo) && past == PrunedPasts(r, gvt, todo)
        invariant FlushedFrom(r, gvt, todo, flush)
      {
        var l :| l in todo;
        OneMoreFlushed(r, gvt, todo, l, flush);
        OneMorePruned(r, gvt, todo, l);
        flush := PruneLpTo(l, gvt, flush);
        todo := todo - {l};
      }
    }

    /** Prunes LPs and tombstones, and hands the released output to the sink in its order. */
    method PruneToGvt(gvt: TimeStamp)
      requires UniqueHistories(State())
      modifies this
      ensures State() == Prune(old(State()), gvt)
    {
      hide UniqueHistories, Released, FlushedFrom, PrunedLps, PrunedPasts, Prune, DistinctItems;
      ghost var r := State();
      var flush := PruneLps(gvt);
      PruneTombstones(gvt);
      AllFlushed(r, gvt, flush);
      var sorted := SortItems(flush);
      SortedIsInOrder(r, gvt, flush, sorted);
      output := output + sorted;
      AllPruned(r, gvt);
    }

    /* ---- Advancing GVT ---- */

    /** Fossil collection with acknowledgements: prune to the last GVT, reduce the ranks' bounds, and
        unless the result is behind take it and prune again. */
    method FossilCollect(reduceMin: TimeStamp -> TimeStamp) returns (ghost drops: seq<Event>)
      requires UniqueHistories(State())
      modifies this
      ensures Droppable(Prune(old(State()), old(lastGvt)), drops)
      ensures
        var r := DropAll(Prune(old(State()), old(lastGvt)), drops);
        var reduced := reduceMin(LocalGvt(cfg, r));
        && Settled(r) && State() == AdvanceAck(r, reduced)
        && lastGvt == if reduced.Lt(old(lastGvt)) then old(lastGvt) else reduced
    {
      hide UniqueHistories, Prune, Droppable, DropAll, Settled, LocalGvt;
      PruneStaysUnique(State(), lastGvt);
      PruneToGvt(lastGvt);
      PruneFields(old(State()), old(lastGvt));
      ghost var pruned := State();
      var gvt;
      gvt, drops := ComputeGvt();
      DropsStayUnique(pruned, drops);
      DropsFields(pruned, drops);
      gvt := reduceMin(gvt);
      if gvt.Lt(lastGvt) { return; }
      GvtStaysUnique(State(), gvt);
      lastGvt := gvt;
      PruneFields(State(), gvt);
      PruneToGvt(gvt);
    }

    /** The end of a red phase: with all white messages in, the new GVT is taken unless it is behind,
        and the next round begins. */
    method EndRound(reduceMin: TimeStamp -> TimeStamp) returns (ghost drops: seq<Event>)
      requires UniqueHistories(State()) && phase.red
      modifies this
      ensures Droppable(old(State()), drops) && Settled(DropAll(old(State()), drops))
      ensures
        var r := DropAll(old(State()), drops);
        var reduced := reduceMin(ColoredGvt(cfg, r));
        State() == AdvanceColored(r, 0, reduced) && lastGvt == if reduced.Lt(old(lastGvt)) then old(lastGvt) else reduced
    {
      hide UniqueHistories, Prune, Droppable, DropAll, Settled, LocalGvt;
      ghost var r := State();
      var gvt;
      gvt, drops := ComputeGvt();
      DropsStayUnique(r, drops);
      DropsFields(r, drops);
      gvt := reduceMin(MinStamp(gvt, phase.minRedSent));
      if gvt.Lt(lastGvt) { return; }
      GvtStaysUnique(State(), gvt);
      lastGvt := gvt;
      PruneFields(State(), gvt);
      PruneToGvt(gvt);
      phase := phase.(red := false, white := 1 - phase.white, color := 1 - phase.white, whiteSentAtFlip := 0, minRedSent := MAX_STAMP);
    }

    /** One collective of the coloured protocol. */
    method AdvanceGvtColored(reduceSum: int -> int, reduceMin: TimeStamp -> TimeStamp) returns (ghost drops: seq<Event>)
      requires UniqueHistories(State())
      modifies this
      ensures Droppable(old(State()), drops)
      ensures old(phase).red && reduceSum(WhiteDelta(old(State()))) == 0 ==> Settled(DropAll(old(State()), drops))
      ensures
        var r := DropAll(old(State()), drops);
        var reduced := reduceMin(ColoredGvt(cfg, r));
        && State() == AdvanceColored(r, reduceSum(WhiteDelta(old(State()))), reduced)
        && lastGvt == if !old(phase).red || reduceSum(WhiteDelta(old(State()))) != 0 || reduced.Lt(old(lastGvt)) then old(lastGvt)
                      else reduced
    {
      hide UniqueHistories, Prune, Droppable, DropAll, Settled, LocalGvt;
      drops := [];
      NoDrops(State());
      if !phase.red {
        phase := phase.(red := true, color := 1 - phase.white, whiteSentAtFlip := phase.Sent(phase.white), minRedSent := MAX_STAMP);
        return;
      }
      var globalDelta := reduceSum(phase.whiteSentAtFlip - phase.Recv(phase.white));
      if globalDelta != 0 { return; }
      DropsKeepPhase(State());
      drops := EndRound(reduceMin);
    }

    /** The last flush, once the simulation has terminated everywhere. */
    method FinalizeAtEnd()
      requires UniqueHistories(State())
      modifies this
      ensures State() == Prune(old(State()), MAX_STAMP)
    {
      PruneToGvt(MAX_STAMP);
    }

    /* ---- The runtime checker ---- */

    /** The clauses about one LP. */
    method ValidateLp(l: LPId) returns (ok: bool)
      requires l in lps
      ensures ok <==> CountersLeft(lps[l]) && LpClauses(lps[l])
    {
      var ctx := lps[l];
      if ctx.nextSeqNormal == 0 || ctx.nextSeqControl == 0 || ctx.nextUid == 0 { return false; }
      var i := 1;
      while i < |ctx.processed|
        invariant 1 <= i
        invariant forall j :: 1 <= j < i && j < |ctx.processed| ==> !ctx.processed[j].ev.ts.Lt(ctx.processed[j - 1].ev.ts)
      {
        if ctx.processed[i].ev.ts.Lt(ctx.processed[i - 1].ev.ts) { return false; }
        i := i + 1;
      }
      if |ctx.processed| > 0 && ctx.vt.Lt(ctx.processed[|ctx.processed| - 1].ev.ts) { return false; }
      if ctx.inEvent && ctx.currentExecTs != ctx.vt { return false; }
      ok := true;
    }

    /** The in-flight multiset against the one derived from the map. */
    method ValidateInflight() returns (ok: bool)
      ensures ok <==> InflightClauses(State())
    {
      hide ValuesOf;
      if |inflight| != |inflightTs| { return false; }
      var derived: multiset<TimeStamp> := multiset{};
      var rest := inflight;
      NoValues(rest);
      assert derived + ValuesOf(rest) == ValuesOf(rest);
      while |rest| > 0
        invariant derived + ValuesOf(rest) == ValuesOf(inflight)
        decreases |rest|
      {
        SomeKey(rest);
        var k :| k in rest;
        ValuesWithout(rest, k);
        MapWithout(rest, k);
        derived := derived + multiset{rest[k]};
        rest := rest - {k};
      }
      NoValues(rest);
      assert derived + multiset{} == derived;
      ok := derived == inflightTs;
    }

    /** The whole of validate_invariants_.  The pass over a copy of the queue can find nothing. */
    method ValidateInvariants() returns (ok: bool)
      ensures ok <==> Accepts(cfg, State())
    {
      hide LpClauses, CountersLeft, InflightClauses, QueueClause;
      QueueClauseHolds(State());
      var todo := lps.Keys;
      while todo != {}
        invariant todo <= lps.Keys
        invariant forall l :: l in lps && l !in todo ==> CountersLeft(lps[l]) && LpClauses(lps[l])
      {
        var l :| l in todo;
        todo := todo - {l};
        var lpOk := ValidateLp(l);
        if !lpOk { return false; }
      }
      ok := true;
      if cfg.mode.AckInflight? { ok := ValidateInflight(); }
      var inOrder := ValidateQueue();
      ok := ok && inOrder;
    }

    /** Pops a copy of the queue, passing over tombstoned events, and compares neighbours. */
    method ValidateQueue() returns (ok: bool)
      ensures ok
    {
      var queue := pending;
      var previous: Option<Event> := None;
      while queue != multiset{}
        invariant previous.Some? ==> forall e :: e in queue ==> !Before(e, previous.value)
        decreases |queue|
      {
        var ev := TopOf(queue);
        queue := queue - multiset{ev};
        if ev.isAnti || KeyOf(ev) !in cancelled {
          if previous.Some? && Before(ev, previous.value) { return false; }
          previous := Some(ev);
        }
      }
      ok := true;
    }
  }

  /** The head of a queue. */
  method TopOf(queue: multiset<Event>) returns (ev: Event)
    requires queue != multiset{}
    ensures IsTop(queue, ev)
  {
    ev :| ev in queue;
    var rest := queue - multiset{ev};
    while rest != multiset{}
      invariant ev in queue
      invariant rest <= queue
      invariant forall x :: x in queue && x !in rest ==> !Before(x, ev)
      decreases |rest|
    {
      var x :| x in rest;
      rest := rest - multiset{x};
      if Before(x, ev) { ev := x; }
    }
  }

  /** The sort of a flush. */
  method SortItems(items: seq<FlushItem>) returns (sorted: seq<FlushItem>)
    requires DistinctItems(items)
    ensures Ascending(sorted) && InFlushOrder(sorted)
    ensures forall x :: x in sorted <==> x in items
  {
    hide Ascending;
    sorted := [];
    EmptyAscends();
    for k := 0 to |items|
      invariant Ascending(sorted)
      invariant forall x :: x in sorted <==> x in items[..k]
    {
      var x := items[k];
      var i := 0;
      while i < |sorted| && ItemBefore(sorted[i], x)
        invariant 0 <= i <= |sorted|
        invariant forall j :: 0 <= j < i ==> ItemBefore(sorted[j], x)
      {
        i := i + 1;
      }
      forall j | 0 <= j < |sorted| ensures !SameKey(sorted[j], x) { NotYet(items, k, sorted[j]); }
      InsertAscends(sorted, i, x);
      assert items[..k + 1] == items[..k] + [x];
      sorted := sorted[..i] + [x] + sorted[i..];
    }
    assert items[..|items|] == items;
    AscendingIsFlushOrder(sorted);
  }
}
