/** What an LP's logs have to say about its state: the state is the replay of the logged events,
    each record carries the snapshots its event would take again, and the send log lists the
    messages the replay asks for.  Restoring snapshots is then exact. */
module Replay {
  import opened Stamps
  import opened Events
  import opened Models
  import opened Kernel

  lemma EventsOfPrefix(recs: seq<Record>, k: nat)
    requires k <= |recs|
    ensures EventsOf(recs[..k]) == EventsOf(recs)[..k]
  {
  }

  /** The record an event's execution from state `pre` leaves (up to the saved counters). */
  ghost predicate RecordOk(m: Model, l: LPId, pre: LpState, rec: Record) {
    if rec.ev.isAnti then
      !rec.hasLpSnapshot && rec.preEntityState == map[] && rec.committed == []
    else
      var f := RunFrame(m.entitySnapshots(l), OpenFrame(pre), m.handle(l, pre, rec.ev));
      && rec.hasLpSnapshot == f.hasLpSnapshot
      && rec.preLpState == f.preLpState
      && rec.preEntityState == f.preEntityState
      && rec.committed == f.committed
  }

  ghost predicate RecordsOk(m: Model, l: LPId, recs: seq<Record>) {
    forall i :: 0 <= i < |recs| ==> RecordOk(m, l, StateAfter(m, l, EventsOf(recs[..i])), recs[i])
  }

  ghost predicate SortedRecords(recs: seq<Record>) {
    forall i, j :: 0 <= i < j < |recs| ==> recs[i].ev.ts.Le(recs[j].ev.ts)
  }

  /* ---- Snapshots ---- */

  /** While a disciplined script runs, the snapshots taken so far can undo the writes done so far. */
  ghost predicate Undoable(byEntity: bool, pre: LpState, requested: set<EntityId>, f: Frame) {
    && f.state.Keys == pre.Keys
    && requested <= pre.Keys
    && (if byEntity then
          && !f.hasLpSnapshot
          && f.preEntityState.Keys == requested
          && (forall id :: id in requested ==> f.preEntityState[id] == pre[id])
          && (forall id :: id in pre && id !in requested ==> f.state[id] == pre[id])
        else
          && f.preEntityState == map[]
          && (f.hasLpSnapshot ==> f.preLpState == pre)
          && (!f.hasLpSnapshot ==> f.state == pre && requested == {}))
  }

  lemma {:induction false} ScriptIsUndoable(byEntity: bool, pre: LpState, requested: set<EntityId>, f: Frame,
                                            script: seq<Action>)
    requires Disciplined(pre.Keys, requested, script)
    requires Undoable(byEntity, pre, requested, f)
    ensures exists done :: Undoable(byEntity, pre, done, RunFrame(byEntity, f, script))
    decreases |script|
  {
    if |script| == 0 {
      assert Undoable(byEntity, pre, requested, RunFrame(byEntity, f, script));
    } else {
      var g := StepFrame(byEntity, f, script[0]);
      var now := if script[0].RequestWrite? then requested + {script[0].id} else requested;
      assert Undoable(byEntity, pre, now, g);
      ScriptIsUndoable(byEntity, pre, now, g, script[1..]);
      var done :| Undoable(byEntity, pre, done, RunFrame(byEntity, g, script[1..]));
      assert Undoable(byEntity, pre, done, RunFrame(byEntity, f, script));
    }
  }

  /** Undoing one record on the state its event left gives back the state before it. */
  lemma UndoRecord(m: Model, l: LPId, pre: LpState, rec: Record)
    requires DisciplinedModel(m)
    requires pre.Keys == m.init(l).Keys
    requires RecordOk(m, l, pre, rec)
    ensures AfterEvent(m, l, pre, rec.ev).Keys == pre.Keys
    ensures Restore([rec], AfterEvent(m, l, pre, rec.ev)) == pre
  {
    var after := AfterEvent(m, l, pre, rec.ev);
    assert Restore([rec], after) == if rec.hasLpSnapshot then rec.preLpState else after + rec.preEntityState;
    if !rec.ev.isAnti {
      var byEntity := m.entitySnapshots(l);
      var script := m.handle(l, pre, rec.ev);
      ScriptIsUndoable(byEntity, pre, {}, OpenFrame(pre), script);
      var done :| Undoable(byEntity, pre, done, RunFrame(byEntity, OpenFrame(pre), script));
    }
  }

  lemma {:induction false} StateKeepsEntities(m: Model, l: LPId, recs: seq<Record>)
    requires DisciplinedModel(m)
    requires RecordsOk(m, l, recs)
    ensures StateAfter(m, l, EventsOf(recs)).Keys == m.init(l).Keys
    decreases |recs|
  {
    if |recs| > 0 {
      var n := |recs| - 1;
      RecordsOkPrefix(m, l, recs, n);
      StateKeepsEntities(m, l, recs[..n]);
      EventsOfPrefix(recs, n);
      UndoRecord(m, l, StateAfter(m, l, EventsOf(recs[..n])), recs[n]);
    }
  }

  lemma RestoreSplit(undone: seq<Record>, state: LpState)
    requires |undone| > 0
    ensures Restore(undone, state) == Restore([undone[0]], Restore(undone[1..], state))
  {
  }

  /** Restoring the snapshots of the records from `k` on, whichever of them have any, takes the
      LP back to the state it had after the first `k`. */
  lemma {:induction false} RestoreIsReplay(m: Model, l: LPId, recs: seq<Record>, k: nat)
    requires DisciplinedModel(m)
    requires RecordsOk(m, l, recs)
    requires k <= |recs|
    ensures Restore(recs[k..], StateAfter(m, l, EventsOf(recs))) == StateAfter(m, l, EventsOf(recs[..k]))
    decreases |recs| - k
  {
    if k == |recs| {
      assert recs[..k] == recs;
    } else {
      var last := StateAfter(m, l, EventsOf(recs));
      RestoreIsReplay(m, l, recs, k + 1);
      assert Restore(recs[k..], last) == Restore([recs[k]], Restore(recs[k + 1..], last)) by {
        RestoreSplit(recs[k..], last);
        assert recs[k..][1..] == recs[k + 1..];
      }
      StateAfterOneMore(m, l, recs, k);
      RecordsOkPrefix(m, l, recs, k);
      StateKeepsEntities(m, l, recs[..k]);
      UndoRecord(m, l, StateAfter(m, l, EventsOf(recs[..k])), recs[k]);
    }
  }

  lemma StateAfterOneMore(m: Model, l: LPId, recs: seq<Record>, k: nat)
    requires k < |recs|
    ensures StateAfter(m, l, EventsOf(recs[..k + 1]))
         == AfterEvent(m, l, StateAfter(m, l, EventsOf(recs[..k])), recs[k].ev)
  {
    assert EventsOf(recs[..k + 1]) == EventsOf(recs[..k]) + [recs[k].ev];
    ReplaySnoc(m, l, true, EventsOf(recs[..k]), recs[k].ev);
  }

  lemma RecordsOkPrefix(m: Model, l: LPId, recs: seq<Record>, k: nat)
    requires RecordsOk(m, l, recs) && k <= |recs|
    ensures RecordsOk(m, l, recs[..k])
  {
    forall i | 0 <= i < k ensures recs[..k][..i] == recs[..i] {}
  }

  lemma RecordsOkSnoc(m: Model, l: LPId, recs: seq<Record>, rec: Record)
    requires RecordsOk(m, l, recs)
    requires RecordOk(m, l, StateAfter(m, l, EventsOf(recs)), rec)
    ensures RecordsOk(m, l, recs + [rec])
  {
    var more := recs + [rec];
    forall i | 0 <= i < |more|
      ensures RecordOk(m, l, StateAfter(m, l, EventsOf(more[..i])), more[i])
    {
      if i < |recs| { assert more[..i] == recs[..i]; } else { assert more[..i] == recs; }
    }
  }

  /* ---- The send log ---- */

  /** An event as the kernel stamps it from what the model asked for. */
  ghost predicate StampedFrom(cfg: Config, msg: Event, ev: Event) {
    && ev.src == msg.src && ev.target == msg.target && ev.payload == msg.payload && !ev.isAnti
    && ev.ts.time == msg.ts.time && ev.ts.sequence != 0
    && (msg.ts.sequence != 0 ==> ev.ts == msg.ts)
    && Route(cfg, msg) == Some(ev.dst)
  }

  /** A log entry answers a request: same send time, and the event of its uid is the stamped message. */
  ghost predicate Answers(cfg: Config, sent: seq<Event>, entry: SentRecord, req: Request) {
    && 1 <= entry.uid <= |sent|
    && entry.sendTime == req.sendTime
    && entry.msgTime == sent[entry.uid - 1].ts
    && entry.dst == sent[entry.uid - 1].dst
    && StampedFrom(cfg, req.msg, sent[entry.uid - 1])
  }

  ghost predicate LogOk(cfg: Config, sent: seq<Event>, log: seq<SentRecord>, reqs: seq<Request>) {
    && |log| == |reqs|
    && forall i :: 0 <= i < |log| ==> Answers(cfg, sent, log[i], reqs[i])
  }

  lemma LogOkGrows(cfg: Config, sent: seq<Event>, more: seq<Event>, log: seq<SentRecord>, reqs: seq<Request>)
    requires LogOk(cfg, sent, log, reqs)
    requires sent <= more
    ensures LogOk(cfg, more, log, reqs)
  {
    forall i | 0 <= i < |log| ensures Answers(cfg, more, log[i], reqs[i]) {
      assert Answers(cfg, sent, log[i], reqs[i]);
      assert more[log[i].uid - 1] == sent[log[i].uid - 1];
    }
  }

  /** The send times asked for by a log of events below `to` are below `to`, and those of an event
      at or after `to` are not: cutting both logs at `to` keeps them in step. */
  lemma {:induction false} RequestTimes(m: Model, l: LPId, started: bool, recs: seq<Record>, to: TimeStamp)
    requires to != ZERO
    requires forall i :: 0 <= i < |recs| ==> recs[i].ev.ts.Lt(to)
    ensures forall q :: q in RequestsOf(m, l, started, EventsOf(recs)) ==> q.sendTime.Lt(to)
    decreases |recs|
  {
    if |recs| > 0 {
      var n := |recs| - 1;
      RequestTimes(m, l, started, recs[..n], to);
      EventsOfPrefix(recs, n);
    }
  }

  lemma {:induction false} LaterRequestTimes(m: Model, l: LPId, started: bool, recs: seq<Record>, k: nat, to: TimeStamp)
    requires k <= |recs|
    requires forall i :: k <= i < |recs| ==> to.Le(recs[i].ev.ts)
    ensures RequestsOf(m, l, started, EventsOf(recs[..k])) <= RequestsOf(m, l, started, EventsOf(recs))
    ensures forall i :: |RequestsOf(m, l, started, EventsOf(recs[..k]))| <= i < |RequestsOf(m, l, started, EventsOf(recs))|
              ==> to.Le(RequestsOf(m, l, started, EventsOf(recs))[i].sendTime)
    decreases |recs|
  {
    if k == |recs| {
      assert recs[..k] == recs;
    } else {
      var n := |recs| - 1;
      var before := recs[..n];
      LaterRequestTimes(m, l, started, before, k, to);
      assert before[..k] == recs[..k];
      assert recs[..n + 1] == recs;
      RequestsOneMore(m, l, started, recs, n);
    }
  }

  lemma RequestsOneMore(m: Model, l: LPId, started: bool, recs: seq<Record>, k: nat)
    requires k < |recs|
    ensures RequestsOf(m, l, started, EventsOf(recs[..k + 1]))
         == RequestsOf(m, l, started, EventsOf(recs[..k]))
            + RequestsOfEvent(m, l, StateAfter(m, l, EventsOf(recs[..k])), recs[k].ev)
  {
    assert EventsOf(recs[..k + 1]) == EventsOf(recs[..k]) + [recs[k].ev];
    ReplaySnoc(m, l, started, EventsOf(recs[..k]), recs[k].ev);
  }
}
