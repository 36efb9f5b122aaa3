/** The invariant of all LPs of a rank, through every operation of the kernel. */
module RankSteps {
  import opened Stamps
  import opened Events
  import opened Models
  import opened Kernel
  import opened Replay
  import opened LpInvariant
  import opened LpSteps
  import opened Collections

  lemma LpsOkWith(cfg: Config, m: Model, r: Rank, l: LPId, u: Rank)
    requires LpsOk(cfg, m, r) && Hosts(r, l) && Hosts(u, l)
    requires u.lps == r.lps[l := u.lps[l]] && u.past == r.past[l := u.past[l]]
    requires LpOk(cfg, m, l, u.lps[l], u.past[l])
    ensures LpsOk(cfg, m, u)
  {
  }

  /* ---- Start-up ---- */

  lemma StartKeeps(cfg: Config, m: Model, me: RankId, r: Rank, l: LPId)
    requires CausalModel(m) && LpsOk(cfg, m, r) && Hosts(r, l)
    requires !r.past[l].started && AllRecords(r.lps[l], r.past[l]) == []
    requires !StartLp(cfg, m, me, r, l).aborted
    ensures LpsOk(cfg, m, StartLp(cfg, m, me, r, l))
  {
    hide InTime, Replays, SendsLogged;
    var past := r.past[l].(started := true);
    var begun := r.(past := r.past[l := past]);
    var ctx, log, more := SendAllShape(cfg, me, begun, l, m.start(l));
    var u := StartLp(cfg, m, me, r, l);
    PutPut(r.past, l, past, past.(sent := past.sent + more));
    StartLpOk(cfg, m, l, r.lps[l], r.past[l], ctx, past.(sent := past.sent + more), log);
    LpsOkWith(cfg, m, r, l, u);
  }

  lemma StartLpOk(cfg: Config, m: Model, l: LPId, ctx: LpContext, past: LpPast, ctxAfter: LpContext, pastAfter: LpPast,
                  log: seq<SentRecord>)
    requires LpOk(cfg, m, l, ctx, past)
    requires !past.started && AllRecords(ctx, past) == []
    requires pastAfter == past.(started := true, sent := pastAfter.sent)
    requires SameButCounters(ctxAfter, ctx.(sentLog := ctx.sentLog + log)) && UidsInStep(ctxAfter, pastAfter)
    requires LogOk(cfg, pastAfter.sent, log, RequestsAt(ZERO, m.start(l)))
    ensures LpOk(cfg, m, l, ctxAfter, pastAfter)
  {
    hide InTime, Replays;
    assert AllRecords(ctxAfter, pastAfter) == AllRecords(ctx, past);
    assert AllSends(ctx, past) == [];
    assert AllSends(ctxAfter, pastAfter) == log;
    assert EventsOf([]) == [];
  }

  /* ---- Executing an event ---- */

  /** Executing an event changes one LP: its record is logged, its state moves on, and its
      messages are logged. */
  lemma ExecuteShape(cfg: Config, m: Model, me: RankId, r: Rank, ev: Event)
    returns (ctx: LpContext, log: seq<SentRecord>, more: seq<Event>)
    requires CausalModel(m) && Hosts(r, ev.dst) && !ev.isAnti
    requires UidsInStep(r.lps[ev.dst], r.past[ev.dst])
    requires !Execute(cfg, m, me, r, ev).aborted
    ensures
      var l := ev.dst;
      var old_ctx := r.lps[l];
      var script := m.handle(l, old_ctx.state, ev);
      var f := RunFrame(m.entitySnapshots(l), OpenFrame(old_ctx.state), script);
      && SameButCounters(ctx, old_ctx.(vt := ev.ts, currentExecTs := ev.ts, inEvent := false, state := f.state,
                                       processed := old_ctx.processed + [EventRecord(old_ctx, ev, f)],
                                       sentLog := old_ctx.sentLog + log))
      && UidsInStep(ctx, r.past[l].(sent := r.past[l].sent + more))
      && LogOk(cfg, r.past[l].sent + more, log, RequestsAt(ev.ts, SendsOf(script)))
    ensures EmitsAt(ev.ts, m.handle(ev.dst, r.lps[ev.dst].state, ev))
    ensures Execute(cfg, m, me, r, ev).lps == r.lps[ev.dst := ctx]
    ensures Execute(cfg, m, me, r, ev).past == r.past[ev.dst := r.past[ev.dst].(sent := r.past[ev.dst].sent + more)]
    ensures SameButTraffic(Execute(cfg, m, me, r, ev), r)
  {
    var l := ev.dst;
    var open := WithLp(r, l, OpenLp(r.lps[l], ev));
    var script := m.handle(l, r.lps[l].state, ev);
    assert Hosts(open, l);
    forall i | 0 <= i < |SendsOf(script)|
      ensures OwnMessage(l, SendsOf(script)[i])
    {
      assert SendsOf(script)[i] in SendsOf(script);
    }
    var ctx1;
    ctx1, log, more := SendAllShape(cfg, me, open, l, SendsOf(script));
    var u := Execute(cfg, m, me, r, ev);
    ctx := u.lps[l];
    PutPut(r.lps, l, OpenLp(r.lps[l], ev), ctx1);
    PutPut(r.lps, l, ctx1, ctx);
  }

  lemma ExecuteKeeps(cfg: Config, m: Model, me: RankId, r: Rank, ev: Event)
    requires CausalModel(m) && LpsOk(cfg, m, r) && ev.dst in r.lps && !ev.isAnti
    requires r.lps[ev.dst].vt.Le(ev.ts)
    requires !Execute(cfg, m, me, r, ev).aborted
    ensures LpsOk(cfg, m, Execute(cfg, m, me, r, ev))
  {
    var l := ev.dst;
    var ctx, log, more := ExecuteShape(cfg, m, me, r, ev);
    var f := RunFrame(m.entitySnapshots(l), OpenFrame(r.lps[l].state), m.handle(l, r.lps[l].state, ev));
    PushKeeps(cfg, m, l, r.lps[l], r.past[l], EventRecord(r.lps[l], ev, f), log, more, ctx);
    LpsOkWith(cfg, m, r, l, Execute(cfg, m, me, r, ev));
  }

  /* ---- Rolling back ---- */

  /** Log entries answer requests, so they carry an identity and a full stamp. */
  lemma LoggedSendsAreComplete(cfg: Config, m: Model, l: LPId, ctx: LpContext, past: LpPast)
    requires LpOk(cfg, m, l, ctx, past)
    ensures forall i :: 0 <= i < |ctx.sentLog| ==> CompleteAnti(l, AntiFor(l, ctx.sentLog[i]))
  {
    var log := AllSends(ctx, past);
    var reqs := RequestsOf(m, l, past.started, EventsOf(AllRecords(ctx, past)));
    forall i | 0 <= i < |ctx.sentLog|
      ensures CompleteAnti(l, AntiFor(l, ctx.sentLog[i]))
    {
      var j := |past.pruned| + i;
      assert log[j] == ctx.sentLog[i];
      assert Answers(cfg, past.sent, log[j], reqs[j]);
    }
  }

  /** The LP after a rollback to `to`. */
  function RewoundLp(ctx: LpContext, to: TimeStamp): LpContext {
    var k := Cut(ctx.processed, to);
    Rewind(ctx, ctx.processed[k..], to)
    .(processed := ctx.processed[..k], sentLog := ctx.sentLog[..SendCut(ctx.sentLog, to)])
  }

  /** The anti-messages a rollback to `to` sends, newest first. */
  function RollbackAntis(l: LPId, ctx: LpContext, to: TimeStamp): seq<Event> {
    AntisFor(l, ctx.sentLog[SendCut(ctx.sentLog, to)..])
  }

  lemma RewoundShape(r: Rank, l: LPId, to: TimeStamp)
    requires l in r.lps
    ensures
      var ctx := r.lps[l];
      var k := Cut(ctx.processed, to);
      Rewound(r, l, to) == r.(
        lps := r.lps[l := Rewind(ctx, ctx.processed[k..], to).(processed := ctx.processed[..k])],
        pending := r.pending + multiset(EventsOf(ctx.processed[k..])),
        cancelled := UndoCancels(r.cancelled, ctx.processed[k..]),
        rollbacks := r.rollbacks + 1)
  {
    var ctx := r.lps[l];
    var k := Cut(ctx.processed, to);
    var undone := Undo(r.(rollbacks := r.rollbacks + 1), l, to);
    PutPut(r.lps, l, undone.lps[l], Rewind(undone.lps[l], ctx.processed[k..], to));
  }

  /** What a rollback does: one LP is rewound, the undone events are pending again, their
      tombstones are gone, and one anti-message goes out for each retracted send. */
  lemma RollbackShape(cfg: Config, m: Model, me: RankId, r: Rank, l: LPId, to: TimeStamp)
    requires LpsOk(cfg, m, r) && l in r.lps && !r.aborted
    ensures Hosts(Rollback(cfg, me, r, l, to), l)
    ensures Rollback(cfg, me, r, l, to).lps == r.lps[l := RewoundLp(r.lps[l], to)]
    ensures Rollback(cfg, me, r, l, to).past
         == r.past[l := r.past[l].(antis := Rollback(cfg, me, r, l, to).past[l].antis)]
    ensures Rollback(cfg, me, r, l, to).cancelled
         == UndoCancels(r.cancelled, r.lps[l].processed[Cut(r.lps[l].processed, to)..])
    ensures SameButTraffic(Rollback(cfg, me, r, l, to),
                           r.(cancelled := Rollback(cfg, me, r, l, to).cancelled, rollbacks := r.rollbacks + 1))
  {
    hide Undo, Rewound, InTime, Replays, SendsLogged, UndoCancels, SendEvent, Restore;
    var base := Rewound(r, l, to);
    var ctx := r.lps[l];
    RewoundShape(r, l, to);
    LoggedSendsAreComplete(cfg, m, l, ctx, r.past[l]);
    SendAntisShape(cfg, me, base, l, RollbackAntis(l, ctx, to));
    PutPut(r.lps, l, base.lps[l], RewoundLp(ctx, to));
  }

  lemma RollbackKeeps(cfg: Config, m: Model, me: RankId, r: Rank, l: LPId, to: TimeStamp)
    requires DisciplinedModel(m) && LpsOk(cfg, m, r) && l in r.lps && !r.aborted
    requires to != ZERO && PastBelow(r.past[l], to)
    ensures LpsOk(cfg, m, Rollback(cfg, me, r, l, to))
  {
    hide Rollback, InTime, Replays, SendsLogged, PastBelow, UndoCancels;
    RollbackShape(cfg, m, me, r, l, to);
    var u := Rollback(cfg, me, r, l, to);
    RewindLpKeeps(cfg, m, l, r.lps[l], r.past[l], to, u.past[l].antis);
    LpsOkWith(cfg, m, r, l, u);
  }

  lemma RewindLpKeeps(cfg: Config, m: Model, l: LPId, ctx: LpContext, past: LpPast, to: TimeStamp,
                      antis: map<Uid, Event>)
    requires DisciplinedModel(m) && LpOk(cfg, m, l, ctx, past)
    requires to != ZERO && PastBelow(past, to)
    ensures LpOk(cfg, m, l, RewoundLp(ctx, to), past.(antis := antis))
  {
    hide InTime, Replays, SendsLogged, PastBelow;
    RewindKeeps(cfg, m, l, ctx, past, to, RewoundLp(ctx, to), past.(antis := antis));
  }

  /* ---- Anti-messages ---- */

  /** Recording an anti-message at or after the LP's virtual time. */
  lemma PushAntiKeeps(cfg: Config, m: Model, r: Rank, l: LPId, rec: Record)
    requires LpsOk(cfg, m, r) && l in r.lps
    requires rec.ev.isAnti && !rec.hasLpSnapshot && rec.preEntityState == map[] && rec.committed == []
    requires r.lps[l].vt.Le(rec.ev.ts)
    ensures LpsOk(cfg, m, PushRecord(r, l, rec))
  {
    hide InTime, Replays, SendsLogged;
    var ctx := r.lps[l];
    var past := r.past[l];
    var u := PushRecord(r, l, rec);
    assert past.(sent := past.sent + []) == past by { assert past.sent + [] == past.sent; }
    assert ctx.sentLog + [] == ctx.sentLog;
    PushKeeps(cfg, m, l, ctx, past, rec, [], [], u.lps[l]);
    PutSame(r.past, l);
    LpsOkWith(cfg, m, r, l, u);
  }

  lemma FindProcessedStamp(processed: seq<Record>, key: UidKey)
    ensures FindProcessed(processed, key).Some? ==>
      exists i :: 0 <= i < |processed| && !processed[i].ev.isAnti && KeyOf(processed[i].ev) == key
                  && processed[i].ev.ts == FindProcessed(processed, key).value
    ensures FindProcessed(processed, key).None? ==>
      forall i :: 0 <= i < |processed| && KeyOf(processed[i].ev) == key ==> processed[i].ev.isAnti
    decreases |processed|
  {
    var n := |processed|;
    if n > 0 { FindProcessedStamp(processed[..n - 1], key); }
  }
}
