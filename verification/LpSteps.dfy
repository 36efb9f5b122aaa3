/** Every kernel operation keeps the invariant of every LP on its rank: the state stays the replay
    of the logged events, and the send log stays the list of messages that replay asks for. */
module LpSteps {
  import opened Stamps
  import opened Events
  import opened Models
  import opened Kernel
  import opened Replay
  import opened LpInvariant
  import opened Collections

  /* ---- Pushing a record ---- */

  lemma InTimeSnoc(recs: seq<Record>, rec: Record, vt: TimeStamp)
    requires InTime(recs, vt) && vt.Le(rec.ev.ts)
    ensures InTime(recs + [rec], rec.ev.ts)
  {
  }

  lemma ReplaysSnoc(m: Model, l: LPId, recs: seq<Record>, rec: Record, state: LpState)
    requires Replays(m, l, recs, state) && RecordOk(m, l, state, rec)
    ensures Replays(m, l, recs + [rec], AfterEvent(m, l, state, rec.ev))
  {
    EventsOfSnoc(recs, rec);
    ReplaySnoc(m, l, true, EventsOf(recs), rec.ev);
    RecordsOkSnoc(m, l, recs, rec);
  }

  lemma EventsOfSnoc(recs: seq<Record>, rec: Record)
    ensures EventsOf(recs + [rec]) == EventsOf(recs) + [rec.ev]
  {
  }

  lemma SendsLoggedSnoc(cfg: Config, m: Model, l: LPId, started: bool, sent: seq<Event>, more: seq<Event>,
                        recs: seq<Record>, rec: Record, log: seq<SentRecord>, tail: seq<SentRecord>)
    requires SendsLogged(cfg, m, l, started, sent, recs, log)
    requires LogOk(cfg, sent + more, tail, RequestsOfEvent(m, l, StateAfter(m, l, EventsOf(recs)), rec.ev))
    ensures SendsLogged(cfg, m, l, started, sent + more, recs + [rec], log + tail)
  {
    EventsOfSnoc(recs, rec);
    ReplaySnoc(m, l, started, EventsOf(recs), rec.ev);
    var reqs := RequestsOf(m, l, started, EventsOf(recs));
    LogOkGrows(cfg, sent, sent + more, log, reqs);
    LogOkConcat(cfg, sent + more, log, tail, reqs, RequestsOfEvent(m, l, StateAfter(m, l, EventsOf(recs)), rec.ev));
  }

  /** A record at or after the LP's virtual time, with the log entries for its requests. */
  lemma PushKeeps(cfg: Config, m: Model, l: LPId, ctx: LpContext, past: LpPast,
                  rec: Record, tail: seq<SentRecord>, more: seq<Event>, ctxAfter: LpContext)
    requires LpOk(cfg, m, l, ctx, past)
    requires ctx.vt.Le(rec.ev.ts)
    requires RecordOk(m, l, ctx.state, rec)
    requires LogOk(cfg, past.sent + more, tail, RequestsOfEvent(m, l, ctx.state, rec.ev))
    requires ctxAfter.processed == ctx.processed + [rec] && ctxAfter.sentLog == ctx.sentLog + tail
    requires ctxAfter.vt == rec.ev.ts && ctxAfter.state == AfterEvent(m, l, ctx.state, rec.ev)
    requires !ctxAfter.inEvent && UidsInStep(ctxAfter, past.(sent := past.sent + more))
    ensures LpOk(cfg, m, l, ctxAfter, past.(sent := past.sent + more))
  {
    var recs := AllRecords(ctx, past);
    InTimeSnoc(recs, rec, ctx.vt);
    ReplaysSnoc(m, l, recs, rec, ctx.state);
    SendsLoggedSnoc(cfg, m, l, past.started, past.sent, more, recs, rec, AllSends(ctx, past), tail);
    ConcatAssoc(past.committed, ctx.processed, [rec]);
    ConcatAssoc(past.pruned, ctx.sentLog, tail);
  }

  lemma LogOkConcat(cfg: Config, sent: seq<Event>, log: seq<SentRecord>, logAfter: seq<SentRecord>,
                    reqs: seq<Request>, reqsAfter: seq<Request>)
    requires LogOk(cfg, sent, log, reqs) && LogOk(cfg, sent, logAfter, reqsAfter)
    ensures LogOk(cfg, sent, log + logAfter, reqs + reqsAfter)
  {
    forall i | 0 <= i < |log + logAfter|
      ensures Answers(cfg, sent, (log + logAfter)[i], (reqs + reqsAfter)[i])
    {
      if i < |log| {
        assert Answers(cfg, sent, log[i], reqs[i]);
      } else {
        assert Answers(cfg, sent, logAfter[i - |log|], reqsAfter[i - |log|]);
      }
    }
  }

  /* ---- Cutting back ---- */

  /** The two logs are cut at the same place. */
  lemma LogCut(cfg: Config, m: Model, l: LPId, started: bool, sent: seq<Event>, recs: seq<Record>, k: nat,
               log: seq<SentRecord>, j: nat, to: TimeStamp)
    requires to != ZERO && SplitsAt(recs, k, to) && TurnsAt(log, j, to)
    requires LogOk(cfg, sent, log, RequestsOf(m, l, started, EventsOf(recs)))
    ensures LogOk(cfg, sent, log[..j], RequestsOf(m, l, started, EventsOf(recs[..k])))
  {
    var reqs := RequestsOf(m, l, started, EventsOf(recs));
    var kept := RequestsOf(m, l, started, EventsOf(recs[..k]));
    RequestTimes(m, l, started, recs[..k], to);
    LaterRequestTimes(m, l, started, recs, k, to);
    forall i | 0 <= i < |log|
      ensures log[i].sendTime == reqs[i].sendTime
      ensures i < |kept| ==> log[i].sendTime.Lt(to)
    {
      assert Answers(cfg, sent, log[i], reqs[i]);
      assert i < |kept| ==> kept[i] in kept && kept[i] == reqs[i];
    }
    assert j == |kept|;
    forall i | 0 <= i < j
      ensures Answers(cfg, sent, log[..j][i], kept[i])
    {
      assert Answers(cfg, sent, log[i], reqs[i]);
    }
  }

  lemma InTimeCut(recs: seq<Record>, k: nat, vt: TimeStamp, to: TimeStamp)
    requires InTime(recs, vt) && k <= |recs| && to != ZERO
    requires k > 0 ==> recs[k - 1].ev.ts.Lt(to)
    ensures InTime(recs[..k], PrevStamp(to))
  {
    PrevStampIsPredecessor(to);
  }

  lemma ReplaysCut(m: Model, l: LPId, recs: seq<Record>, k: nat, state: LpState)
    requires DisciplinedModel(m)
    requires Replays(m, l, recs, state) && k <= |recs|
    ensures Replays(m, l, recs[..k], Restore(recs[k..], state))
  {
    RestoreIsReplay(m, l, recs, k);
    RecordsOkPrefix(m, l, recs, k);
  }

  lemma CutBehind<T>(a: seq<T>, b: seq<T>, k: nat)
    requires k <= |b|
    ensures (a + b)[..|a| + k] == a + b[..k]
    ensures (a + b)[|a| + k..] == b[k..]
  {
  }

  /** Where `to` falls in the whole log, when all of its forgotten part is below `to`. */
  lemma WholeCut(a: seq<Record>, b: seq<Record>, to: TimeStamp)
    requires SortedRecords(a + b)
    requires RecordsBelow(a, to)
    ensures SplitsAt(a + b, |a| + Cut(b, to), to)
  {
    var k := |a| + Cut(b, to);
    var all := a + b;
    forall i | 0 <= i < k ensures all[i].ev.ts.Lt(to) {
      if i >= |a| { assert all[i].ev.ts.Le(all[k - 1].ev.ts); }
    }
    forall i | k <= i < |all| ensures to.Le(all[i].ev.ts) {
      assert all[i] == b[i - |a|];
    }
  }

  lemma WholeSendCut(a: seq<SentRecord>, b: seq<SentRecord>, to: TimeStamp)
    requires SendsBelow(a, to)
    ensures TurnsAt(a + b, |a| + SendCut(b, to), to)
  {
  }

  /** The LP after a rollback to `to`: log and send log cut there, state restored. */
  lemma RewindKeeps(cfg: Config, m: Model, l: LPId, ctx: LpContext, past: LpPast, to: TimeStamp,
                    ctxAfter: LpContext, pastAfter: LpPast)
    requires DisciplinedModel(m)
    requires LpOk(cfg, m, l, ctx, past) && PastBelow(past, to) && to != ZERO
    requires ctxAfter.processed == ctx.processed[..Cut(ctx.processed, to)]
    requires ctxAfter.state == Restore(ctx.processed[Cut(ctx.processed, to)..], ctx.state)
    requires ctxAfter.sentLog == ctx.sentLog[..SendCut(ctx.sentLog, to)]
    requires ctxAfter.vt == PrevStamp(to) && !ctxAfter.inEvent && ctxAfter.nextUid == ctx.nextUid
    requires pastAfter == past.(antis := pastAfter.antis)
    ensures LpOk(cfg, m, l, ctxAfter, pastAfter)
  {
    RewindState(m, l, past.committed, ctx.processed, ctx.vt, ctx.state, to);
    RewindSends(cfg, m, l, past.started, past.sent, past.committed, ctx.processed, past.pruned, ctx.sentLog, to);
  }

  lemma RewindState(m: Model, l: LPId, committed: seq<Record>, processed: seq<Record>,
                    vt: TimeStamp, state: LpState, to: TimeStamp)
    requires DisciplinedModel(m) && to != ZERO
    requires InTime(committed + processed, vt)
    requires Replays(m, l, committed + processed, state)
    requires RecordsBelow(committed, to)
    ensures InTime(committed + processed[..Cut(processed, to)], PrevStamp(to))
    ensures Replays(m, l, committed + processed[..Cut(processed, to)], Restore(processed[Cut(processed, to)..], state))
  {
    hide Replays, Restore, Cut, DisciplinedModel;
    var recs := committed + processed;
    var k := |committed| + Cut(processed, to);
    assert k > 0 ==> recs[k - 1].ev.ts.Lt(to) by { WholeCut(committed, processed, to); }
    InTimeCut(recs, k, vt, to);
    ReplaysCut(m, l, recs, k, state);
    CutBehind(committed, processed, Cut(processed, to));
  }

  lemma RewindSends(cfg: Config, m: Model, l: LPId, started: bool, sent: seq<Event>,
                    committed: seq<Record>, processed: seq<Record>, pruned: seq<SentRecord>, sentLog: seq<SentRecord>,
                    to: TimeStamp)
    requires to != ZERO
    requires SortedRecords(committed + processed)
    requires SendsLogged(cfg, m, l, started, sent, committed + processed, pruned + sentLog)
    requires RecordsBelow(committed, to)
    requires SendsBelow(pruned, to)
    ensures SendsLogged(cfg, m, l, started, sent, committed + processed[..Cut(processed, to)],
                        pruned + sentLog[..SendCut(sentLog, to)])
  {
    WholeCut(committed, processed, to);
    WholeSendCut(pruned, sentLog, to);
    CutBehind(committed, processed, Cut(processed, to));
    CutBehind(pruned, sentLog, SendCut(sentLog, to));
    RewindSendsAt(cfg, m, l, started, sent, committed + processed, |committed| + Cut(processed, to),
                  committed + processed[..Cut(processed, to)],
                  pruned + sentLog, |pruned| + SendCut(sentLog, to), pruned + sentLog[..SendCut(sentLog, to)], to);
  }

  lemma RewindSendsAt(cfg: Config, m: Model, l: LPId, started: bool, sent: seq<Event>,
                      recs: seq<Record>, k: nat, front: seq<Record>,
                      log: seq<SentRecord>, j: nat, kept: seq<SentRecord>, to: TimeStamp)
    requires to != ZERO && SplitsAt(recs, k, to) && TurnsAt(log, j, to)
    requires front == recs[..k] && kept == log[..j]
    requires SendsLogged(cfg, m, l, started, sent, recs, log)
    ensures SendsLogged(cfg, m, l, started, sent, front, kept)
  {
    LogCut(cfg, m, l, started, sent, recs, k, log, j, to);
  }
}
