/** The invariant of one LP and the effect of each kernel operation on the LPs of a rank. */
module LpInvariant {
  import opened Stamps
  import opened Events
  import opened Models
  import opened Kernel
  import opened Replay
  import opened Collections

  /** The whole history of an LP, pruned or not. */
  function AllRecords(ctx: LpContext, past: LpPast): seq<Record> {
    past.committed + ctx.processed
  }

  function AllSends(ctx: LpContext, past: LpPast): seq<SentRecord> {
    past.pruned + ctx.sentLog
  }

  /** Uids are handed out one after the other and never again. */
  ghost predicate UidsInStep(ctx: LpContext, past: LpPast) {
    |past.sent| < TWO64 && ctx.nextUid == if |past.sent| == TWO64 - 1 then 0 else |past.sent| + 1
  }

  /** The log is in time order and the LP's virtual time is not behind it. */
  ghost predicate InTime(recs: seq<Record>, vt: TimeStamp) {
    SortedRecords(recs) && (|recs| > 0 ==> recs[|recs| - 1].ev.ts.Le(vt))
  }

  /** The state is the replay of the log, and the records carry the snapshots of that replay. */
  ghost predicate Replays(m: Model, l: LPId, recs: seq<Record>, state: LpState) {
    RecordsOk(m, l, recs) && state == StateAfter(m, l, EventsOf(recs))
  }

  /** The send log answers, one for one and in order, the messages the replay asks for. */
  ghost predicate SendsLogged(cfg: Config, m: Model, l: LPId, started: bool, sent: seq<Event>,
                              recs: seq<Record>, log: seq<SentRecord>) {
    LogOk(cfg, sent, log, RequestsOf(m, l, started, EventsOf(recs)))
  }

  ghost predicate LpOk(cfg: Config, m: Model, l: LPId, ctx: LpContext, past: LpPast) {
    var recs := AllRecords(ctx, past);
    && InTime(recs, ctx.vt)
    && Replays(m, l, recs, ctx.state)
    && SendsLogged(cfg, m, l, past.started, past.sent, recs, AllSends(ctx, past))
    && UidsInStep(ctx, past)
    && !ctx.inEvent
  }

  ghost predicate LpsOk(cfg: Config, m: Model, r: Rank) {
    && r.past.Keys == r.lps.Keys
    && forall l :: l in r.lps ==> LpOk(cfg, m, l, r.lps[l], r.past[l])
  }

  ghost predicate RecordsBelow(recs: seq<Record>, to: TimeStamp) {
    forall i :: 0 <= i < |recs| ==> recs[i].ev.ts.Lt(to)
  }

  ghost predicate SendsBelow(log: seq<SentRecord>, to: TimeStamp) {
    forall i :: 0 <= i < |log| ==> log[i].sendTime.Lt(to)
  }

  /** The first `k` records are below `to` and the others are not. */
  ghost predicate SplitsAt(recs: seq<Record>, k: nat, to: TimeStamp) {
    && k <= |recs|
    && (forall i :: 0 <= i < k ==> recs[i].ev.ts.Lt(to))
    && (forall i :: k <= i < |recs| ==> to.Le(recs[i].ev.ts))
  }

  /** The last of the first `j` entries is below `to` and the next one is not. */
  ghost predicate TurnsAt(log: seq<SentRecord>, j: nat, to: TimeStamp) {
    && j <= |log|
    && (j > 0 ==> log[j - 1].sendTime.Lt(to))
    && (j < |log| ==> to.Le(log[j].sendTime))
  }

  /** Everything forgotten about an LP is below a stamp. */
  ghost predicate PastBelow(past: LpPast, to: TimeStamp) {
    RecordsBelow(past.committed, to) && SendsBelow(past.pruned, to)
  }

  /* ---- Retracting sends ---- */

  /** An anti-message is complete when it is made; sending it changes no LP context. */
  predicate CompleteAnti(l: LPId, anti: Event) {
    anti.src == l && anti.isAnti && anti.uid != 0 && anti.ts.sequence != 0 && anti.target == 0
  }

  lemma SendAntiShape(cfg: Config, me: RankId, r: Rank, anti: Event)
    requires !r.aborted && Hosts(r, anti.src)
    requires CompleteAnti(anti.src, anti)
    ensures
      var painted := Paint(cfg, r, anti);
      SendEvent(cfg, me, r, anti) == LogSend(Post(cfg, me, r, painted), painted)
  {
    PutSame(r.lps, anti.src);
    assert Stamp(cfg, r.lps[anti.src], anti) == Stamping(r.lps[anti.src], anti);
  }

  lemma {:induction false} SendAntisShape(cfg: Config, me: RankId, r: Rank, l: LPId, antis: seq<Event>)
    requires !r.aborted && Hosts(r, l)
    requires forall i :: 0 <= i < |antis| ==> CompleteAnti(l, antis[i])
    ensures
      var u := SendAll(cfg, me, r, antis);
      && Hosts(u, l)
      && u.past == r.past[l := r.past[l].(antis := u.past[l].antis)]
      && u == r.(past := u.past, pending := u.pending, wire := u.wire,
                 inflight := u.inflight, inflightTs := u.inflightTs, phase := u.phase)
    decreases |antis|
  {
    if |antis| == 0 {
      PutSame(r.past, l);
    } else {
      var one := SendEvent(cfg, me, r, antis[0]);
      SendAntiShape(cfg, me, r, antis[0]);
      SendAntisShape(cfg, me, one, l, antis[1..]);
      PutPut(r.past, l, one.past[l], SendAll(cfg, me, r, antis).past[l]);
    }
  }

  /* ---- Sending ---- */

  predicate SameButCounters(a: LpContext, b: LpContext) {
    a == b.(nextUid := a.nextUid, nextSeqNormal := a.nextSeqNormal, nextSeqControl := a.nextSeqControl)
  }

  function SendTime(ctx: LpContext): TimeStamp {
    if ctx.inEvent then ctx.currentExecTs else ZERO
  }

  /** What sending one message of its own does to an LP: the event gets the next uid, is logged
      with the time of sending, and goes out as stamped. */
  lemma SendOwnShape(cfg: Config, me: RankId, r: Rank, l: LPId, t: Event) returns (ctx: LpContext, e: Event)
    requires Hosts(r, l) && OwnMessage(l, t)
    requires UidsInStep(r.lps[l], r.past[l])
    requires !SendEvent(cfg, me, r, t).aborted
    ensures !r.aborted
    ensures e.uid == |r.past[l].sent| + 1 && StampedFrom(cfg, t, e)
    ensures cfg.mode.ColoredCounters? ==> e.gvtColor == r.phase.color
    ensures SameButCounters(ctx, r.lps[l].(sentLog := r.lps[l].sentLog + [SentRecord(SendTime(r.lps[l]), e.ts, e.dst, e.uid)]))
    ensures UidsInStep(ctx, r.past[l].(sent := r.past[l].sent + [e]))
    ensures SendEvent(cfg, me, r, t)
         == Post(cfg, me, r, e).(lps := r.lps[l := ctx], past := r.past[l := r.past[l].(sent := r.past[l].sent + [e])])
  {
    var s := Stamp(cfg, r.lps[l], t);
    StampIsFaithful(cfg, r.lps[l], t);
    e := Paint(cfg, r, s.ev);
    PostIgnoresLps(cfg, me, r, l, s.ctx, e);
    ctx := s.ctx.(sentLog := s.ctx.sentLog + [SentRecord(SendTime(s.ctx), e.ts, e.dst, e.uid)]);
    PutPut(r.lps, l, s.ctx, ctx);
  }

  lemma StampIsFaithful(cfg: Config, ctx: LpContext, t: Event)
    requires t.uid == 0 && !t.isAnti
    requires Stamp(cfg, ctx, t).Stamping?
    ensures
      var s := Stamp(cfg, ctx, t);
      && ctx.nextUid != 0 && s.ev.uid == ctx.nextUid && s.ctx.nextUid == Next64(ctx.nextUid)
      && StampedFrom(cfg, t, s.ev)
  {
    var s1 := AssignUid(ctx, t);
    var s2 := AssignSequence(cfg, s1.ctx, s1.ev);
    assert Route(cfg, s2.ev) == Route(cfg, t);
  }

  lemma PostIgnoresLps(cfg: Config, me: RankId, r: Rank, l: LPId, ctx: LpContext, ev: Event)
    ensures Post(cfg, me, WithLp(r, l, ctx), ev) == WithLp(Post(cfg, me, r, ev), l, ctx)
  {
    if cfg.rankOf(ev.dst) == me {
    } else if cfg.mode.AckInflight? {
      assert TrackSend(WithLp(r, l, ctx), ev) == WithLp(TrackSend(r, ev), l, ctx);
    } else {
    }
  }

  /** Sending a list of own messages at one time: they are logged in order, and the log entries
      answer them. */
  lemma {:induction false} SendAllShape(cfg: Config, me: RankId, r: Rank, l: LPId, msgs: seq<Event>)
    returns (ctx: LpContext, log: seq<SentRecord>, more: seq<Event>)
    requires Hosts(r, l)
    requires forall i :: 0 <= i < |msgs| ==> OwnMessage(l, msgs[i])
    requires UidsInStep(r.lps[l], r.past[l])
    requires !SendAll(cfg, me, r, msgs).aborted
    ensures !r.aborted
    ensures SameButCounters(ctx, r.lps[l].(sentLog := r.lps[l].sentLog + log))
    ensures UidsInStep(ctx, r.past[l].(sent := r.past[l].sent + more))
    ensures LogOk(cfg, r.past[l].sent + more, log, RequestsAt(SendTime(r.lps[l]), msgs))
    ensures SendAll(cfg, me, r, msgs).lps == r.lps[l := ctx]
    ensures SendAll(cfg, me, r, msgs).past == r.past[l := r.past[l].(sent := r.past[l].sent + more)]
    ensures SameButTraffic(SendAll(cfg, me, r, msgs), r)
    decreases |msgs|
  {
    if |msgs| == 0 {
      ctx, log, more := r.lps[l], [], [];
      PutSame(r.lps, l);
      PutSame(r.past, l);
      assert r.past[l].sent + more == r.past[l].sent && r.lps[l].sentLog + log == r.lps[l].sentLog;
    } else {
      var one := SendEvent(cfg, me, r, msgs[0]);
      AbortSticks(cfg, me, one, msgs[1..]);
      var ctx1, e := SendOwnShape(cfg, me, r, l, msgs[0]);
      var log1, more1;
      ctx, log1, more1 := SendAllShape(cfg, me, one, l, msgs[1..]);
      var entry := SentRecord(SendTime(r.lps[l]), e.ts, e.dst, e.uid);
      log, more := [entry] + log1, [e] + more1;
      SendAllStep(cfg, me, r, l, msgs, ctx1, e, ctx, log1, more1);
    }
  }

  lemma SendAllStep(cfg: Config, me: RankId, r: Rank, l: LPId, msgs: seq<Event>,
                    ctx1: LpContext, e: Event, ctx: LpContext, log: seq<SentRecord>, more: seq<Event>)
    requires Hosts(r, l) && |msgs| > 0
    requires e.uid == |r.past[l].sent| + 1 && StampedFrom(cfg, msgs[0], e)
    requires SameButCounters(ctx1, r.lps[l].(sentLog := r.lps[l].sentLog + [SentRecord(SendTime(r.lps[l]), e.ts, e.dst, e.uid)]))
    requires
      var one := SendEvent(cfg, me, r, msgs[0]);
      var past := r.past[l];
      var past1 := past.(sent := past.sent + [e]);
      && one == Post(cfg, me, r, e).(lps := r.lps[l := ctx1], past := r.past[l := past1])
      && var u := SendAll(cfg, me, one, msgs[1..]);
      && SameButCounters(ctx, ctx1.(sentLog := ctx1.sentLog + log))
      && UidsInStep(ctx, past1.(sent := past1.sent + more))
      && LogOk(cfg, past1.sent + more, log, RequestsAt(SendTime(ctx1), msgs[1..]))
      && u.lps == one.lps[l := ctx]
      && u.past == one.past[l := past1.(sent := past1.sent + more)]
      && SameButTraffic(u, one)
    ensures
      var entry := SentRecord(SendTime(r.lps[l]), e.ts, e.dst, e.uid);
      var u := SendAll(cfg, me, r, msgs);
      && SameButCounters(ctx, r.lps[l].(sentLog := r.lps[l].sentLog + ([entry] + log)))
      && UidsInStep(ctx, r.past[l].(sent := r.past[l].sent + ([e] + more)))
      && LogOk(cfg, r.past[l].sent + ([e] + more), [entry] + log, RequestsAt(SendTime(r.lps[l]), msgs))
      && u.lps == r.lps[l := ctx]
      && u.past == r.past[l := r.past[l].(sent := r.past[l].sent + ([e] + more))]
      && SameButTraffic(u, r)
  {
    var entry := SentRecord(SendTime(r.lps[l]), e.ts, e.dst, e.uid);
    var past := r.past[l];
    var past1 := past.(sent := past.sent + [e]);
    Concat3(past.sent, e, more);
    Concat3(r.lps[l].sentLog, entry, log);
    PutPut(r.lps, l, ctx1, ctx);
    PutPut(r.past, l, past1, past1.(sent := past1.sent + more));
    LogOkCons(cfg, past.sent + ([e] + more), entry, log, SendTime(r.lps[l]), msgs);
  }

  predicate SameButTraffic(a: Rank, b: Rank) {
    a == b.(lps := a.lps, past := a.past, pending := a.pending, wire := a.wire,
            inflight := a.inflight, inflightTs := a.inflightTs, phase := a.phase)
  }

  lemma LogOkCons(cfg: Config, sent: seq<Event>, entry: SentRecord, log: seq<SentRecord>, time: TimeStamp, msgs: seq<Event>)
    requires |msgs| > 0
    requires Answers(cfg, sent, entry, Request(time, msgs[0]))
    requires LogOk(cfg, sent, log, RequestsAt(time, msgs[1..]))
    ensures LogOk(cfg, sent, [entry] + log, RequestsAt(time, msgs))
  {
    var reqs := RequestsAt(time, msgs);
    forall i | 0 <= i < |msgs|
      ensures Answers(cfg, sent, ([entry] + log)[i], reqs[i])
    {
      if i > 0 { assert reqs[i] == RequestsAt(time, msgs[1..])[i - 1]; }
    }
  }

  lemma {:induction false} AbortSticks(cfg: Config, me: RankId, r: Rank, msgs: seq<Event>)
    ensures r.aborted ==> SendAll(cfg, me, r, msgs) == r
    decreases |msgs|
  {
    if |msgs| > 0 {
      AbortSticks(cfg, me, SendEvent(cfg, me, r, msgs[0]), msgs[1..]);
    }
  }
}
