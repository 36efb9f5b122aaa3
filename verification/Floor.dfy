/** Nothing on a rank is below its last GVT, except what pruning has given up; and the messages it
    has on the wire are its own and for other ranks. */
module Floor {
  import opened Stamps
  import opened Events
  import opened Models
  import opened Kernel
  import opened Replay
  import opened LpInvariant
  import opened RankSteps
  import opened Books
  import opened BookSteps
  import opened Collections

  ghost predicate TrafficAbove(r: Rank, g: TimeStamp) {
    forall e :: e in Traffic(r) ==> g.Le(e.ts)
  }

  ghost predicate WireOut(cfg: Config, me: RankId, r: Rank) {
    forall e :: e in r.wire ==> cfg.rankOf(e.src) == me && cfg.rankOf(e.dst) != me
  }

  ghost predicate RecordsAbove(recs: seq<Record>, g: TimeStamp) {
    forall i :: 0 <= i < |recs| ==> g.Le(recs[i].ev.ts)
  }

  ghost predicate LogsAbove(r: Rank, g: TimeStamp) {
    forall l :: l in r.lps ==> RecordsAbove(r.lps[l].processed, g)
  }

  ghost predicate PastsBelow(r: Rank, g: TimeStamp) {
    forall l :: l in r.past ==> PastBelow(r.past[l], g)
  }

  ghost predicate FloorOk(cfg: Config, me: RankId, r: Rank) {
    && TrafficAbove(r, r.lastGvt)
    && WireOut(cfg, me, r)
    && LogsAbove(r, r.lastGvt)
    && PastsBelow(r, r.lastGvt)
  }

  /* ---- Sending ---- */

  ghost predicate TrafficOk(cfg: Config, me: RankId, r: Rank, g: TimeStamp) {
    TrafficAbove(r, g) && WireOut(cfg, me, r)
  }

  lemma PostKeepsTraffic(cfg: Config, me: RankId, r: Rank, g: TimeStamp, e: Event)
    requires TrafficOk(cfg, me, r, g) && g.Le(e.ts) && cfg.rankOf(e.src) == me
    ensures TrafficOk(cfg, me, Post(cfg, me, r, e), g)
  {
    PostTraffic(cfg, me, r, e);
    hide Traffic;
    var u := Post(cfg, me, r, e);
    PostWire(cfg, me, r, e);
  }

  lemma PostWire(cfg: Config, me: RankId, r: Rank, e: Event)
    ensures Post(cfg, me, r, e).wire == if cfg.rankOf(e.dst) == me then r.wire else r.wire + multiset{e}
  {
    if cfg.rankOf(e.dst) != me && cfg.mode.AckInflight? {
      assert TrackSend(r, e).wire == r.wire;
    }
  }

  /** However the kernel stamps this message, the stamp is not below `g`. */
  ghost predicate LandsAbove(cfg: Config, g: TimeStamp, t: Event) {
    forall e :: StampedFrom(cfg, t, e) ==> g.Le(e.ts)
  }

  lemma NotBeforeLands(cfg: Config, now: TimeStamp, g: TimeStamp, t: Event)
    requires NotBefore(now, t) && g.Le(now)
    ensures LandsAbove(cfg, g, t)
  {
  }

  lemma {:induction false} SendAllKeepsTraffic(cfg: Config, me: RankId, r: Rank, l: LPId, msgs: seq<Event>, g: TimeStamp)
    requires Hosts(r, l) && cfg.rankOf(l) == me
    requires forall i :: 0 <= i < |msgs| ==> OwnMessage(l, msgs[i]) && LandsAbove(cfg, g, msgs[i])
    requires UidsInStep(r.lps[l], r.past[l])
    requires !SendAll(cfg, me, r, msgs).aborted
    requires TrafficOk(cfg, me, r, g)
    ensures TrafficOk(cfg, me, SendAll(cfg, me, r, msgs), g)
    decreases |msgs|
  {
    hide SendEvent, Post, TrafficAbove, WireOut;
    if |msgs| > 0 {
      var one := SendEvent(cfg, me, r, msgs[0]);
      AbortSticks(cfg, me, one, msgs[1..]);
      var ctx, e := SendOwnShape(cfg, me, r, l, msgs[0]);
      PostKeepsTraffic(cfg, me, r, g, e);
      SameTraffic(cfg, me, Post(cfg, me, r, e), one, g);
      SendAllKeepsTraffic(cfg, me, one, l, msgs[1..], g);
    }
  }

  lemma SameTraffic(cfg: Config, me: RankId, r: Rank, u: Rank, g: TimeStamp)
    requires TrafficOk(cfg, me, r, g) && u.pending == r.pending && u.wire == r.wire
    ensures TrafficOk(cfg, me, u, g)
  {
  }

  lemma {:induction false} SendAntisKeepTraffic(cfg: Config, me: RankId, r: Rank, l: LPId, antis: seq<Event>, g: TimeStamp)
    requires !r.aborted && Hosts(r, l) && cfg.rankOf(l) == me
    requires forall i :: 0 <= i < |antis| ==> CompleteAnti(l, antis[i]) && g.Le(antis[i].ts)
    requires TrafficOk(cfg, me, r, g)
    ensures TrafficOk(cfg, me, SendAll(cfg, me, r, antis), g)
    decreases |antis|
  {
    hide SendEvent, Post, TrafficAbove, WireOut;
    if |antis| > 0 {
      var e := Paint(cfg, r, antis[0]);
      SendAntiShape(cfg, me, r, antis[0]);
      PostKeepsTraffic(cfg, me, r, g, e);
      var one := SendEvent(cfg, me, r, antis[0]);
      SameTraffic(cfg, me, Post(cfg, me, r, e), one, g);
      SendAntisKeepTraffic(cfg, me, one, l, antis[1..], g);
    }
  }

  lemma LogsWith(r: Rank, l: LPId, u: Rank, g: TimeStamp)
    requires LogsAbove(r, g) && PastsBelow(r, g) && ChangesOnly(r, l, u)
    requires RecordsAbove(u.lps[l].processed, g) && PastBelow(u.past[l], g)
    ensures LogsAbove(u, g) && PastsBelow(u, g)
  {
    hide RecordsAbove, PastBelow;
  }

  /* ---- Rolling back ---- */

  /** A message an event asked for is stamped at or after that event. */
  ghost predicate AskedInTime(cfg: Config, q: Request) {
    LandsAbove(cfg, q.sendTime, q.msg)
  }

  lemma {:induction false} RequestsInTime(cfg: Config, m: Model, l: LPId, started: bool, evs: seq<Event>)
    requires CausalModel(m)
    ensures forall i :: 0 <= i < |RequestsOf(m, l, started, evs)| ==> AskedInTime(cfg, RequestsOf(m, l, started, evs)[i])
    decreases |evs|
  {
    if |evs| > 0 {
      var before := evs[..|evs| - 1];
      var ev := evs[|evs| - 1];
      RequestsInTime(cfg, m, l, started, before);
      EventRequestsInTime(cfg, m, l, StateAfter(m, l, before), ev);
    }
  }

  lemma EventRequestsInTime(cfg: Config, m: Model, l: LPId, s: LpState, ev: Event)
    requires CausalModel(m)
    ensures forall i :: 0 <= i < |RequestsOfEvent(m, l, s, ev)| ==> AskedInTime(cfg, RequestsOfEvent(m, l, s, ev)[i])
  {
    var msgs := SendsOf(m.handle(l, s, ev));
    forall i | 0 <= i < |RequestsOfEvent(m, l, s, ev)|
      ensures AskedInTime(cfg, RequestsOfEvent(m, l, s, ev)[i])
    {
      assert msgs[i] in msgs;
      NotBeforeLands(cfg, ev.ts, ev.ts, msgs[i]);
    }
  }

  /** The message of a log entry is not stamped below its send time. */
  lemma LoggedInTime(cfg: Config, m: Model, l: LPId, ctx: LpContext, past: LpPast)
    requires CausalModel(m) && LpOk(cfg, m, l, ctx, past)
    ensures forall i :: 0 <= i < |ctx.sentLog| ==> ctx.sentLog[i].sendTime.Le(ctx.sentLog[i].msgTime)
  {
    hide InTime, Replays;
    var log := AllSends(ctx, past);
    var evs := EventsOf(AllRecords(ctx, past));
    var reqs := RequestsOf(m, l, past.started, evs);
    RequestsInTime(cfg, m, l, past.started, evs);
    forall i | 0 <= i < |ctx.sentLog|
      ensures ctx.sentLog[i].sendTime.Le(ctx.sentLog[i].msgTime)
    {
      var j := |past.pruned| + i;
      assert log[j] == ctx.sentLog[i];
      assert Answers(cfg, past.sent, log[j], reqs[j]);
      assert AskedInTime(cfg, reqs[j]);
    }
  }

  /** All anti-messages of a rollback to `to` are stamped at or after `to`. */
  lemma RollbackAntisAbove(cfg: Config, m: Model, l: LPId, ctx: LpContext, past: LpPast, to: TimeStamp)
    requires CausalModel(m) && LpOk(cfg, m, l, ctx, past)
    ensures forall i :: 0 <= i < |RollbackAntis(l, ctx, to)| ==>
      CompleteAnti(l, RollbackAntis(l, ctx, to)[i]) && to.Le(RollbackAntis(l, ctx, to)[i].ts)
  {
    hide LpOk;
    LoggedInTime(cfg, m, l, ctx, past);
    LoggedSendsAreComplete(cfg, m, l, ctx, past);
    var tail := ctx.sentLog[SendCut(ctx.sentLog, to)..];
    forall i | 0 <= i < |tail| ensures to.Le(tail[i].msgTime) && CompleteAnti(l, AntiFor(l, tail[i])) {
      assert tail[i] == ctx.sentLog[SendCut(ctx.sentLog, to) + i];
    }
  }

  lemma RecordsAbovePrefix(recs: seq<Record>, k: nat, g: TimeStamp)
    requires RecordsAbove(recs, g) && k <= |recs|
    ensures RecordsAbove(recs[..k], g)
  {
  }

  lemma RollbackFloor(cfg: Config, m: Model, me: RankId, r: Rank, l: LPId, to: TimeStamp)
    requires CausalModel(m) && LpsOk(cfg, m, r) && l in r.lps && !r.aborted && cfg.rankOf(l) == me
    requires FloorOk(cfg, me, r) && r.lastGvt.Le(to)
    ensures FloorOk(cfg, me, Rollback(cfg, me, r, l, to))
  {
    hide LpOk, Rollback, UndoCancels, PastBelow, RecordsAbove, TrafficAbove, WireOut;
    var u := Rollback(cfg, me, r, l, to);
    var g := r.lastGvt;
    RecordsAbovePrefix(r.lps[l].processed, Cut(r.lps[l].processed, to), g);
    RollbackShape(cfg, m, me, r, l, to);
    PastBelowIgnoresSent(r.past[l], r.past[l].sent, u.past[l].antis, g);
    RollbackTraffic(cfg, m, me, r, l, to);
    RewindLogs(r.lps[l], r.lps[l].processed[Cut(r.lps[l].processed, to)..], to);
    LogsWith(r, l, u, g);
  }

  lemma RewoundTraffic(cfg: Config, me: RankId, r: Rank, l: LPId, to: TimeStamp)
    requires l in r.lps && FloorOk(cfg, me, r)
    ensures TrafficOk(cfg, me, Rewound(r, l, to), r.lastGvt)
  {
    hide Rewound, UndoCancels, PastBelow, Rewind;
    var base := Rewound(r, l, to);
    RewoundShape(r, l, to);
    assert RecordsAbove(r.lps[l].processed, r.lastGvt);
    var back := EventsOf(r.lps[l].processed[Cut(r.lps[l].processed, to)..]);
    forall e | e in Traffic(base) ensures r.lastGvt.Le(e.ts) {
      assert e in Traffic(r) || e in back;
    }
  }

  lemma RollbackTraffic(cfg: Config, m: Model, me: RankId, r: Rank, l: LPId, to: TimeStamp)
    requires CausalModel(m) && LpsOk(cfg, m, r) && l in r.lps && !r.aborted && cfg.rankOf(l) == me
    requires FloorOk(cfg, me, r) && r.lastGvt.Le(to)
    ensures TrafficOk(cfg, me, Rollback(cfg, me, r, l, to), r.lastGvt)
  {
    hide LpOk, Rewound, UndoCancels, SendEvent, CompleteAnti, FloorOk, TrafficOk, Rewind;
    var ctx := r.lps[l];
    var base := Rewound(r, l, to);
    RewoundShape(r, l, to);
    RewoundTraffic(cfg, me, r, l, to);
    RollbackAntisAbove(cfg, m, l, ctx, r.past[l], to);
    RewindLogs(ctx, ctx.processed[Cut(ctx.processed, to)..], to);
    SendAntisKeepTraffic(cfg, me, base, l, RollbackAntis(l, ctx, to), r.lastGvt);
    SameTraffic(cfg, me, SendAll(cfg, me, base, RollbackAntis(l, ctx, to)), Rollback(cfg, me, r, l, to), r.lastGvt);
  }

  /* ---- Taking up ---- */

  lemma ExecuteFloor(cfg: Config, m: Model, me: RankId, r: Rank, ev: Event)
    requires CausalModel(m) && ev.dst in r.lps && !ev.isAnti && cfg.rankOf(ev.dst) == me
    requires Hosts(r, ev.dst) && UidsInStep(r.lps[ev.dst], r.past[ev.dst])
    requires FloorOk(cfg, me, r) && r.lastGvt.Le(ev.ts)
    requires !Execute(cfg, m, me, r, ev).aborted
    ensures FloorOk(cfg, me, Execute(cfg, m, me, r, ev))
  {
    var l := ev.dst;
    var u := Execute(cfg, m, me, r, ev);
    var ctx, log, more := ExecuteShape(cfg, m, me, r, ev);
    assert RecordsAbove(u.lps[l].processed, r.lastGvt);
    PastBelowIgnoresSent(r.past[l], r.past[l].sent + more, r.past[l].antis, r.lastGvt);
    LogsWith(r, l, u, r.lastGvt);
    ExecuteTraffic(cfg, m, me, r, ev, r.lastGvt);
  }

  lemma ExecuteTraffic(cfg: Config, m: Model, me: RankId, r: Rank, ev: Event, g: TimeStamp)
    requires CausalModel(m) && ev.dst in r.lps && !ev.isAnti && cfg.rankOf(ev.dst) == me
    requires Hosts(r, ev.dst) && UidsInStep(r.lps[ev.dst], r.past[ev.dst])
    requires TrafficOk(cfg, me, r, g) && g.Le(ev.ts)
    requires !Execute(cfg, m, me, r, ev).aborted
    ensures TrafficOk(cfg, me, Execute(cfg, m, me, r, ev), g)
  {
    hide SendEvent, RunFrame, TrafficOk;
    var l := ev.dst;
    var u := Execute(cfg, m, me, r, ev);
    var open := WithLp(r, l, OpenLp(r.lps[l], ev));
    var msgs := SendsOf(m.handle(l, r.lps[l].state, ev));
    forall i | 0 <= i < |msgs| ensures OwnMessage(l, msgs[i]) && LandsAbove(cfg, g, msgs[i]) {
      assert msgs[i] in msgs;
      NotBeforeLands(cfg, ev.ts, g, msgs[i]);
    }
    SameTraffic(cfg, me, r, open, g);
    SendAllKeepsTraffic(cfg, me, open, l, msgs, g);
    SameTraffic(cfg, me, SendAll(cfg, me, open, msgs), u, g);
  }

  lemma PastBelowIgnoresSent(past: LpPast, sent: seq<Event>, antis: map<Uid, Event>, g: TimeStamp)
    requires PastBelow(past, g)
    ensures PastBelow(past.(sent := sent, antis := antis), g)
  {
  }
}
