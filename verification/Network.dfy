/** What the two GVT protocols keep on each rank, through everything the rank does on its own. */
module Network {
  import opened Stamps
  import opened Events
  import opened Models
  import opened Kernel
  import opened Replay
  import opened LpInvariant
  import opened RankSteps
  import opened Ledgers
  import opened Books
  import opened BookSteps
  import opened Collections

  /* ---- Counting colours ---- */

  /** How many messages of a bag have a colour. */
  ghost function InColor(bag: multiset<Event>, c: Color): nat
    decreases |bag|
  {
    if bag == multiset{} then 0
    else
      var e :| e in bag;
      InColor(bag - multiset{e}, c) + if e.gvtColor == c then 1 else 0
  }

  lemma {:induction false} InColorWithout(bag: multiset<Event>, e: Event, c: Color)
    requires e in bag
    ensures InColor(bag, c) == InColor(bag - multiset{e}, c) + if e.gvtColor == c then 1 else 0
    decreases |bag|
  {
    var d :| d in bag && InColor(bag, c) == InColor(bag - multiset{d}, c) + if d.gvtColor == c then 1 else 0;
    if d != e {
      InColorWithout(bag - multiset{d}, e, c);
      InColorWithout(bag - multiset{e}, d, c);
      assert bag - multiset{d} - multiset{e} == bag - multiset{e} - multiset{d};
    }
  }

  lemma InColorWith(bag: multiset<Event>, e: Event, c: Color)
    ensures InColor(bag + multiset{e}, c) == InColor(bag, c) + if e.gvtColor == c then 1 else 0
  {
    InColorWithout(bag + multiset{e}, e, c);
    assert bag + multiset{e} - multiset{e} == bag;
  }

  lemma NoneInColor(bag: multiset<Event>, c: Color)
    requires InColor(bag, c) == 0
    ensures forall e :: e in bag ==> e.gvtColor != c
  {
    forall e | e in bag ensures e.gvtColor != c {
      InColorWithout(bag, e, c);
    }
  }

  /* ---- What holds on each rank ---- */

  /** The rank has sent the message of this key. */
  ghost predicate SentKey(r: Rank, key: InflightKey) {
    && key.src in r.past
    && 1 <= key.uid <= |r.past[key.src].sent|
    && (key.isAnti ==> key.uid in r.past[key.src].antis)
  }

  /** Acknowledgements: every message on the wire is in the in-flight map with its stamp, and the
      multiset of stamps is that of the map. */
  ghost predicate InflightOk(r: Rank) {
    && r.inflightTs == ValuesOf(r.inflight)
    && (forall e :: e in r.wire ==> FlightKeyOf(e) in r.inflight && r.inflight[FlightKeyOf(e)] == e.ts)
    && (forall k :: k in r.inflight ==> SentKey(r, k))
  }

  /** Colours: white messages on the wire, and in a red phase also red ones, not below the least
      red stamp. */
  ghost predicate ColorsOk(r: Rank) {
    var p := r.phase;
    && p.color == (if p.red then 1 - p.white else p.white)
    && (p.red ==> p.whiteSentAtFlip == p.Sent(p.white))
    && (forall e :: e in r.wire ==>
          e.gvtColor == p.white || (p.red && e.gvtColor == 1 - p.white && p.minRedSent.Le(e.ts)))
  }

  ghost predicate NetOk(cfg: Config, r: Rank) {
    if cfg.mode.AckInflight? then InflightOk(r) else ColorsOk(r)
  }

  /** Messages of a colour this rank has sent and not yet seen arrive anywhere, less those it has
      received. */
  ghost function Slack(r: Rank, c: Color): int {
    r.phase.Sent(c) - r.phase.Recv(c) - InColor(r.wire, c)
  }

  /** What a rank's own work may do to the network: new messages have identities never used
      before, and the colour counters follow the wire. */
  ghost predicate Grows(cfg: Config, r: Rank, u: Rank) {
    && u.acks == r.acks && u.lastGvt == r.lastGvt
    && (forall k :: SentKey(r, k) ==> SentKey(u, k))
    && (forall e :: e in u.wire ==> e in r.wire || !SentKey(r, FlightKeyOf(e)))
    && (cfg.mode.ColoredCounters? ==>
          && u.phase.white == r.phase.white && u.phase.red == r.phase.red && u.phase.color == r.phase.color
          && (forall c: Color :: Slack(u, c) == Slack(r, c)))
  }

  ghost predicate NetKept(cfg: Config, r: Rank, u: Rank) {
    NetOk(cfg, u) && Grows(cfg, r, u)
  }

  lemma GrowsAgain(cfg: Config, r: Rank, u: Rank, v: Rank)
    requires Grows(cfg, r, u) && Grows(cfg, u, v)
    ensures Grows(cfg, r, v)
  {
    hide SentKey, Slack;
  }

  /** The parts of a rank the protocols look at. */
  ghost predicate SameNet(r: Rank, u: Rank) {
    && u.acks == r.acks && u.lastGvt == r.lastGvt && u.wire == r.wire && u.phase == r.phase
    && u.inflight == r.inflight && u.inflightTs == r.inflightTs
    && (forall k :: SentKey(r, k) ==> SentKey(u, k))
  }

  lemma SameNetKept(cfg: Config, r: Rank, u: Rank)
    requires NetOk(cfg, r) && SameNet(r, u)
    ensures NetKept(cfg, r, u)
  {
    hide SentKey;
  }

  /* ---- Posting one message ---- */

  /** A rank that has posted `e`, which has an identity of its own. */
  ghost predicate Posted(cfg: Config, me: RankId, r: Rank, e: Event, u: Rank) {
    var p := Post(cfg, me, r, e);
    && u.acks == p.acks && u.lastGvt == p.lastGvt && u.wire == p.wire && u.phase == p.phase
    && u.inflight == p.inflight && u.inflightTs == p.inflightTs
    && (forall k :: SentKey(r, k) ==> SentKey(u, k))
    && !SentKey(r, FlightKeyOf(e)) && SentKey(u, FlightKeyOf(e))
    && (cfg.mode.ColoredCounters? ==> e.gvtColor == r.phase.color)
  }

  lemma PostedGrows(cfg: Config, me: RankId, r: Rank, e: Event, u: Rank)
    requires Posted(cfg, me, r, e, u)
    requires cfg.mode.ColoredCounters? ==> forall c: Color :: Slack(u, c) == Slack(r, c)
    ensures Grows(cfg, r, u)
  {
    hide SentKey, Slack;
    PostFields(cfg, me, r, e);
    hide Post;
  }

  lemma PostFields(cfg: Config, me: RankId, r: Rank, e: Event)
    ensures
      var p := Post(cfg, me, r, e);
      var stays := cfg.rankOf(e.dst) == me;
      && p.acks == r.acks && p.lastGvt == r.lastGvt
      && p.wire == (if stays then r.wire else r.wire + multiset{e})
      && (cfg.mode.AckInflight? && FlightKeyOf(e) !in r.inflight ==>
            && p.inflight == (if stays then r.inflight else r.inflight[FlightKeyOf(e) := e.ts])
            && p.inflightTs == (if stays then r.inflightTs else r.inflightTs + multiset{e.ts}))
      && (cfg.mode.ColoredCounters? ==> p.phase == if stays then r.phase else CountRed(r.phase, e))
      && p.phase == r.phase.(sent0 := p.phase.sent0, sent1 := p.phase.sent1, minRedSent := p.phase.minRedSent)
  {
    if cfg.rankOf(e.dst) == me {
    } else if cfg.mode.AckInflight? {
      var t := TrackSend(r, e);
      assert t.wire == r.wire && t.acks == r.acks && t.phase == r.phase && t.lastGvt == r.lastGvt;
    } else {
      assert CountRed(r.phase, e) == r.phase.(sent0 := CountRed(r.phase, e).sent0,
        sent1 := CountRed(r.phase, e).sent1, minRedSent := CountRed(r.phase, e).minRedSent);
    }
  }

  lemma LocalInflight(r: Rank, u: Rank)
    requires InflightOk(r) && u.wire == r.wire && u.inflight == r.inflight && u.inflightTs == r.inflightTs
    requires forall k :: SentKey(r, k) ==> SentKey(u, k)
    ensures InflightOk(u)
  {
    hide SentKey, ValuesOf;
  }

  lemma TrackedInflight(r: Rank, e: Event, u: Rank)
    requires InflightOk(r) && FlightKeyOf(e) !in r.inflight
    requires u.wire == r.wire + multiset{e} && u.inflight == r.inflight[FlightKeyOf(e) := e.ts]
    requires u.inflightTs == r.inflightTs + multiset{e.ts}
    requires forall k :: SentKey(r, k) ==> SentKey(u, k)
    requires SentKey(u, FlightKeyOf(e))
    ensures InflightOk(u)
  {
    hide SentKey, ValuesOf;
    ValuesWith(r.inflight, FlightKeyOf(e), e.ts);
    forall x | x in u.wire ensures FlightKeyOf(x) in u.inflight && u.inflight[FlightKeyOf(x)] == x.ts {
      assert x == e || x in r.wire;
    }
  }

  lemma PostedInflight(cfg: Config, me: RankId, r: Rank, e: Event, u: Rank)
    requires cfg.mode.AckInflight? && InflightOk(r) && Posted(cfg, me, r, e, u)
    ensures InflightOk(u) && Grows(cfg, r, u)
  {
    PostedGrows(cfg, me, r, e, u);
    PostFields(cfg, me, r, e);
    assert FlightKeyOf(e) !in r.inflight by { hide SentKey; }
    hide SentKey, Grows, Post, InflightOk;
    if cfg.rankOf(e.dst) == me {
      LocalInflight(r, u);
    } else {
      TrackedInflight(r, e, u);
    }
  }

  lemma PostedSlack(cfg: Config, me: RankId, r: Rank, e: Event, u: Rank, c: Color)
    requires cfg.mode.ColoredCounters? && e.gvtColor < 2
    requires u.wire == Post(cfg, me, r, e).wire && u.phase == Post(cfg, me, r, e).phase
    ensures Slack(u, c) == Slack(r, c)
  {
    hide InColor;
    PostFields(cfg, me, r, e);
    InColorWith(r.wire, e, c);
  }

  lemma PostedColors(cfg: Config, me: RankId, r: Rank, e: Event, u: Rank)
    requires cfg.mode.ColoredCounters? && ColorsOk(r) && Posted(cfg, me, r, e, u)
    ensures ColorsOk(u) && Grows(cfg, r, u)
  {
    hide SentKey, Grows, Slack, Post;
    PostFields(cfg, me, r, e);
    forall c: Color ensures Slack(u, c) == Slack(r, c) { PostedSlack(cfg, me, r, e, u, c); }
    PostedGrows(cfg, me, r, e, u);
  }

  lemma PostedKept(cfg: Config, me: RankId, r: Rank, e: Event, u: Rank)
    requires NetOk(cfg, r) && Posted(cfg, me, r, e, u)
    ensures NetKept(cfg, r, u)
  {
    hide InflightOk, ColorsOk, Grows, Posted;
    if cfg.mode.AckInflight? { PostedInflight(cfg, me, r, e, u); } else { PostedColors(cfg, me, r, e, u); }
  }

  /* ---- Sending ---- */

  lemma SendOwnPosts(cfg: Config, me: RankId, r: Rank, l: LPId, t: Event) returns (e: Event)
    requires Hosts(r, l) && OwnMessage(l, t)
    requires UidsInStep(r.lps[l], r.past[l])
    requires !SendEvent(cfg, me, r, t).aborted
    ensures Posted(cfg, me, r, e, SendEvent(cfg, me, r, t))
  {
    hide SendEvent, Post;
    var ctx;
    ctx, e := SendOwnShape(cfg, me, r, l, t);
  }

  lemma {:induction false} SendAllNet(cfg: Config, me: RankId, r: Rank, l: LPId, msgs: seq<Event>)
    requires Hosts(r, l)
    requires forall i :: 0 <= i < |msgs| ==> OwnMessage(l, msgs[i])
    requires UidsInStep(r.lps[l], r.past[l])
    requires !SendAll(cfg, me, r, msgs).aborted
    requires NetOk(cfg, r)
    ensures NetKept(cfg, r, SendAll(cfg, me, r, msgs))
    decreases |msgs|
  {
    hide SendEvent, NetOk, Grows, Posted, Post;
    if |msgs| == 0 {
      SameNetKept(cfg, r, r);
    } else {
      var one := SendEvent(cfg, me, r, msgs[0]);
      AbortSticks(cfg, me, one, msgs[1..]);
      var ctx, e := SendOwnShape(cfg, me, r, l, msgs[0]);
      var f := SendOwnPosts(cfg, me, r, l, msgs[0]);
      PostedKept(cfg, me, r, f, one);
      SendAllNet(cfg, me, one, l, msgs[1..]);
      GrowsAgain(cfg, r, one, SendAll(cfg, me, r, msgs));
    }
  }

  /** Anti-messages for events that have none yet. */
  ghost predicate FreshAntis(past: LpPast, antis: seq<Event>) {
    && (forall i :: 0 <= i < |antis| ==> 1 <= antis[i].uid <= |past.sent| && antis[i].uid !in past.antis)
    && (forall i, j :: 0 <= i < j < |antis| ==> antis[i].uid != antis[j].uid)
  }

  lemma SendAntiPosts(cfg: Config, me: RankId, r: Rank, l: LPId, anti: Event)
    requires !r.aborted && Hosts(r, l) && CompleteAnti(l, anti)
    requires 1 <= anti.uid <= |r.past[l].sent| && anti.uid !in r.past[l].antis
    ensures Posted(cfg, me, r, Paint(cfg, r, anti), SendEvent(cfg, me, r, anti))
    ensures SendEvent(cfg, me, r, anti).past
         == r.past[l := r.past[l].(antis := r.past[l].antis[anti.uid := Paint(cfg, r, anti)])]
    ensures Hosts(SendEvent(cfg, me, r, anti), l) && !SendEvent(cfg, me, r, anti).aborted
  {
    hide SendEvent, Post;
    SendAntiShape(cfg, me, r, anti);
  }

  lemma {:induction false} SendAntisNet(cfg: Config, me: RankId, r: Rank, l: LPId, antis: seq<Event>)
    requires !r.aborted && Hosts(r, l)
    requires forall i :: 0 <= i < |antis| ==> CompleteAnti(l, antis[i])
    requires FreshAntis(r.past[l], antis)
    requires NetOk(cfg, r)
    ensures NetKept(cfg, r, SendAll(cfg, me, r, antis))
    decreases |antis|
  {
    hide SendEvent, NetOk, Grows, Posted, Post;
    if |antis| == 0 {
      SameNetKept(cfg, r, r);
    } else {
      var one := SendEvent(cfg, me, r, antis[0]);
      SendAntiPosts(cfg, me, r, l, antis[0]);
      PostedKept(cfg, me, r, Paint(cfg, r, antis[0]), one);
      SendAntisNet(cfg, me, one, l, antis[1..]);
      GrowsAgain(cfg, r, one, SendAll(cfg, me, r, antis));
    }
  }

  /* ---- The operations ---- */

  lemma ExecuteNet(cfg: Config, m: Model, me: RankId, r: Rank, ev: Event)
    requires CausalModel(m) && Hosts(r, ev.dst) && !ev.isAnti
    requires UidsInStep(r.lps[ev.dst], r.past[ev.dst])
    requires !Execute(cfg, m, me, r, ev).aborted
    requires NetOk(cfg, r)
    ensures NetKept(cfg, r, Execute(cfg, m, me, r, ev))
  {
    hide SendEvent, NetOk, Grows, SentKey, RunFrame, EmitsAt, SendAll, SameNet;
    var l := ev.dst;
    var open := WithLp(r, l, OpenLp(r.lps[l], ev));
    var script := m.handle(l, r.lps[l].state, ev);
    forall i | 0 <= i < |SendsOf(script)| ensures OwnMessage(l, SendsOf(script)[i]) {
      assert SendsOf(script)[i] in SendsOf(script);
    }
    SamePastNet(r, open);
    SameNetKept(cfg, r, open);
    SendAllNet(cfg, me, open, l, SendsOf(script));
    var sent := SendAll(cfg, me, open, SendsOf(script));
    var u := Execute(cfg, m, me, r, ev);
    SamePastNet(sent, u);
    SameNetKept(cfg, sent, u);
    GrowsAgain(cfg, r, open, sent);
    GrowsAgain(cfg, r, sent, u);
  }

  lemma SamePastNet(r: Rank, u: Rank)
    requires u.past == r.past
    requires u.acks == r.acks && u.lastGvt == r.lastGvt && u.wire == r.wire && u.phase == r.phase
    requires u.inflight == r.inflight && u.inflightTs == r.inflightTs
    ensures SameNet(r, u)
  {
  }

  lemma StartNet(cfg: Config, m: Model, me: RankId, r: Rank, l: LPId)
    requires CausalModel(m) && Hosts(r, l) && UidsInStep(r.lps[l], r.past[l])
    requires !StartLp(cfg, m, me, r, l).aborted
    requires NetOk(cfg, r)
    ensures NetKept(cfg, r, StartLp(cfg, m, me, r, l))
  {
    hide SendEvent, NetOk, Grows, SendAll;
    var begun := r.(past := r.past[l := r.past[l].(started := true)]);
    assert SameNet(r, begun);
    SameNetKept(cfg, r, begun);
    SendAllNet(cfg, me, begun, l, m.start(l));
    GrowsAgain(cfg, r, begun, SendAll(cfg, me, begun, m.start(l)));
  }

  /** The anti-messages of a rollback are for sends that have not been cancelled before. */
  lemma RollbackAntisFresh(l: LPId, ctx: LpContext, past: LpPast, to: TimeStamp)
    requires LogListsLive(AccountIn(ctx, past))
    ensures FreshAntis(past, RollbackAntis(l, ctx, to))
  {
    var a := AccountIn(ctx, past);
    var antis := RollbackAntis(l, ctx, to);
    var j := SendCut(ctx.sentLog, to);
    var n := |antis|;
    forall i | 0 <= i < n ensures antis[i].uid == a.log[|past.pruned| + j + (n - 1 - i)].uid {
      assert ctx.sentLog[j..][n - 1 - i] == a.log[|past.pruned| + j + (n - 1 - i)];
    }
    forall i | 0 <= i < n ensures 1 <= antis[i].uid <= |past.sent| && antis[i].uid !in past.antis {
      assert EntryOk(a, a.log[|past.pruned| + j + (n - 1 - i)]);
    }
  }

  lemma RollbackNet(cfg: Config, m: Model, me: RankId, r: Rank, l: LPId, to: TimeStamp)
    requires LpsOk(cfg, m, r) && l in r.lps && !r.aborted
    requires LogListsLive(AccountIn(r.lps[l], r.past[l]))
    requires NetOk(cfg, r)
    ensures NetKept(cfg, r, Rollback(cfg, me, r, l, to))
  {
    hide SendEvent, NetOk, Grows, LpOk, Rewound, UndoCancels, SendAll, LogListsLive, FreshAntis, SentKey;
    var ctx := r.lps[l];
    var base := Rewound(r, l, to);
    RewoundShape(r, l, to);
    SamePastNet(r, base);
    SameNetKept(cfg, r, base);
    LoggedSendsAreComplete(cfg, m, l, ctx, r.past[l]);
    RollbackAntisFresh(l, ctx, r.past[l], to);
    RewindLogs(ctx, ctx.processed[Cut(ctx.processed, to)..], to);
    SendAntisNet(cfg, me, base, l, RollbackAntis(l, ctx, to));
    var sent := SendAll(cfg, me, base, RollbackAntis(l, ctx, to));
    var u := Rollback(cfg, me, r, l, to);
    SamePastNet(sent, u);
    SameNetKept(cfg, sent, u);
    GrowsAgain(cfg, r, base, sent);
    GrowsAgain(cfg, r, sent, u);
  }

  lemma DispatchAntiNet(cfg: Config, m: Model, me: RankId, r: Rank, anti: Event)
    requires LpsOk(cfg, m, r) && anti.dst in r.lps && !r.aborted
    requires LogListsLive(AccountIn(r.lps[anti.dst], r.past[anti.dst]))
    requires NetOk(cfg, r)
    ensures NetKept(cfg, r, DispatchAnti(cfg, me, r, anti))
  {
    hide NetOk, Grows, LpOk, Rollback, FindProcessed, LogListsLive, SentKey;
    var l := anti.dst;
    var x := Bury(r, anti);
    SamePastNet(r, x);
    SameNetKept(cfg, r, x);
    var v := Cancel(cfg, me, r, anti);
    if FindProcessed(r.lps[l].processed, KeyOf(anti)).Some? {
      var to := FindProcessed(r.lps[l].processed, KeyOf(anti)).value;
      RollbackNet(cfg, m, me, x, l, to);
      GrowsAgain(cfg, r, x, v);
    }
    var u := DispatchAnti(cfg, me, r, anti);
    SamePastNet(v, u);
    SameNetKept(cfg, v, u);
    GrowsAgain(cfg, r, v, u);
  }

  lemma DispatchNet(cfg: Config, m: Model, me: RankId, r: Rank, ev: Event)
    requires CausalModel(m) && LpsOk(cfg, m, r) && !r.aborted
    requires forall l :: l in r.lps && l in r.past ==> LogListsLive(AccountIn(r.lps[l], r.past[l]))
    requires !Dispatch(cfg, m, me, r, ev).aborted
    requires NetOk(cfg, r)
    ensures NetKept(cfg, r, Dispatch(cfg, m, me, r, ev))
  {
    hide NetOk, Grows, Rollback, LogListsLive, SentKey, DispatchAnti, Execute, InTime, Replays, SendsLogged;
    var l := ev.dst;
    if ev.ts.Lt(r.lps[l].vt) {
      RollbackNet(cfg, m, me, r, l, ev.ts);
      var back := Rollback(cfg, me, r, l, ev.ts);
      SamePastNet(back, Enqueue(back, ev));
      SameNetKept(cfg, back, Enqueue(back, ev));
      GrowsAgain(cfg, r, back, Enqueue(back, ev));
    } else if ev.isAnti {
      DispatchAntiNet(cfg, m, me, r, ev);
    } else {
      ExecuteNet(cfg, m, me, r, ev);
    }
  }
}
