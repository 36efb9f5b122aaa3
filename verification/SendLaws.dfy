/** Sending, said of fields alone: which stamp, identity and destination a message gets, where it
    goes, what is noted of it, and exactly when a send throws. */
module SendLaws {
  import opened Stamps
  import opened Events
  import opened Models
  import opened Kernel
  import opened LpInvariant
  import opened Replay
  import opened Closed
  import opened Collections

  const TOP: u64 := 0x8000_0000_0000_0000

  /** Whether the kernel treats a message without a sequence as a control event. */
  predicate AsControl(cfg: Config, ctx: LpContext, ev: Event) {
    cfg.isControl.Some? && cfg.isControl.value(if ev.uid == 0 then ev.(uid := ctx.nextUid) else ev)
  }

  /** The sequence a message gets: its own; or the next of its class, normal events behind control
      events when the two are told apart. */
  predicate Sequenced(cfg: Config, ctx: LpContext, ev: Event, s: u64) {
    if ev.ts.sequence != 0 then s == ev.ts.sequence
    else if AsControl(cfg, ctx, ev) then s == ctx.nextSeqControl
    else if cfg.isControl.None? then s == ctx.nextSeqNormal
    else s == TOP + ctx.nextSeqNormal % TOP
  }

  /** The destination a message gets: its entity's directory, unless it has no target, there is no
      directory, or the directory itself sends it. */
  predicate Directed(cfg: Config, ev: Event, dst: LPId) {
    if ev.target != 0 && cfg.directory.Some? && ev.src != cfg.directory.value(ev.target)
    then dst == cfg.directory.value(ev.target)
    else dst == ev.dst
  }

  /** The event as it goes out: time, source, target, payload and anti flag as the caller gave them. */
  predicate GoesOutAs(cfg: Config, r: Rank, ctx: LpContext, ev: Event, e: Event) {
    && e.src == ev.src && e.target == ev.target && e.payload == ev.payload && e.isAnti == ev.isAnti
    && e.ts.time == ev.ts.time && Sequenced(cfg, ctx, ev, e.ts.sequence)
    && e.uid == (if ev.uid != 0 then ev.uid else ctx.nextUid)
    && Directed(cfg, ev, e.dst)
    && e.gvtColor == (if cfg.mode.AckInflight? then ev.gvtColor else r.phase.color)
  }

  /** A counter steps by one when it is used, and otherwise stays. */
  predicate Steps(before: u64, after: u64, used: bool) {
    after == if !used then before else if before == 0xFFFF_FFFF_FFFF_FFFF then 0 else before + 1
  }

  /** What the sender's LP notes: its counters, and for an event the entry an anti-message would be
      made of, with the time of the event being executed. */
  predicate Noted(cfg: Config, ctx: LpContext, ev: Event, e: Event, ctx': LpContext) {
    && Steps(ctx.nextUid, ctx'.nextUid, ev.uid == 0)
    && Steps(ctx.nextSeqControl, ctx'.nextSeqControl, ev.ts.sequence == 0 && AsControl(cfg, ctx, ev))
    && Steps(ctx.nextSeqNormal, ctx'.nextSeqNormal, ev.ts.sequence == 0 && !AsControl(cfg, ctx, ev))
    && ctx'.sentLog == (if ev.isAnti then ctx.sentLog
                        else ctx.sentLog + [SentRecord(if ctx.inEvent then ctx.currentExecTs else TimeStamp(0, 0), e.ts, e.dst, e.uid)])
    && ctx' == ctx.(nextUid := ctx'.nextUid, nextSeqNormal := ctx'.nextSeqNormal, nextSeqControl := ctx'.nextSeqControl,
                    sentLog := ctx'.sentLog)
  }

  /** Where the event is put: in the queue if its destination lives here, else on the wire, in flight
      with its stamp or counted in its colour; the least red stamp takes account of it if it is red. */
  predicate PutOut(cfg: Config, me: RankId, r: Rank, e: Event, u: Rank) {
    if cfg.rankOf(e.dst) == me then
      u.pending == r.pending + multiset{e} && u.wire == r.wire && u.inflight == r.inflight
      && u.inflightTs == r.inflightTs && u.phase == r.phase
    else
      && u.pending == r.pending && u.wire == r.wire + multiset{e}
      && (if cfg.mode.AckInflight? then
            var key := InflightKey(e.src, e.uid, e.isAnti);
            && u.phase == r.phase
            && u.inflight == (if key in r.inflight then r.inflight else r.inflight[key := e.ts])
            && u.inflightTs == (if key in r.inflight then r.inflightTs else r.inflightTs + multiset{e.ts})
          else
            && u.inflight == r.inflight && u.inflightTs == r.inflightTs
            && u.phase.sent0 == (if e.gvtColor % 2 == 0 then r.phase.sent0 + 1 else r.phase.sent0)
            && u.phase.sent1 == (if e.gvtColor % 2 == 1 then r.phase.sent1 + 1 else r.phase.sent1)
            && u.phase.minRedSent == (if e.gvtColor != r.phase.white && e.ts.Lt(r.phase.minRedSent) then e.ts else r.phase.minRedSent)
            && u.phase == r.phase.(sent0 := u.phase.sent0, sent1 := u.phase.sent1, minRedSent := u.phase.minRedSent))
  }

  /** What a send that does not throw does. */
  lemma SendMeans(cfg: Config, me: RankId, r: Rank, ev: Event) returns (e: Event)
    requires Hosts(r, ev.src) && !SendEvent(cfg, me, r, ev).aborted
    ensures GoesOutAs(cfg, r, r.lps[ev.src], ev, e)
    ensures PutOut(cfg, me, r, e, SendEvent(cfg, me, r, ev))
    ensures
      var u := SendEvent(cfg, me, r, ev);
      && ev.src in u.lps && ev.src in u.past
      && Noted(cfg, r.lps[ev.src], ev, e, u.lps[ev.src])
      && u.lps == r.lps[ev.src := u.lps[ev.src]] && u.past == r.past[ev.src := u.past[ev.src]]
      && u.past[ev.src] == (if ev.isAnti then r.past[ev.src].(antis := r.past[ev.src].antis[e.uid := e])
                            else r.past[ev.src].(sent := r.past[ev.src].sent + [e]))
      && u == r.(lps := u.lps, past := u.past, pending := u.pending, wire := u.wire, inflight := u.inflight,
                 inflightTs := u.inflightTs, phase := u.phase)
  {
    hide SendEvent, GoesOutAs, PutOut, Steps, AsControl, Post, Paint, Stamp, LogSend;
    var ctx;
    ctx, e := SendUnfolds(cfg, me, r, ev);
    OutAsStamped(cfg, r, ev, ctx, e);
    PostMeans(cfg, me, r, e);
    var p := Post(cfg, me, r, e);
    LogMeans(WithLp(p, ev.src, ctx), e);
    PutPut(p.lps, ev.src, ctx, SendEvent(cfg, me, r, ev).lps[ev.src]);
    SamePutOut(cfg, me, r, e, p, SendEvent(cfg, me, r, ev));
  }

  /** The parts of a send: stamping and painting, posting, logging. */
  lemma SendUnfolds(cfg: Config, me: RankId, r: Rank, ev: Event) returns (ctx: LpContext, e: Event)
    requires Hosts(r, ev.src) && !SendEvent(cfg, me, r, ev).aborted
    ensures
      var s := Stamp(cfg, r.lps[ev.src], ev);
      s.Stamping? && ctx == s.ctx && e == Paint(cfg, r, s.ev) && e.src == ev.src && e.isAnti == ev.isAnti
    ensures SendEvent(cfg, me, r, ev) == LogSend(WithLp(Post(cfg, me, r, e), ev.src, ctx), e)
  {
    hide Post, LogSend, Stamp;
    var s := Stamp(cfg, r.lps[ev.src], ev);
    assert s.Stamping?;
    ctx, e := s.ctx, Paint(cfg, r, s.ev);
    PostIgnoresLps(cfg, me, r, ev.src, ctx, e);
  }

  lemma OutAsStamped(cfg: Config, r: Rank, ev: Event, ctx: LpContext, e: Event)
    requires ev.src in r.lps && Stamp(cfg, r.lps[ev.src], ev).Stamping?
    requires ctx == Stamp(cfg, r.lps[ev.src], ev).ctx && e == Paint(cfg, r, Stamp(cfg, r.lps[ev.src], ev).ev)
    ensures GoesOutAs(cfg, r, r.lps[ev.src], ev, e)
    ensures
      var old_ctx := r.lps[ev.src];
      && Steps(old_ctx.nextUid, ctx.nextUid, ev.uid == 0)
      && Steps(old_ctx.nextSeqControl, ctx.nextSeqControl, ev.ts.sequence == 0 && AsControl(cfg, old_ctx, ev))
      && Steps(old_ctx.nextSeqNormal, ctx.nextSeqNormal, ev.ts.sequence == 0 && !AsControl(cfg, old_ctx, ev))
      && ctx == old_ctx.(nextUid := ctx.nextUid, nextSeqNormal := ctx.nextSeqNormal, nextSeqControl := ctx.nextSeqControl)
  {
    hide Stamp, Sequenced, Directed, Steps, AsControl;
    StampMeans(cfg, r.lps[ev.src], ev);
  }

  lemma SamePutOut(cfg: Config, me: RankId, r: Rank, e: Event, p: Rank, u: Rank)
    requires PutOut(cfg, me, r, e, p)
    requires u.pending == p.pending && u.wire == p.wire && u.inflight == p.inflight && u.inflightTs == p.inflightTs && u.phase == p.phase
    ensures PutOut(cfg, me, r, e, u)
  {
  }

  lemma LogMeans(r: Rank, e: Event)
    requires Hosts(r, e.src)
    ensures
      var u := LogSend(r, e);
      var ctx := r.lps[e.src];
      && e.src in u.lps && e.src in u.past
      && u.lps[e.src] == (if e.isAnti then ctx
           else ctx.(sentLog := ctx.sentLog + [SentRecord(if ctx.inEvent then ctx.currentExecTs else TimeStamp(0, 0), e.ts, e.dst, e.uid)]))
      && u.past[e.src] == (if e.isAnti then r.past[e.src].(antis := r.past[e.src].antis[e.uid := e])
                           else r.past[e.src].(sent := r.past[e.src].sent + [e]))
      && u.lps == r.lps[e.src := u.lps[e.src]] && u.past == r.past[e.src := u.past[e.src]]
      && u == r.(lps := u.lps, past := u.past)
  {
    if e.isAnti { PutSame(r.lps, e.src); }
  }

  lemma PostMeans(cfg: Config, me: RankId, r: Rank, e: Event)
    ensures PutOut(cfg, me, r, e, Post(cfg, me, r, e))
    ensures Post(cfg, me, r, e).lps == r.lps && Post(cfg, me, r, e).past == r.past
  {
    if cfg.rankOf(e.dst) != me && cfg.mode.AckInflight? {
      var t := TrackSend(r, e);
      assert t.pending == r.pending && t.wire == r.wire && t.phase == r.phase && t.lps == r.lps && t.past == r.past;
    }
  }

  /** The parts of a stamping. */
  lemma StampMeans(cfg: Config, ctx: LpContext, ev: Event)
    requires Stamp(cfg, ctx, ev).Stamping?
    ensures
      var s := Stamp(cfg, ctx, ev);
      && s.ev.src == ev.src && s.ev.target == ev.target && s.ev.payload == ev.payload && s.ev.isAnti == ev.isAnti
      && s.ev.gvtColor == ev.gvtColor && s.ev.ts.time == ev.ts.time && Sequenced(cfg, ctx, ev, s.ev.ts.sequence)
      && s.ev.uid == (if ev.uid != 0 then ev.uid else ctx.nextUid) && Directed(cfg, ev, s.ev.dst)
      && Steps(ctx.nextUid, s.ctx.nextUid, ev.uid == 0)
      && Steps(ctx.nextSeqControl, s.ctx.nextSeqControl, ev.ts.sequence == 0 && AsControl(cfg, ctx, ev))
      && Steps(ctx.nextSeqNormal, s.ctx.nextSeqNormal, ev.ts.sequence == 0 && !AsControl(cfg, ctx, ev))
  {
  }

  lemma RouteFailsJustIf(cfg: Config, ev: Event)
    ensures Route(cfg, ev).None? <==>
      ev.target != 0 && ((cfg.directory.Some? && cfg.directory.value(ev.target) == 0) || Directed(cfg, ev, 0xFFFF_FFFF))
  {
  }

  lemma StampFailsJustIf(cfg: Config, ctx: LpContext, ev: Event)
    ensures Stamp(cfg, ctx, ev).Rejected? <==>
      || (ev.uid == 0 && ctx.nextUid == 0)
      || (ev.ts.sequence == 0 && AsControl(cfg, ctx, ev) && ctx.nextSeqControl == 0)
      || (ev.ts.sequence == 0 && !AsControl(cfg, ctx, ev) && ctx.nextSeqNormal == 0)
      || Route(cfg, ev).None?
  {
    forall e: Event | e.src == ev.src && e.dst == ev.dst && e.target == ev.target ensures Route(cfg, e) == Route(cfg, ev) {}
    hide Route;
  }

  /** Exactly when a send throws: the sender is unknown; a counter it needs has run out; or a targeted
      message finds directory 0, or ends up without a destination. */
  lemma SendThrowsJustIf(cfg: Config, me: RankId, r: Rank, ev: Event)
    requires !r.aborted && r.past.Keys == r.lps.Keys
    ensures SendEvent(cfg, me, r, ev).aborted <==>
      || ev.src !in r.lps
      || (ev.uid == 0 && r.lps[ev.src].nextUid == 0)
      || (ev.ts.sequence == 0 && AsControl(cfg, r.lps[ev.src], ev) && r.lps[ev.src].nextSeqControl == 0)
      || (ev.ts.sequence == 0 && !AsControl(cfg, r.lps[ev.src], ev) && r.lps[ev.src].nextSeqNormal == 0)
      || (ev.target != 0 && cfg.directory.Some? && cfg.directory.value(ev.target) == 0)
      || (ev.target != 0 && Directed(cfg, ev, 0xFFFF_FFFF))
  {
    hide Post, Stamp, Route, Directed, AsControl;
    RouteFailsJustIf(cfg, ev);
    if ev.src in r.lps { StampFailsJustIf(cfg, r.lps[ev.src], ev); }
  }

  /** A message to an entity goes to its directory, whatever destination its sender gave it or left
      unset; what the directory itself sends goes where it says.  So it is posted, and so it is logged. */
  lemma TargetedGoesToDirectory(cfg: Config, me: RankId, r: Rank, ev: Event, directoryOf: EntityId -> LPId) returns (e: Event)
    requires Hosts(r, ev.src) && cfg.directory == Some(directoryOf) && ev.target != 0 && !SendEvent(cfg, me, r, ev).aborted
    ensures e.dst == if ev.src == directoryOf(ev.target) then ev.dst else directoryOf(ev.target)
    ensures GoesOutAs(cfg, r, r.lps[ev.src], ev, e) && PutOut(cfg, me, r, e, SendEvent(cfg, me, r, ev))
    ensures ev.src in SendEvent(cfg, me, r, ev).lps
    ensures !ev.isAnti ==>
      var log := SendEvent(cfg, me, r, ev).lps[ev.src].sentLog;
      |log| > 0 && log[|log| - 1].dst == e.dst && log[|log| - 1].msgTime == e.ts && log[|log| - 1].uid == e.uid
  {
    hide SendEvent, PutOut;
    e := SendMeans(cfg, me, r, ev);
  }

  /** A send from elsewhere does not throw for want of a destination when the entity has a directory. */
  lemma TargetedIsRoutable(cfg: Config, me: RankId, r: Rank, ev: Event, directoryOf: EntityId -> LPId)
    requires !r.aborted && r.past.Keys == r.lps.Keys && ev.src in r.lps && cfg.directory == Some(directoryOf)
    requires directoryOf(ev.target) != 0 && directoryOf(ev.target) != 0xFFFF_FFFF && ev.src != directoryOf(ev.target)
    ensures SendEvent(cfg, me, r, ev).aborted <==>
      || (ev.uid == 0 && r.lps[ev.src].nextUid == 0)
      || (ev.ts.sequence == 0 && (if AsControl(cfg, r.lps[ev.src], ev) then r.lps[ev.src].nextSeqControl else r.lps[ev.src].nextSeqNormal) == 0)
  {
    hide SendEvent;
    SendThrowsJustIf(cfg, me, r, ev);
  }

  /** Without a target, or without directories, a message goes where its sender says. */
  lemma OthersGoAsAddressed(cfg: Config, me: RankId, r: Rank, ev: Event) returns (e: Event)
    requires Hosts(r, ev.src) && (cfg.directory.None? || ev.target == 0) && !SendEvent(cfg, me, r, ev).aborted
    ensures e.dst == ev.dst && GoesOutAs(cfg, r, r.lps[ev.src], ev, e) && PutOut(cfg, me, r, e, SendEvent(cfg, me, r, ev))
  {
    hide SendEvent;
    e := SendMeans(cfg, me, r, ev);
  }

  /** Control before the rest: of two messages for one time whose sequences are left to the kernel, from
      any two LPs and in any order, the control event has the smaller stamp; exactly as long as its
      counter has not climbed past the other's stamp, which takes 2^63 control events. */
  lemma ControlComesFirst(cfg: Config, a: LpContext, b: LpContext, c: Event, n: Event)
    requires cfg.isControl.Some? && c.ts.sequence == 0 && n.ts.sequence == 0 && c.ts.time == n.ts.time
    requires AsControl(cfg, a, c) && !AsControl(cfg, b, n)
    requires Stamp(cfg, a, c).Stamping? && Stamp(cfg, b, n).Stamping?
    ensures Stamp(cfg, a, c).ev.ts.Lt(Stamp(cfg, b, n).ev.ts) <==> a.nextSeqControl < TOP + b.nextSeqNormal % TOP
    ensures a.nextSeqControl < TOP ==> Stamp(cfg, a, c).ev.ts.Lt(Stamp(cfg, b, n).ev.ts)
  {
    StampMeans(cfg, a, c);
    StampMeans(cfg, b, n);
  }

  /** The same of two sends, one after the other or not, on any ranks. */
  lemma ControlIsSentFirst(cfg: Config, me: RankId, at: RankId, r: Rank, q: Rank, c: Event, n: Event) returns (e: Event, f: Event)
    requires cfg.isControl.Some? && c.ts.sequence == 0 && n.ts.sequence == 0 && c.ts.time == n.ts.time
    requires Hosts(r, c.src) && Hosts(q, n.src) && AsControl(cfg, r.lps[c.src], c) && !AsControl(cfg, q.lps[n.src], n)
    requires !SendEvent(cfg, me, r, c).aborted && !SendEvent(cfg, at, q, n).aborted
    ensures PutOut(cfg, me, r, e, SendEvent(cfg, me, r, c)) && PutOut(cfg, at, q, f, SendEvent(cfg, at, q, n))
    ensures e.ts.Lt(f.ts) <==> r.lps[c.src].nextSeqControl < TOP + q.lps[n.src].nextSeqNormal % TOP
  {
    hide SendEvent;
    e := SendMeans(cfg, me, r, c);
    f := SendMeans(cfg, at, q, n);
  }

  /* ---- The same of what the sequential reference and the send log go by ---- */

  /** What a logged send has kept of the message its handler asked for. */
  lemma StampedFromMeans(cfg: Config, msg: Event, ev: Event)
    requires StampedFrom(cfg, msg, ev)
    ensures Directed(cfg, msg, ev.dst)
    ensures ev.src == msg.src && ev.target == msg.target && ev.payload == msg.payload && !ev.isAnti
    ensures ev.ts.time == msg.ts.time && (msg.ts.sequence != 0 ==> ev.ts == msg.ts)
  {
  }

  /** What the sequential reference puts in its queue for a message. */
  lemma SentContentMeans(cfg: Config, msg: Event)
    ensures
      var c := SentContent(cfg, msg);
      && c.ts == msg.ts && c.src == msg.src && c.target == msg.target && c.payload == msg.payload
      && (Route(cfg, msg).Some? ==> Directed(cfg, msg, c.dst))
    ensures Route(cfg, msg).None? <==>
      msg.target != 0 && ((cfg.directory.Some? && cfg.directory.value(msg.target) == 0) || Directed(cfg, msg, 0xFFFF_FFFF))
  {
  }

  /** Two events look the same to a model exactly if they differ at most in the transport's fields. */
  lemma SameContentJustIf(e: Event, f: Event)
    ensures ContentOf(e) == ContentOf(f) <==> f == e.(uid := f.uid, gvtColor := f.gvtColor, isAnti := f.isAnti)
  {
  }
}
