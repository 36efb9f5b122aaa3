/** The kernel of one rank as functions on its state (src/simulation.hpp).

    Class Simulation does the same work in place; each of its methods is proved against the
    function of the same name here, and the properties of whole runs are proved about these
    functions.

    An exception that leaves the kernel ends the run; it is recorded in `aborted`, after which
    the rest of the state means nothing. */
module Kernel {
  import opened Stamps
  import opened Events
  import opened Models
  import opened Flush

  type RankId = nat

  datatype GvtMode = AckInflight | ColoredCounters

  /** What all ranks agree on: the GVT mode, the LPs there are and where they live, and the two
      optional hooks for routing and for control events. */
  datatype Config = Config(
    mode: GvtMode,
    lps: set<LPId>,
    rankOf: LPId -> RankId,
    directory: Option<EntityId -> LPId>,
    isControl: Option<Event -> bool>)

  /** The destination a modelling helper leaves for the kernel to resolve. */
  const UNSET_DST: LPId := 0xFFFF_FFFF

  datatype SentRecord = SentRecord(sendTime: TimeStamp, msgTime: TimeStamp, dst: LPId, uid: Uid)

  datatype LpContext = LpContext(
    state: LpState,
    vt: TimeStamp,
    inEvent: bool,
    currentExecTs: TimeStamp,
    processed: seq<Record>,
    sentLog: seq<SentRecord>,
    nextSeqNormal: u64,
    nextSeqControl: u64,
    nextUid: u64)

  /** What the kernel has forgotten about an LP, kept as history variables: the records and send
      log entries given up by pruning, every event it ever sent (event i has uid i + 1), and every
      anti-message it ever sent, by uid. */
  datatype LpPast = LpPast(
    started: bool,
    committed: seq<Record>,
    pruned: seq<SentRecord>,
    sent: seq<Event>,
    antis: map<Uid, Event>)

  type Color = c: int | 0 <= c < 2

  /** Bookkeeping of the coloured-counter GVT rounds. */
  datatype Phase = Phase(
    white: Color,
    color: Color,
    red: bool,
    sent0: nat, sent1: nat,
    recv0: nat, recv1: nat,
    whiteSentAtFlip: nat,
    minRedSent: TimeStamp)
  {
    function Sent(c: Color): nat { if c == 0 then sent0 else sent1 }
    function Recv(c: Color): nat { if c == 0 then recv0 else recv1 }

    function CountSent(c: Color): Phase {
      if c == 0 then this.(sent0 := sent0 + 1) else this.(sent1 := sent1 + 1)
    }

    function CountRecv(c: Color): Phase {
      if c == 0 then this.(recv0 := recv0 + 1) else this.(recv1 := recv1 + 1)
    }
  }

  const FIRST_PHASE := Phase(0, 0, false, 0, 0, 0, 0, 0, MAX_STAMP)

  function ColorOf(ev: Event): Color { ev.gvtColor % 2 }

  /** An acknowledgement on its way to the rank that sent the message. */
  datatype Ack = Ack(to: RankId, key: InflightKey)

  datatype Rank = Rank(
    lps: map<LPId, LpContext>,
    pending: multiset<Event>,
    cancelled: map<UidKey, TimeStamp>,
    inflight: map<InflightKey, TimeStamp>,
    inflightTs: multiset<TimeStamp>,
    phase: Phase,
    lastGvt: TimeStamp,
    // handed to the transport and not yet taken out of it
    wire: multiset<Event>,
    acks: multiset<Ack>,
    // everything given to the committed-output sink
    output: seq<FlushItem>,
    rollbacks: nat,
    aborted: bool,
    // history variables
    past: map<LPId, LpPast>,
    dropped: multiset<Event>)

  predicate Hosts(r: Rank, l: LPId) {
    l in r.lps && l in r.past
  }

  function Abort(r: Rank): Rank { r.(aborted := true) }

  function WithLp(r: Rank, l: LPId, ctx: LpContext): Rank {
    r.(lps := r.lps[l := ctx])
  }

  function Enqueue(r: Rank, ev: Event): Rank {
    r.(pending := r.pending + multiset{ev})
  }

  /* ---- Sending ---- */

  datatype Stamping = Rejected | Stamping(ctx: LpContext, ev: Event)

  function AssignUid(ctx: LpContext, ev: Event): Stamping {
    if ev.uid != 0 then Stamping(ctx, ev)
    else if ctx.nextUid == 0 then Rejected
    else Stamping(ctx.(nextUid := Next64(ctx.nextUid)), ev.(uid := ctx.nextUid))
  }

  /** Control events get plain sequences; other events have the top bit set, so that they come
      later at the same time.  Without a control predicate the counter is used as it is. */
  function AssignSequence(cfg: Config, ctx: LpContext, ev: Event): Stamping {
    if ev.ts.sequence != 0 then Stamping(ctx, ev)
    else if cfg.isControl.Some? && cfg.isControl.value(ev) then
      if ctx.nextSeqControl == 0 then Rejected
      else Stamping(ctx.(nextSeqControl := Next64(ctx.nextSeqControl)),
                    ev.(ts := TimeStamp(ev.ts.time, ctx.nextSeqControl)))
    else
      if ctx.nextSeqNormal == 0 then Rejected
      else
        var local := ctx.nextSeqNormal;
        var top: u64 := 0x8000_0000_0000_0000;
        var s: u64 := if cfg.isControl.Some? && local < top then top + local else local;
        Stamping(ctx.(nextSeqNormal := Next64(local)), ev.(ts := TimeStamp(ev.ts.time, s)))
  }

  /** Targeted events go to the entity's directory, except those the directory itself sends. */
  function Route(cfg: Config, ev: Event): Option<LPId> {
    if ev.target == 0 then Some(ev.dst)
    else
      match cfg.directory
      case None => if ev.dst == UNSET_DST then None else Some(ev.dst)
      case Some(directoryOf) =>
        var dir := directoryOf(ev.target);
        var dst := if ev.src != dir then dir else ev.dst;
        if dir == 0 || dst == UNSET_DST then None else Some(dst)
  }

  /** Stamping touches the counters of the LP and the identity, stamp and destination of the event. */
  function Stamp(cfg: Config, ctx: LpContext, ev: Event): (s: Stamping)
    ensures s.Stamping? ==>
      s.ctx == ctx.(nextUid := s.ctx.nextUid, nextSeqNormal := s.ctx.nextSeqNormal, nextSeqControl := s.ctx.nextSeqControl)
    ensures s.Stamping? ==> s.ev == ev.(uid := s.ev.uid, ts := s.ev.ts, dst := s.ev.dst)
  {
    match AssignUid(ctx, ev)
    case Rejected => Rejected
    case Stamping(c1, e1) =>
      match AssignSequence(cfg, c1, e1)
      case Rejected => Rejected
      case Stamping(c2, e2) =>
        match Route(cfg, e2)
        case None => Rejected
        case Some(dst) => Stamping(c2, e2.(dst := dst))
  }

  function Paint(cfg: Config, r: Rank, ev: Event): Event {
    if cfg.mode.AckInflight? then ev else ev.(gvtColor := r.phase.color)
  }

  function TrackSend(r: Rank, ev: Event): (u: Rank)
    ensures u == r.(inflight := u.inflight, inflightTs := u.inflightTs)
  {
    var key := FlightKeyOf(ev);
    if key in r.inflight then r
    else r.(inflight := r.inflight[key := ev.ts], inflightTs := r.inflightTs + multiset{ev.ts})
  }

  function ClearInflight(r: Rank, key: InflightKey): (u: Rank)
    ensures u == r.(inflight := u.inflight, inflightTs := u.inflightTs)
  {
    if key !in r.inflight then r
    else r.(inflight := r.inflight - {key}, inflightTs := r.inflightTs - multiset{r.inflight[key]})
  }

  function CountRed(p: Phase, ev: Event): Phase {
    var q := p.CountSent(ColorOf(ev));
    if ev.gvtColor != p.white then q.(minRedSent := MinStamp(p.minRedSent, ev.ts)) else q
  }

  /** Local deliveries go straight to the pending queue; others to the transport. */
  function Post(cfg: Config, me: RankId, r: Rank, ev: Event): (u: Rank)
    ensures u == r.(pending := u.pending, inflight := u.inflight, inflightTs := u.inflightTs,
                    wire := u.wire, phase := u.phase)
  {
    if cfg.rankOf(ev.dst) == me then Enqueue(r, ev)
    else if cfg.mode.AckInflight? then
      TrackSend(r, ev).(wire := r.wire + multiset{ev})
    else
      r.(phase := CountRed(r.phase, ev), wire := r.wire + multiset{ev})
  }

  function LogSend(r: Rank, ev: Event): Rank
    requires Hosts(r, ev.src)
  {
    var ctx := r.lps[ev.src];
    var past := r.past[ev.src];
    if ev.isAnti then
      r.(past := r.past[ev.src := past.(antis := past.antis[ev.uid := ev])])
    else
      var sendTime := if ctx.inEvent then ctx.currentExecTs else ZERO;
      WithLp(r, ev.src, ctx.(sentLog := ctx.sentLog + [SentRecord(sendTime, ev.ts, ev.dst, ev.uid)]))
      .(past := r.past[ev.src := past.(sent := past.sent + [ev])])
  }

  function SendEvent(cfg: Config, me: RankId, r: Rank, ev: Event): Rank {
    if r.aborted then r
    else if !Hosts(r, ev.src) then Abort(r)
    else
      match Stamp(cfg, r.lps[ev.src], ev)
      case Rejected => Abort(r)
      case Stamping(ctx, e) =>
        var painted := Paint(cfg, r, e);
        LogSend(Post(cfg, me, WithLp(r, ev.src, ctx), painted), painted)
  }

  function SendAll(cfg: Config, me: RankId, r: Rank, evs: seq<Event>): Rank
    decreases |evs|
  {
    if |evs| == 0 then r else SendAll(cfg, me, SendEvent(cfg, me, r, evs[0]), evs[1..])
  }

  /** on_start of one LP. */
  function StartLp(cfg: Config, m: Model, me: RankId, r: Rank, l: LPId): Rank
    requires Hosts(r, l)
  {
    SendAll(cfg, me, r.(past := r.past[l := r.past[l].(started := true)]), m.start(l))
  }

  /* ---- Receiving ---- */

  function ReceiveEvent(cfg: Config, r: Rank, from: RankId, ev: Event): Rank {
    if cfg.mode.AckInflight? then
      Enqueue(ClearInflight(r.(acks := r.acks + multiset{Ack(from, FlightKeyOf(ev))}), FlightKeyOf(ev)), ev)
    else
      Enqueue(r.(phase := r.phase.CountRecv(ColorOf(ev))), ev)
  }

  function ReceiveAck(cfg: Config, r: Rank, key: InflightKey): Rank {
    if cfg.mode.AckInflight? then ClearInflight(r, key) else r
  }

  /* ---- Rolling back ---- */

  function UndoCancel(cancelled: map<UidKey, TimeStamp>, rec: Record): map<UidKey, TimeStamp> {
    if !rec.ev.isAnti then cancelled
    else if rec.cancelHadEntry then cancelled[KeyOf(rec.ev) := rec.cancelPrevTs]
    else cancelled - {KeyOf(rec.ev)}
  }

  /** The tombstones left after undoing records, newest first. */
  function UndoCancels(cancelled: map<UidKey, TimeStamp>, undone: seq<Record>): map<UidKey, TimeStamp>
    decreases |undone|
  {
    var n := |undone|;
    if n == 0 then cancelled
    else UndoCancels(UndoCancel(cancelled, undone[n - 1]), undone[..n - 1])
  }

  function EventsOf(recs: seq<Record>): (evs: seq<Event>)
    ensures |evs| == |recs|
    ensures forall i :: 0 <= i < |recs| ==> evs[i] == recs[i].ev
  {
    seq(|recs|, i requires 0 <= i < |recs| => recs[i].ev)
  }

  /** How many records of an LP's log survive a rollback to `to`. */
  function Cut(processed: seq<Record>, to: TimeStamp): (k: nat)
    ensures k <= |processed|
    ensures k > 0 ==> processed[k - 1].ev.ts.Lt(to)
    ensures forall i :: k <= i < |processed| ==> to.Le(processed[i].ev.ts)
    decreases |processed|
  {
    var n := |processed|;
    if n == 0 || processed[n - 1].ev.ts.Lt(to) then n else Cut(processed[..n - 1], to)
  }

  /** Records at or after `to` leave the log, their tombstones are taken back and their events
      are pending again. */
  function Undo(r: Rank, l: LPId, to: TimeStamp): Rank
    requires l in r.lps
  {
    var log := r.lps[l].processed;
    var k := Cut(log, to);
    WithLp(r, l, r.lps[l].(processed := log[..k]))
    .(pending := r.pending + multiset(EventsOf(log[k..])), cancelled := UndoCancels(r.cancelled, log[k..]))
  }

  /** The LP state after restoring the snapshots of undone records, given oldest first: the oldest
      LP-wide snapshot if there is one, and for each entity its oldest pre-state. */
  function Restore(undone: seq<Record>, state: LpState): LpState
    decreases |undone|
  {
    if |undone| == 0 then state
    else if undone[0].hasLpSnapshot then undone[0].preLpState
    else Restore(undone[1..], state) + undone[0].preEntityState
  }

  function Rewind(ctx: LpContext, undone: seq<Record>, to: TimeStamp): LpContext {
    if |undone| == 0 then ctx.(vt := PrevStamp(to))
    else ctx.(vt := PrevStamp(to),
              state := Restore(undone, ctx.state),
              nextSeqNormal := undone[0].preSeqNormal,
              nextSeqControl := undone[0].preSeqControl)
  }

  /** The anti-message for a logged send: the event's stamp, identity and recorded destination. */
  function AntiFor(l: LPId, rec: SentRecord): Event {
    Event(rec.msgTime, l, rec.dst, 0, rec.uid, Payload(0, []), 0, true)
  }

  /** How many entries of a send log survive a rollback to `to`. */
  function SendCut(log: seq<SentRecord>, to: TimeStamp): (j: nat)
    ensures j <= |log|
    ensures j > 0 ==> log[j - 1].sendTime.Lt(to)
    ensures forall i :: j <= i < |log| ==> to.Le(log[i].sendTime)
    decreases |log|
  {
    var n := |log|;
    if n == 0 || log[n - 1].sendTime.Lt(to) then n else SendCut(log[..n - 1], to)
  }

  /** Anti-messages for log entries, newest first. */
  function AntisFor(l: LPId, log: seq<SentRecord>): (antis: seq<Event>)
    ensures |antis| == |log|
    ensures forall i :: 0 <= i < |log| ==> antis[i] == AntiFor(l, log[|log| - 1 - i])
    decreases |log|
  {
    var n := |log|;
    if n == 0 then [] else [AntiFor(l, log[n - 1])] + AntisFor(l, log[..n - 1])
  }

  function CutLog(r: Rank, l: LPId, log: seq<SentRecord>): Rank
    requires l in r.lps
  {
    WithLp(r, l, r.lps[l].(sentLog := log))
  }

  lemma SendEventKeepsLps(cfg: Config, me: RankId, r: Rank, ev: Event)
    ensures r.lps.Keys <= SendEvent(cfg, me, r, ev).lps.Keys
  {
    hide Post, Stamp, Paint;
  }

  lemma {:induction false} SendAllKeepsLps(cfg: Config, me: RankId, r: Rank, evs: seq<Event>)
    ensures r.lps.Keys <= SendAll(cfg, me, r, evs).lps.Keys
    decreases |evs|
  {
    hide SendEvent;
    if |evs| > 0 {
      SendEventKeepsLps(cfg, me, r, evs[0]);
      SendAllKeepsLps(cfg, me, SendEvent(cfg, me, r, evs[0]), evs[1..]);
    }
  }

  /** Messages sent at or after `to` are cancelled by anti-messages and leave the log. */
  function Retract(cfg: Config, me: RankId, r: Rank, l: LPId, to: TimeStamp): Rank
    requires l in r.lps
  {
    var log := r.lps[l].sentLog;
    var j := SendCut(log, to);
    SendAllKeepsLps(cfg, me, r, AntisFor(l, log[j..]));
    CutLog(SendAll(cfg, me, r, AntisFor(l, log[j..])), l, log[..j])
  }

  /** The rank after undoing and restoring, before the anti-messages go out. */
  function Rewound(r: Rank, l: LPId, to: TimeStamp): (u: Rank)
    requires l in r.lps
    ensures l in u.lps
  {
    var log := r.lps[l].processed;
    var undone := Undo(r.(rollbacks := r.rollbacks + 1), l, to);
    WithLp(undone, l, Rewind(undone.lps[l], log[Cut(log, to)..], to))
  }

  function Rollback(cfg: Config, me: RankId, r: Rank, l: LPId, to: TimeStamp): (u: Rank)
    requires l in r.lps
    ensures l in u.lps
  {
    Retract(cfg, me, Rewound(r, l, to), l, to)
  }

  /* ---- Dispatching ---- */

  /** The stamp of the newest processed event with this identity. */
  function FindProcessed(processed: seq<Record>, key: UidKey): Option<TimeStamp>
    decreases |processed|
  {
    var n := |processed|;
    if n == 0 then None
    else if !processed[n - 1].ev.isAnti && KeyOf(processed[n - 1].ev) == key then Some(processed[n - 1].ev.ts)
    else FindProcessed(processed[..n - 1], key)
  }

  /** The tombstone of an anti-message; an older one with a smaller stamp stays. */
  function Bury(r: Rank, anti: Event): Rank {
    var key := KeyOf(anti);
    if key in r.cancelled && !anti.ts.Lt(r.cancelled[key]) then r
    else r.(cancelled := r.cancelled[key := anti.ts])
  }

  function Cancel(cfg: Config, me: RankId, r: Rank, anti: Event): (u: Rank)
    requires anti.dst in r.lps
    ensures anti.dst in u.lps
  {
    match FindProcessed(r.lps[anti.dst].processed, KeyOf(anti))
    case None => Bury(r, anti)
    case Some(ts) => Rollback(cfg, me, Bury(r, anti), anti.dst, ts)
  }

  function AntiRecord(r: Rank, anti: Event): Record
    requires anti.dst in r.lps
  {
    var had := KeyOf(anti) in r.cancelled;
    Record(anti, r.lps[anti.dst].nextSeqNormal, r.lps[anti.dst].nextSeqControl,
           false, map[], map[], [], had, if had then r.cancelled[KeyOf(anti)] else ZERO)
  }

  function PushRecord(r: Rank, l: LPId, rec: Record): Rank
    requires l in r.lps
  {
    var ctx := r.lps[l];
    WithLp(r, l, ctx.(vt := rec.ev.ts, processed := ctx.processed + [rec]))
  }

  function DispatchAnti(cfg: Config, me: RankId, r: Rank, anti: Event): Rank
    requires anti.dst in r.lps
  {
    PushRecord(Cancel(cfg, me, r, anti), anti.dst, AntiRecord(r, anti))
  }

  /** An LP about to run the handler. */
  function OpenLp(ctx: LpContext, ev: Event): LpContext {
    ctx.(vt := ev.ts, inEvent := true, currentExecTs := ev.ts)
  }

  function EventRecord(ctx: LpContext, ev: Event, f: Frame): Record {
    Record(ev, ctx.nextSeqNormal, ctx.nextSeqControl,
           f.hasLpSnapshot, f.preLpState, f.preEntityState, f.committed, false, ZERO)
  }

  function CloseLp(r: Rank, l: LPId, rec: Record, state: LpState): Rank {
    if l !in r.lps then Abort(r)
    else
      var ctx := r.lps[l];
      WithLp(r, l, ctx.(state := state, inEvent := false, processed := ctx.processed + [rec]))
  }

  /** Running a handler: its messages go out in order, its writes are done in order, and the
      record keeps the snapshots and outputs. */
  function Execute(cfg: Config, m: Model, me: RankId, r: Rank, ev: Event): Rank
    requires ev.dst in r.lps
  {
    var l := ev.dst;
    var ctx := r.lps[l];
    var script := m.handle(l, ctx.state, ev);
    var f := RunFrame(m.entitySnapshots(l), OpenFrame(ctx.state), script);
    var sent := SendAll(cfg, me, WithLp(r, l, OpenLp(ctx, ev)), SendsOf(script));
    if !EmitsAt(ev.ts, script) then Abort(r)
    else if sent.aborted then Abort(r)
    else CloseLp(sent, l, EventRecord(ctx, ev, f), f.state)
  }

  /** Straggling input is put back after rolling its LP back; other input is taken up. */
  function Dispatch(cfg: Config, m: Model, me: RankId, r: Rank, ev: Event): Rank {
    if ev.dst !in r.lps then Abort(r)
    else if ev.ts.Lt(r.lps[ev.dst].vt) then Enqueue(Rollback(cfg, me, r, ev.dst, ev.ts), ev)
    else if ev.isAnti then DispatchAnti(cfg, me, r, ev)
    else Execute(cfg, m, me, r, ev)
  }

  /* ---- The pending queue ---- */

  predicate Tombstoned(r: Rank, ev: Event) {
    KeyOf(ev) in r.cancelled
  }

  function TakePending(r: Rank, ev: Event): Rank {
    r.(pending := r.pending - multiset{ev})
  }

  /** A cancelled event is thrown away. */
  function DropPending(r: Rank, ev: Event): Rank {
    TakePending(r, ev).(dropped := r.dropped + multiset{ev})
  }

  /** Cancelled events thrown away one after the other. */
  function DropAll(r: Rank, drops: seq<Event>): Rank
    decreases |drops|
  {
    if |drops| == 0 then r else DropPending(DropAll(r, drops[..|drops| - 1]), drops[|drops| - 1])
  }

  /** Each of them is at the head of the queue and tombstoned when it is thrown away. */
  ghost predicate Droppable(r: Rank, drops: seq<Event>) {
    forall i :: 0 <= i < |drops| ==>
      IsTop(DropAll(r, drops[..i]).pending, drops[i]) && Tombstoned(DropAll(r, drops[..i]), drops[i])
  }

  /* ---- GVT and pruning ---- */

  /** The queue's next event is not a cancelled one. */
  ghost predicate Settled(r: Rank) {
    forall e :: IsTop(r.pending, e) ==> !Tombstoned(r, e)
  }

  ghost function LocalStamps(cfg: Config, r: Rank): set<TimeStamp> {
    (set l | l in r.lps :: r.lps[l].vt)
    + (set e | e in r.pending :: e.ts)
    + (if cfg.mode.AckInflight? then set t | t in r.inflightTs else {})
  }

  ghost function LocalGvt(cfg: Config, r: Rank): TimeStamp {
    MinOf(LocalStamps(cfg, r))
  }

  /** How many records at the front of a log are below `gvt`. */
  function Fossils(processed: seq<Record>, gvt: TimeStamp): (k: nat)
    ensures k <= |processed|
    ensures forall i :: 0 <= i < k ==> processed[i].ev.ts.Lt(gvt)
    ensures k < |processed| ==> !processed[k].ev.ts.Lt(gvt)
    decreases |processed|
  {
    if |processed| == 0 || !processed[0].ev.ts.Lt(gvt) then 0 else 1 + Fossils(processed[1..], gvt)
  }

  function FossilSends(log: seq<SentRecord>, gvt: TimeStamp): (k: nat)
    ensures k <= |log|
    ensures forall i :: 0 <= i < k ==> log[i].sendTime.Lt(gvt)
    ensures k < |log| ==> !log[k].sendTime.Lt(gvt)
    decreases |log|
  {
    if |log| == 0 || !log[0].sendTime.Lt(gvt) then 0 else 1 + FossilSends(log[1..], gvt)
  }

  function PruneCtx(ctx: LpContext, gvt: TimeStamp): LpContext {
    ctx.(processed := ctx.processed[Fossils(ctx.processed, gvt)..],
         sentLog := ctx.sentLog[FossilSends(ctx.sentLog, gvt)..])
  }

  function PrunePast(ctx: LpContext, past: LpPast, gvt: TimeStamp): LpPast {
    past.(committed := past.committed + ctx.processed[..Fossils(ctx.processed, gvt)],
          pruned := past.pruned + ctx.sentLog[..FossilSends(ctx.sentLog, gvt)])
  }

  function OutputItem(l: LPId, rec: Record, j: nat): FlushItem
    requires j < |rec.committed|
  {
    FlushItem(rec.committed[j].ts, l, rec.ev.src, rec.ev.uid, j, rec.committed[j].payload)
  }

  /** The outputs released by pruning at `gvt`. */
  function Released(r: Rank, gvt: TimeStamp): set<FlushItem> {
    set l, i, j | l in r.lps && 0 <= i < Fossils(r.lps[l].processed, gvt)
                  && 0 <= j < |r.lps[l].processed[i].committed|
      :: OutputItem(l, r.lps[l].processed[i], j)
  }

  ghost function Prune(r: Rank, gvt: TimeStamp): Rank {
    r.(lps := map l | l in r.lps :: PruneCtx(r.lps[l], gvt),
       past := map l | l in r.past :: if l in r.lps then PrunePast(r.lps[l], r.past[l], gvt) else r.past[l],
       cancelled := map k | k in r.cancelled && !r.cancelled[k].Lt(gvt) :: r.cancelled[k],
       output := r.output + InOrder(Released(r, gvt)))
  }

  /** Acknowledgement mode: take the reduced minimum as the new GVT unless it is behind. */
  ghost function AdvanceAck(r: Rank, reduced: TimeStamp): Rank {
    if reduced.Lt(r.lastGvt) then r else Prune(r.(lastGvt := reduced), reduced)
  }

  function Flip(p: Phase): Phase {
    p.(red := true, color := 1 - p.white, whiteSentAtFlip := p.Sent(p.white), minRedSent := MAX_STAMP)
  }

  function NextRound(p: Phase): Phase {
    p.(red := false, white := 1 - p.white, color := 1 - p.white, whiteSentAtFlip := 0, minRedSent := MAX_STAMP)
  }

  function WhiteDelta(r: Rank): int {
    r.phase.whiteSentAtFlip - r.phase.Recv(r.phase.white)
  }

  ghost function ColoredGvt(cfg: Config, r: Rank): TimeStamp {
    MinStamp(LocalGvt(cfg, r), r.phase.minRedSent)
  }

  /** Coloured mode: flip to red; then wait for the white messages; then advance and start over. */
  ghost function AdvanceColored(r: Rank, whiteInTransit: int, reduced: TimeStamp): Rank {
    if !r.phase.red then r.(phase := Flip(r.phase))
    else if whiteInTransit != 0 || reduced.Lt(r.lastGvt) then r
    else Prune(r.(lastGvt := reduced), reduced).(phase := NextRound(r.phase))
  }
}
