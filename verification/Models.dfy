/** Logical processes and what the kernel asks of them.

    A handler is a deterministic function from the LP's identity, its state and the event to the
    script of calls it makes on the event context: request_write, its own writes, emit_committed
    and send.  Which snapshots a script leaves behind, and what undoing it restores, is then
    derived rather than assumed (src/lp.hpp, EventContext in src/simulation.hpp). */
module Models {
  import opened Stamps
  import opened Events

  /** An LP's rollback-relevant state: the entities it owns. */
  type LpState = map<EntityId, Bytes>

  datatype Action =
    | RequestWrite(id: EntityId)
    | Write(id: EntityId, bytes: Bytes)
    | Emit(ts: TimeStamp, payload: Payload)
    | Send(ev: Event)

  datatype Model = Model(
    init: LPId -> LpState,
    start: LPId -> seq<Event>,
    handle: (LPId, LpState, Event) -> seq<Action>,
    entitySnapshots: LPId -> bool)

  datatype Output = Output(ts: TimeStamp, payload: Payload)

  /** The record kept of a processed event or anti-message. */
  datatype Record = Record(
    ev: Event,
    preSeqNormal: u64,
    preSeqControl: u64,
    hasLpSnapshot: bool,
    preLpState: LpState,
    preEntityState: map<EntityId, Bytes>,
    committed: seq<Output>,
    cancelHadEntry: bool,
    cancelPrevTs: TimeStamp)

  /** The LP's state while a script runs, and what the context has collected so far. */
  datatype Frame = Frame(
    state: LpState,
    hasLpSnapshot: bool,
    preLpState: LpState,
    preEntityState: map<EntityId, Bytes>,
    committed: seq<Output>)

  function OpenFrame(state: LpState): Frame {
    Frame(state, false, map[], map[], [])
  }

  /** save_entity: an unknown entity has no bytes. */
  function SaveEntity(state: LpState, id: EntityId): Bytes {
    if id in state then state[id] else []
  }

  function StepFrame(byEntity: bool, f: Frame, a: Action): Frame {
    match a
    case RequestWrite(id) =>
      if id in f.preEntityState then f
      else if byEntity then f.(preEntityState := f.preEntityState[id := SaveEntity(f.state, id)])
      else if f.hasLpSnapshot then f
      else f.(hasLpSnapshot := true, preLpState := f.state)
    case Write(id, bytes) => f.(state := f.state[id := bytes])
    case Emit(ts, payload) => f.(committed := f.committed + [Output(ts, payload)])
    case Send(_) => f
  }

  function RunFrame(byEntity: bool, f: Frame, script: seq<Action>): Frame
    decreases |script|
  {
    if |script| == 0 then f
    else RunFrame(byEntity, StepFrame(byEntity, f, script[0]), script[1..])
  }

  function SendsOf(script: seq<Action>): seq<Event>
    decreases |script|
  {
    if |script| == 0 then []
    else (if script[0].Send? then [script[0].ev] else []) + SendsOf(script[1..])
  }

  /** emit_committed throws unless the output carries the executing event's stamp. */
  predicate EmitsAt(ts: TimeStamp, script: seq<Action>) {
    forall i :: 0 <= i < |script| && script[i].Emit? ==> script[i].ts == ts
  }

  /* ---- The contract a model is written to (docs/modeling_contract.md) ---- */

  /** Every write is to an existing entity and comes after a request to write it. */
  predicate Disciplined(entities: set<EntityId>, requested: set<EntityId>, script: seq<Action>)
    decreases |script|
  {
    |script| == 0 ||
    match script[0]
    case RequestWrite(id) => id in entities && Disciplined(entities, requested + {id}, script[1..])
    case Write(id, _) => id in requested && Disciplined(entities, requested, script[1..])
    case _ => Disciplined(entities, requested, script[1..])
  }

  ghost predicate DisciplinedModel(m: Model) {
    forall l: LPId, s: LpState, e: Event ::
      s.Keys == m.init(l).Keys ==> Disciplined(s.Keys, {}, m.handle(l, s, e))
  }

  /** A message a model may ask LP `l` to send: in its own name, without an identity of its own. */
  predicate OwnMessage(l: LPId, t: Event) {
    t.src == l && t.uid == 0 && !t.isAnti
  }

  /** The stamp the message will get is not below `now`: an explicit stamp is compared, and one
      whose sequence the kernel fills in must be at a later time. */
  predicate NotBefore(now: TimeStamp, t: Event) {
    if t.ts.sequence == 0 then now.time < t.ts.time else now.Le(t.ts)
  }

  /** Causality: handlers only send in their own name and never into their past. */
  ghost predicate CausalModel(m: Model) {
    && (forall l: LPId, t: Event :: t in m.start(l) ==> OwnMessage(l, t))
    && (forall l: LPId, s: LpState, e: Event, t: Event :: t in SendsOf(m.handle(l, s, e)) ==>
          OwnMessage(l, t) && NotBefore(e.ts, t))
  }

  /** Every message carries an explicit sequence and goes strictly into the future. */
  ghost predicate StrictModel(m: Model) {
    && (forall l: LPId, t: Event :: t in m.start(l) ==> t.ts.sequence != 0)
    && (forall l: LPId, s: LpState, e: Event, t: Event :: t in SendsOf(m.handle(l, s, e)) ==>
          t.ts.sequence != 0 && e.ts.Lt(t.ts))
  }

  /** Handlers do not look at the transport identity, the GVT colour or the anti flag. */
  ghost predicate IdentityBlind(m: Model) {
    forall l: LPId, s: LpState, e: Event, f: Event :: ContentOf(e) == ContentOf(f) ==>
      m.handle(l, s, e) == m.handle(l, s, f)
  }

  /* ---- Replaying a log of events ---- */

  /** The state an event leaves behind; an anti-message leaves the state alone. */
  function AfterEvent(m: Model, l: LPId, s: LpState, ev: Event): LpState {
    if ev.isAnti then s
    else RunFrame(m.entitySnapshots(l), OpenFrame(s), m.handle(l, s, ev)).state
  }

  function StateAfter(m: Model, l: LPId, evs: seq<Event>): LpState
    decreases |evs|
  {
    if |evs| == 0 then m.init(l)
    else AfterEvent(m, l, StateAfter(m, l, evs[..|evs| - 1]), evs[|evs| - 1])
  }

  /** A message a model asked for, with the stamp of the event it was asked for in. */
  datatype Request = Request(sendTime: TimeStamp, msg: Event)

  function RequestsAt(ts: TimeStamp, msgs: seq<Event>): (r: seq<Request>)
    ensures |r| == |msgs|
  {
    seq(|msgs|, i requires 0 <= i < |msgs| => Request(ts, msgs[i]))
  }

  function RequestsOfEvent(m: Model, l: LPId, s: LpState, ev: Event): seq<Request> {
    if ev.isAnti then [] else RequestsAt(ev.ts, SendsOf(m.handle(l, s, ev)))
  }

  /** All messages asked for at start-up (if it has happened) and by a log of events, in order. */
  function RequestsOf(m: Model, l: LPId, started: bool, evs: seq<Event>): seq<Request>
    decreases |evs|
  {
    if |evs| == 0 then (if started then RequestsAt(ZERO, m.start(l)) else [])
    else
      var before := evs[..|evs| - 1];
      RequestsOf(m, l, started, before) + RequestsOfEvent(m, l, StateAfter(m, l, before), evs[|evs| - 1])
  }

  lemma ReplaySnoc(m: Model, l: LPId, started: bool, evs: seq<Event>, ev: Event)
    ensures StateAfter(m, l, evs + [ev]) == AfterEvent(m, l, StateAfter(m, l, evs), ev)
    ensures RequestsOf(m, l, started, evs + [ev])
         == RequestsOf(m, l, started, evs) + RequestsOfEvent(m, l, StateAfter(m, l, evs), ev)
  {
    assert (evs + [ev])[..|evs|] == evs;
  }

  lemma {:induction false} RequestsPrefix(m: Model, l: LPId, started: bool, evs: seq<Event>, k: nat)
    requires k <= |evs|
    ensures RequestsOf(m, l, started, evs[..k]) <= RequestsOf(m, l, started, evs)
    decreases |evs|
  {
    if k == |evs| {
      assert evs[..k] == evs;
    } else {
      var n := |evs| - 1;
      RequestsPrefix(m, l, started, evs[..n], k);
      assert evs[..n][..k] == evs[..k];
    }
  }
}
