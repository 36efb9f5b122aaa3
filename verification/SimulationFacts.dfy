/** What the loops of class Simulation compute, a step at a time, in terms of the kernel functions. */
module SimulationFacts {
  import opened Stamps
  import opened Events
  import opened Models
  import opened Flush
  import opened Kernel
  import opened Replay
  import opened LpInvariant
  import opened RankSteps
  import opened BookSteps
  import opened Outputs
  import opened Pruning
  import opened Checker
  import opened Collections

  /* ---- Facts the loops need ---- */

  lemma SendAllSnoc(cfg: Config, me: RankId, r: Rank, evs: seq<Event>, ev: Event)
    ensures SendAll(cfg, me, r, evs + [ev]) == SendEvent(cfg, me, SendAll(cfg, me, r, evs), ev)
    decreases |evs|
  {
    hide SendEvent;
    if |evs| == 0 {
      assert evs + [ev] == [ev];
      assert SendAll(cfg, me, SendEvent(cfg, me, r, ev), []) == SendEvent(cfg, me, r, ev);
    } else {
      assert (evs + [ev])[1..] == evs[1..] + [ev];
      SendAllSnoc(cfg, me, SendEvent(cfg, me, r, evs[0]), evs[1..], ev);
    }
  }

  lemma SendAllSplit(cfg: Config, me: RankId, r: Rank, a: seq<Event>, b: seq<Event>)
    ensures SendAll(cfg, me, r, a + b) == SendAll(cfg, me, SendAll(cfg, me, r, a), b)
    decreases |a|
  {
    hide SendEvent;
    if |a| == 0 {
      assert a + b == b;
    } else {
      assert (a + b)[1..] == a[1..] + b;
      SendAllSplit(cfg, me, SendEvent(cfg, me, r, a[0]), a[1..], b);
    }
  }

  lemma DropAllSnoc(r: Rank, drops: seq<Event>, ev: Event)
    ensures DropAll(r, drops + [ev]) == DropPending(DropAll(r, drops), ev)
  {
    assert (drops + [ev])[..|drops|] == drops;
  }

  lemma DroppableSnoc(r: Rank, drops: seq<Event>, ev: Event)
    requires Droppable(r, drops)
    requires IsTop(DropAll(r, drops).pending, ev) && Tombstoned(DropAll(r, drops), ev)
    ensures Droppable(r, drops + [ev])
  {
    hide DropAll, IsTop, Tombstoned;
    var more := drops + [ev];
    forall i | 0 <= i < |more|
      ensures IsTop(DropAll(r, more[..i]).pending, more[i]) && Tombstoned(DropAll(r, more[..i]), more[i])
    {
      if i < |drops| { assert more[..i] == drops[..i]; } else { assert more[..i] == drops; }
    }
  }

  /** Two heads of a queue agree in stamp and identity. */
  lemma TopsAgree(pending: multiset<Event>, a: Event, b: Event)
    requires IsTop(pending, a) && IsTop(pending, b)
    ensures a.ts == b.ts && KeyOf(a) == KeyOf(b)
  {
    OrdIsOrder(a.ts, b.ts);
  }

  /** Some untombstoned head settles the queue. */
  lemma TopSettles(r: Rank, ev: Event)
    requires IsTop(r.pending, ev) && !Tombstoned(r, ev)
    ensures Settled(r)
  {
    hide IsTop;
    forall e | IsTop(r.pending, e) ensures !Tombstoned(r, e) { TopsAgree(r.pending, e, ev); }
  }

  /** The head's stamp is the least pending stamp. */
  lemma TopIsMin(pending: multiset<Event>, ev: Event)
    requires IsTop(pending, ev)
    ensures forall e :: e in pending ==> ev.ts.Le(e.ts)
  {
  }

  /* ---- Undoing and restoring ---- */

  /** The same records, newest first and oldest first. */
  ghost predicate Reversed(newestFirst: seq<Record>, oldestFirst: seq<Record>) {
    && |oldestFirst| == |newestFirst|
    && forall i :: 0 <= i < |oldestFirst| ==> oldestFirst[i] == newestFirst[|oldestFirst| - 1 - i]
  }

  lemma NothingReversed(log: seq<Record>)
    ensures Reversed([], log[|log|..])
  {
  }

  lemma ReversedMore(undone: seq<Record>, log: seq<Record>, n: nat)
    requires 0 < n <= |log| && Reversed(undone, log[n..])
    ensures Reversed(undone + [log[n - 1]], log[n - 1..])
  {
    assert log[n - 1..] == [log[n - 1]] + log[n..];
  }

  lemma UndoCancelsCons(cancelled: map<UidKey, TimeStamp>, rec: Record, undone: seq<Record>)
    ensures UndoCancels(cancelled, [rec] + undone) == UndoCancel(UndoCancels(cancelled, undone), rec)
    decreases |undone|
  {
    var n := |undone|;
    if n == 0 {
      assert [rec] + undone == [rec];
      assert UndoCancels(UndoCancel(cancelled, rec), [rec][..0]) == UndoCancel(cancelled, rec);
    } else {
      assert ([rec] + undone)[..n] == [rec] + undone[..n - 1];
      UndoCancelsCons(UndoCancel(cancelled, undone[n - 1]), rec, undone[..n - 1]);
    }
  }

  /** An LP's records hold either per-entity snapshots or LP-wide ones. */
  ghost predicate KindsOk(byEntity: bool, recs: seq<Record>) {
    forall i :: 0 <= i < |recs| ==> if byEntity then !recs[i].hasLpSnapshot else recs[i].preEntityState == map[]
  }

  /** The oldest saved bytes of an entity. */
  function FirstPre(undone: seq<Record>, id: EntityId): Option<Bytes>
    decreases |undone|
  {
    if |undone| == 0 then None
    else if id in undone[0].preEntityState then Some(undone[0].preEntityState[id])
    else FirstPre(undone[1..], id)
  }

  lemma {:induction false} FirstPreSnoc(undone: seq<Record>, rec: Record, id: EntityId)
    ensures FirstPre(undone + [rec], id)
         == if FirstPre(undone, id).Some? then FirstPre(undone, id)
            else if id in rec.preEntityState then Some(rec.preEntityState[id]) else None
    decreases |undone|
  {
    if |undone| == 0 {
      assert undone + [rec] == [rec] && [rec][1..] == [];
    } else {
      assert (undone + [rec])[1..] == undone[1..] + [rec];
      FirstPreSnoc(undone[1..], rec, id);
    }
  }

  /** A state with each entity at its oldest saved bytes. */
  ghost predicate EntitiesRestored(undone: seq<Record>, before: LpState, after: LpState) {
    && (forall id :: id in after <==> id in before || FirstPre(undone, id).Some?)
    && (forall id :: id in after ==>
          after[id] == if FirstPre(undone, id).Some? then FirstPre(undone, id).value else before[id])
  }

  lemma {:induction false} RestoreByEntity(undone: seq<Record>, before: LpState)
    requires KindsOk(true, undone)
    ensures EntitiesRestored(undone, before, Restore(undone, before))
    decreases |undone|
  {
    if |undone| > 0 { RestoreByEntity(undone[1..], before); }
  }

  lemma RestoredIs(undone: seq<Record>, before: LpState, after: LpState)
    requires KindsOk(true, undone) && EntitiesRestored(undone, before, after)
    ensures after == Restore(undone, before)
  {
    RestoreByEntity(undone, before);
  }

  lemma {:induction false} RestoreByLp(undone: seq<Record>, before: LpState, i: nat)
    requires KindsOk(false, undone) && i <= |undone|
    requires forall j :: 0 <= j < i ==> !undone[j].hasLpSnapshot
    ensures Restore(undone, before) == Restore(undone[i..], before)
    decreases |undone|
  {
    if i > 0 {
      RestoreByLp(undone[1..], before, i - 1);
      assert undone[1..][i - 1..] == undone[i..];
      assert Restore(undone[1..], before) + map[] == Restore(undone[1..], before);
    }
  }

  lemma AntisForCons(l: LPId, log: seq<SentRecord>, n: nat)
    requires 0 < n <= |log|
    ensures AntisFor(l, log[n - 1..]) == AntisFor(l, log[n..]) + [AntiFor(l, log[n - 1])]
  {
    var a := AntisFor(l, log[n - 1..]);
    var b := AntisFor(l, log[n..]) + [AntiFor(l, log[n - 1])];
    forall i | 0 <= i < |a| ensures a[i] == b[i] {}
  }

  lemma NoDrops(r: Rank)
    ensures Droppable(r, []) && DropAll(r, []) == r
  {
  }

  lemma TopIsPending(pending: multiset<Event>, ev: Event)
    requires IsTop(pending, ev)
    ensures ev in pending
  {
  }

  lemma EmptySettles(r: Rank)
    requires r.pending == multiset{}
    ensures Settled(r)
  {
  }

  lemma AbortedSend(cfg: Config, me: RankId, r: Rank, ev: Event)
    ensures r.aborted ==> SendEvent(cfg, me, r, ev) == r
  {
  }

  lemma LocalGvtIs(cfg: Config, r: Rank, vt: TimeStamp, next: Option<TimeStamp>, least: TimeStamp)
    requires forall l :: l in r.lps ==> vt.Le(r.lps[l].vt)
    requires vt == MAX_STAMP || exists l :: l in r.lps && vt == r.lps[l].vt
    requires next.None? ==> r.pending == multiset{}
    requires next.Some? ==> (exists e :: e in r.pending && e.ts == next.value) && forall e :: e in r.pending ==> next.value.Le(e.ts)
    requires cfg.mode.AckInflight? ==> (least == MAX_STAMP || least in r.inflightTs) && forall t :: t in r.inflightTs ==> least.Le(t)
    ensures
      var both := if next.Some? then MinStamp(vt, next.value) else vt;
      LocalGvt(cfg, r) == if cfg.mode.AckInflight? then MinStamp(both, least) else both
  {
    var both := if next.Some? then MinStamp(vt, next.value) else vt;
    var gvt := if cfg.mode.AckInflight? then MinStamp(both, least) else both;
    forall t | t in LocalStamps(cfg, r) ensures gvt.Le(t) {
      assert both.Le(t) || (cfg.mode.AckInflight? && t in r.inflightTs);
    }
    MinOfUnique(LocalStamps(cfg, r), gvt);
  }

  lemma NothingSaved(state: LpState)
    ensures EntitiesRestored([], state, state) && forall id :: FirstPre([], id).None?
  {
  }

  /** Of records listed newest first, this is the oldest with an LP-wide snapshot. */
  predicate OldestSnapshot(undone: seq<Record>, i: int) {
    0 <= i < |undone| && undone[i].hasLpSnapshot && forall j :: i < j < |undone| ==> !undone[j].hasLpSnapshot
  }

  /** What a record has loaded while the entities in `left` are still to do. */
  ghost function LoadedPart(pre: map<EntityId, Bytes>, restored: set<EntityId>, left: set<EntityId>): map<EntityId, Bytes> {
    map id | id in pre && id !in left && id !in restored :: pre[id]
  }

  lemma LoadedStart(pre: map<EntityId, Bytes>, restored: set<EntityId>, state: LpState)
    ensures state + LoadedPart(pre, restored, pre.Keys) == state
  {
    assert LoadedPart(pre, restored, pre.Keys) == map[];
  }

  lemma LoadedStep(pre: map<EntityId, Bytes>, restored: set<EntityId>, left: set<EntityId>, id: EntityId, state: LpState)
    requires id in left && id in pre
    ensures state + LoadedPart(pre, restored, left - {id})
         == if id in restored then state + LoadedPart(pre, restored, left)
            else (state + LoadedPart(pre, restored, left))[id := pre[id]]
  {
  }

  lemma RecordLoaded(rec: Record, front: seq<Record>, before: LpState, state: LpState, restored: set<EntityId>, s: LpState)
    requires EntitiesRestored(front, before, state)
    requires forall id :: id in restored <==> FirstPre(front, id).Some?
    requires s == state + LoadedPart(rec.preEntityState, restored, {})
    ensures EntitiesRestored(front + [rec], before, s)
    ensures forall id :: id in restored + rec.preEntityState.Keys <==> FirstPre(front + [rec], id).Some?
  {
    hide FirstPre;
    forall id
      ensures FirstPre(front + [rec], id) == if FirstPre(front, id).Some? then FirstPre(front, id)
        else if id in rec.preEntityState then Some(rec.preEntityState[id]) else None
    {
      FirstPreSnoc(front, rec, id);
    }
  }

  lemma SnapshotIs(undone: seq<Record>, oldestFirst: seq<Record>, state: LpState, s: LpState, byEntity: bool)
    requires KindsOk(byEntity, oldestFirst)
    requires Reversed(undone, oldestFirst)
    requires (forall i :: 0 <= i < |undone| ==> !undone[i].hasLpSnapshot) ==> s == state
    requires forall i :: OldestSnapshot(undone, i) ==> s == undone[i].preLpState
    ensures byEntity ==> s == state
    ensures !byEntity ==> s == Restore(oldestFirst, state)
  {
    var n := |undone|;
    if byEntity {
      forall i | 0 <= i < n ensures !undone[i].hasLpSnapshot { assert oldestFirst[n - 1 - i] == undone[i]; }
    } else {
      var k := FirstSnapshot(oldestFirst);
      RestoreByLp(oldestFirst, state, k);
      if k == n {
        forall i | 0 <= i < n ensures !undone[i].hasLpSnapshot { assert oldestFirst[n - 1 - i] == undone[i]; }
        assert oldestFirst[n..] == [];
      } else {
        forall j | n - 1 - k < j < n ensures !undone[j].hasLpSnapshot { assert oldestFirst[n - 1 - j] == undone[j]; }
        assert oldestFirst[k..][0] == undone[n - 1 - k];
        assert OldestSnapshot(undone, n - 1 - k);
      }
    }
  }

  function FirstSnapshot(recs: seq<Record>): (k: nat)
    ensures k <= |recs|
    ensures forall j :: 0 <= j < k ==> !recs[j].hasLpSnapshot
    ensures k < |recs| ==> recs[k].hasLpSnapshot
    decreases |recs|
  {
    if |recs| == 0 || recs[0].hasLpSnapshot then 0 else 1 + FirstSnapshot(recs[1..])
  }

  function UndoOne(r: Rank, l: LPId): Rank
    requires l in r.lps && |r.lps[l].processed| > 0
  {
    var ctx := r.lps[l];
    var n := |ctx.processed|;
    WithLp(r, l, ctx.(processed := ctx.processed[..n - 1]))
    .(pending := r.pending + multiset{ctx.processed[n - 1].ev}, cancelled := UndoCancel(r.cancelled, ctx.processed[n - 1]))
  }

  /** A rank with the records of an LP from `n` on undone. */
  ghost predicate UndoneTo(r: Rank, l: LPId, n: nat, u: Rank) {
    && l in r.lps && n <= |r.lps[l].processed|
    && u == WithLp(r, l, r.lps[l].(processed := r.lps[l].processed[..n]))
            .(pending := r.pending + multiset(EventsOf(r.lps[l].processed[n..])),
              cancelled := UndoCancels(r.cancelled, r.lps[l].processed[n..]))
  }

  lemma NothingUndone(r: Rank, l: LPId)
    requires l in r.lps
    ensures UndoneTo(r, l, |r.lps[l].processed|, r)
  {
    var log := r.lps[l].processed;
    TakeAll(log);
    PutSame(r.lps, l);
    assert log[|log|..] == [];
  }

  lemma PendingStep(pending: multiset<Event>, log: seq<Record>, n: nat)
    requires 0 < n <= |log|
    ensures pending + multiset(EventsOf(log[n - 1..])) == pending + multiset(EventsOf(log[n..])) + multiset{log[n - 1].ev}
  {
    assert EventsOf(log[n - 1..]) == [log[n - 1].ev] + EventsOf(log[n..]);
  }

  lemma UndoneOneMore(r: Rank, l: LPId, n: nat, u: Rank)
    requires UndoneTo(r, l, n, u) && n > 0
    ensures l in u.lps && |u.lps[l].processed| == n && l in UndoOne(u, l).lps
    ensures u.lps[l].processed == r.lps[l].processed[..n]
    ensures UndoOne(u, l).lps[l].processed == r.lps[l].processed[..n - 1]
    ensures UndoneTo(r, l, n - 1, UndoOne(u, l))
  {
    hide UndoCancels, UndoCancel, EventsOf;
    var log := r.lps[l].processed;
    var ctx := r.lps[l].(processed := log[..n]);
    assert log[n - 1..] == [log[n - 1]] + log[n..];
    UndoCancelsCons(r.cancelled, log[n - 1], log[n..]);
    PendingStep(r.pending, log, n);
    TakeTake(log, n, n - 1);
    PutPut(r.lps, l, ctx, ctx.(processed := log[..n - 1]));
  }

  lemma UndoneIs(r: Rank, l: LPId, to: TimeStamp, u: Rank)
    requires l in r.lps && l in u.lps && UndoneTo(r, l, |u.lps[l].processed|, u)
    requires
      var n := |u.lps[l].processed|;
      Cut(r.lps[l].processed, to) <= n && (n > 0 ==> r.lps[l].processed[n - 1].ev.ts.Lt(to))
    ensures u == Undo(r, l, to)
    ensures |u.lps[l].processed| == Cut(r.lps[l].processed, to)
  {
  }

  lemma UndoFields(r: Rank, l: LPId, to: TimeStamp)
    requires l in r.lps
    ensures
      var u := Undo(r, l, to);
      && u.lps.Keys == r.lps.Keys && u.lps[l] == r.lps[l].(processed := u.lps[l].processed)
      && u == r.(lps := u.lps, pending := u.pending, cancelled := u.cancelled)
  {
    hide UndoCancels, Cut;
  }

  lemma RewoundFields(r: Rank, l: LPId, to: TimeStamp)
    requires l in r.lps
    ensures
      var u := Rewound(r, l, to);
      u.past == r.past && u.lps.Keys == r.lps.Keys && u.lps[l].sentLog == r.lps[l].sentLog && u.aborted == r.aborted
  {
    hide UndoCancels, Cut, Restore;
  }

  lemma RewoundIs(r: Rank, l: LPId, to: TimeStamp)
    requires l in r.lps
    ensures
      var log := r.lps[l].processed;
      var bare := Undo(r.(rollbacks := r.rollbacks + 1), l, to);
      l in bare.lps && Rewound(r, l, to) == WithLp(bare, l, Rewind(bare.lps[l], log[Cut(log, to)..], to))
  {
    hide Rewind, UndoCancels, Cut;
  }

  /** A rank with an LP's sends from `n` on cancelled. */
  ghost predicate RetractedTo(cfg: Config, me: RankId, r: Rank, l: LPId, n: nat, u: Rank) {
    && Hosts(r, l) && n <= |r.lps[l].sentLog| && !r.aborted && CompleteLog(l, r.lps[l].sentLog)
    && l in SendAll(cfg, me, r, AntisFor(l, r.lps[l].sentLog[n..])).lps
    && u == CutLog(SendAll(cfg, me, r, AntisFor(l, r.lps[l].sentLog[n..])), l, r.lps[l].sentLog[..n])
  }

  lemma NothingRetracted(cfg: Config, me: RankId, r: Rank, l: LPId)
    requires Hosts(r, l) && !r.aborted && CompleteLog(l, r.lps[l].sentLog)
    ensures RetractedTo(cfg, me, r, l, |r.lps[l].sentLog|, r)
  {
    hide CompleteLog;
    var log := r.lps[l].sentLog;
    assert AntisFor(l, log[|log|..]) == [];
    TakeAll(log);
    PutSame(r.lps, l);
  }

  /** The anti-messages of a complete log. */
  lemma AntisComplete(l: LPId, log: seq<SentRecord>, n: nat)
    requires CompleteLog(l, log) && n <= |log|
    ensures forall i :: 0 <= i < |AntisFor(l, log[n..])| ==> CompleteAnti(l, AntisFor(l, log[n..])[i])
  {
    forall i | 0 <= i < |log[n..]| ensures CompleteAnti(l, AntiFor(l, log[n..][i])) { assert log[n..][i] == log[n + i]; }
  }

  lemma RetractedOneMore(cfg: Config, me: RankId, r: Rank, l: LPId, n: nat, u: Rank)
    requires RetractedTo(cfg, me, r, l, n, u) && n > 0
    ensures Hosts(u, l) && u.lps[l].sentLog == r.lps[l].sentLog[..n]
    ensures
      var v := SendEvent(cfg, me, u, AntiFor(l, r.lps[l].sentLog[n - 1]));
      && Hosts(v, l) && !v.aborted && v.lps[l].sentLog == u.lps[l].sentLog
      && RetractedTo(cfg, me, r, l, n - 1, CutLog(v, l, r.lps[l].sentLog[..n - 1]))
  {
    hide SendEvent, CompleteAnti, CutLog;
    var log := r.lps[l].sentLog;
    var anti := AntiFor(l, log[n - 1]);
    var s := SendAll(cfg, me, r, AntisFor(l, log[n..]));
    AntisComplete(l, log, n);
    AntisComplete(l, log, n - 1);
    SendAntisShape(cfg, me, r, l, AntisFor(l, log[n..]));
    SendAntisShape(cfg, me, r, l, AntisFor(l, log[n - 1..]));
    AntisForCons(l, log, n);
    SendAllSnoc(cfg, me, r, AntisFor(l, log[n..]), anti);
    assert CompleteAnti(l, anti);
    CutLogCommutes(cfg, me, s, l, anti, log[..n]);
    CutLogFields(s, l, log[..n]);
    CutLogFields(SendEvent(cfg, me, s, anti), l, log[..n]);
    CutLogTwice(SendEvent(cfg, me, s, anti), l, log[..n], log[..n - 1]);
  }

  lemma CutLogFields(r: Rank, l: LPId, log: seq<SentRecord>)
    requires l in r.lps
    ensures l in CutLog(r, l, log).lps && CutLog(r, l, log).lps[l].sentLog == log
    ensures CutLog(r, l, log).past == r.past && CutLog(r, l, log).aborted == r.aborted
  {
  }

  lemma CutLogTwice(r: Rank, l: LPId, a: seq<SentRecord>, b: seq<SentRecord>)
    requires l in r.lps
    ensures l in CutLog(r, l, a).lps && CutLog(CutLog(r, l, a), l, b) == CutLog(r, l, b)
  {
    PutPut(r.lps, l, r.lps[l].(sentLog := a), r.lps[l].(sentLog := b));
  }

  lemma RetractedIs(cfg: Config, me: RankId, r: Rank, l: LPId, to: TimeStamp, u: Rank)
    requires l in r.lps && l in u.lps && RetractedTo(cfg, me, r, l, |u.lps[l].sentLog|, u)
    requires
      var n := |u.lps[l].sentLog|;
      n <= |r.lps[l].sentLog| && SendCut(r.lps[l].sentLog, to) <= n && (n > 0 ==> r.lps[l].sentLog[n - 1].sendTime.Lt(to))
    ensures u == Retract(cfg, me, r, l, to)
  {
    hide SendEvent, SendAll;
  }

  lemma KindsSuffix(byEntity: bool, recs: seq<Record>, k: nat)
    requires KindsOk(byEntity, recs) && k <= |recs|
    ensures KindsOk(byEntity, recs[k..])
  {
  }

  /* ---- Sending one after the other ---- */

  lemma NoSends(cfg: Config, me: RankId, r: Rank)
    ensures SendAll(cfg, me, r, []) == r
  {
  }

  /** One more message of a list; `now` is the rank so far, unless it has aborted. */
  lemma OneMoreSend(cfg: Config, me: RankId, r: Rank, msgs: seq<Event>, i: nat, now: Rank)
    requires i < |msgs|
    requires now.aborted == SendAll(cfg, me, r, msgs[..i]).aborted && (!now.aborted ==> now == SendAll(cfg, me, r, msgs[..i]))
    ensures SendEvent(cfg, me, now, msgs[i]).aborted == SendAll(cfg, me, r, msgs[..i + 1]).aborted
    ensures !SendEvent(cfg, me, now, msgs[i]).aborted ==> SendEvent(cfg, me, now, msgs[i]) == SendAll(cfg, me, r, msgs[..i + 1])
  {
    hide SendEvent, SendAll;
    SendAllSnoc(cfg, me, r, msgs[..i], msgs[i]);
    assert msgs[..i + 1] == msgs[..i] + [msgs[i]];
    AbortedSend(cfg, me, now, msgs[i]);
    AbortedSend(cfg, me, SendAll(cfg, me, r, msgs[..i]), msgs[i]);
  }

  /* ---- Running a script ---- */

  lemma {:induction false} FrameSnoc(byEntity: bool, f: Frame, script: seq<Action>, a: Action)
    ensures RunFrame(byEntity, f, script + [a]) == StepFrame(byEntity, RunFrame(byEntity, f, script), a)
    decreases |script|
  {
    hide StepFrame;
    if |script| == 0 {
      assert script + [a] == [a] && [a][1..] == [];
    } else {
      assert (script + [a])[1..] == script[1..] + [a];
      FrameSnoc(byEntity, StepFrame(byEntity, f, script[0]), script[1..], a);
    }
  }

  lemma SendsHead(s: seq<Action>)
    ensures SendsOf([]) == []
    ensures |s| > 0 ==> SendsOf(s) == (if s[0].Send? then [s[0].ev] else []) + SendsOf(s[1..])
  {
  }

  lemma {:induction false} SendsConcat(a: seq<Action>, b: seq<Action>)
    ensures SendsOf(a + b) == SendsOf(a) + SendsOf(b)
    decreases |a|
  {
    hide SendsOf;
    SendsHead(a);
    if |a| == 0 {
      assert a == [] && a + b == b;
      assert [] + SendsOf(b) == SendsOf(b);
    } else {
      SendsHead(a + b);
      assert (a + b)[1..] == a[1..] + b;
      SendsConcat(a[1..], b);
      ConcatAssoc(if a[0].Send? then [a[0].ev] else [], SendsOf(a[1..]), SendsOf(b));
    }
  }

  lemma OneSend(a: Action)
    ensures SendsOf([a]) == if a.Send? then [a.ev] else []
  {
    assert SendsOf([a][1..]) == [];
  }

  lemma NothingRun(cfg: Config, me: RankId, byEntity: bool, r: Rank, f: Frame, ts: TimeStamp, script: seq<Action>)
    ensures SendAll(cfg, me, r, SendsOf(script[..0])) == r
    ensures EmitsAt(ts, script[..0]) && RunFrame(byEntity, f, script[..0]) == f
  {
  }

  lemma EmitsPrefix(ts: TimeStamp, script: seq<Action>, i: nat)
    requires i <= |script|
    ensures EmitsAt(ts, script) ==> EmitsAt(ts, script[..i])
    ensures i < |script| && EmitsAt(ts, script[..i]) ==>
      (EmitsAt(ts, script[..i + 1]) <==> (script[i].Emit? ==> script[i].ts == ts))
  {
    if i < |script| {
      var more := script[..i + 1];
      forall j | 0 <= j < i ensures more[j] == script[..i][j] {}
      assert more[i] == script[i];
      if EmitsAt(ts, script[..i]) && (script[i].Emit? ==> script[i].ts == ts) {
        forall j | 0 <= j < |more| && more[j].Emit? ensures more[j].ts == ts {
          if j < i { assert script[..i][j].Emit?; }
        }
      }
    }
  }

  /** What the next action of a script adds. */
  lemma OneMoreAction(cfg: Config, me: RankId, byEntity: bool, r: Rank, f: Frame, ts: TimeStamp, script: seq<Action>, i: nat)
    requires i < |script| && EmitsAt(ts, script[..i])
    ensures RunFrame(byEntity, f, script[..i + 1]) == StepFrame(byEntity, RunFrame(byEntity, f, script[..i]), script[i])
    ensures script[i].Emit? && script[i].ts != ts ==> !EmitsAt(ts, script)
    ensures (script[i].Emit? ==> script[i].ts == ts) ==> EmitsAt(ts, script[..i + 1])
    ensures !script[i].Send? ==> SendsOf(script[..i + 1]) == SendsOf(script[..i])
    ensures script[i].Send? ==>
      SendAll(cfg, me, r, SendsOf(script[..i + 1])) == SendEvent(cfg, me, SendAll(cfg, me, r, SendsOf(script[..i])), script[i].ev)
    ensures SendAll(cfg, me, r, SendsOf(script[..i + 1])).aborted ==> SendAll(cfg, me, r, SendsOf(script)).aborted
  {
    hide SendEvent, SendAll, SendsOf, RunFrame, StepFrame, EmitsAt;
    assert script[..i + 1] == script[..i] + [script[i]];
    FrameSnoc(byEntity, f, script[..i], script[i]);
    EmitsPrefix(ts, script, i);
    EmitsPrefix(ts, script, i + 1);
    SendsConcat(script[..i], [script[i]]);
    OneSend(script[i]);
    var before := SendsOf(script[..i]);
    assert before + [] == before;
    if script[i].Send? { SendAllSnoc(cfg, me, r, before, script[i].ev); }
    assert script == script[..i + 1] + script[i + 1..];
    SendsConcat(script[..i + 1], script[i + 1..]);
    SendAllSplit(cfg, me, r, SendsOf(script[..i + 1]), SendsOf(script[i + 1..]));
    AbortSticks(cfg, me, SendAll(cfg, me, r, SendsOf(script[..i + 1])), SendsOf(script[i + 1..]));
  }

  /* ---- What the invariants give the methods ---- */

  lemma SameLpsOk(cfg: Config, m: Model, r: Rank, u: Rank)
    requires LpsOk(cfg, m, r) && u.lps == r.lps && u.past == r.past
    ensures LpsOk(cfg, m, u)
  {
    hide LpOk;
  }

  lemma LogIsComplete(l: LPId, log: seq<SentRecord>)
    requires forall i :: 0 <= i < |log| ==> CompleteAnti(l, AntiFor(l, log[i]))
    ensures CompleteLog(l, log)
  {
  }

  lemma {:induction false} FrameKind(byEntity: bool, f: Frame, script: seq<Action>)
    requires if byEntity then !f.hasLpSnapshot else f.preEntityState == map[]
    ensures
      var g := RunFrame(byEntity, f, script);
      if byEntity then !g.hasLpSnapshot else g.preEntityState == map[]
    decreases |script|
  {
    if |script| > 0 { FrameKind(byEntity, StepFrame(byEntity, f, script[0]), script[1..]); }
  }

  /** The records of a sound log hold snapshots of the LP's one kind. */
  lemma LogKinds(cfg: Config, m: Model, l: LPId, ctx: LpContext, past: LpPast)
    requires LpOk(cfg, m, l, ctx, past)
    ensures KindsOk(m.entitySnapshots(l), ctx.processed)
  {
    hide InTime, SendsLogged, RunFrame;
    var recs := AllRecords(ctx, past);
    var n := |past.committed|;
    var byEntity := m.entitySnapshots(l);
    forall i | 0 <= i < |ctx.processed|
      ensures if byEntity then !ctx.processed[i].hasLpSnapshot else ctx.processed[i].preEntityState == map[]
    {
      assert recs[n + i] == ctx.processed[i];
      var pre := StateAfter(m, l, EventsOf(recs[..n + i]));
      assert RecordOk(m, l, pre, recs[n + i]);
      FrameKind(byEntity, OpenFrame(pre), m.handle(l, pre, recs[n + i].ev));
    }
  }

  lemma RollbackNeverAborts(cfg: Config, m: Model, me: RankId, r: Rank, l: LPId, to: TimeStamp)
    requires LpsOk(cfg, m, r) && l in r.lps && !r.aborted
    ensures !Rollback(cfg, me, r, l, to).aborted
  {
    hide LpOk, Rollback, UndoCancels;
    RollbackShape(cfg, m, me, r, l, to);
  }

  lemma AntiNeverAborts(cfg: Config, m: Model, me: RankId, r: Rank, anti: Event)
    requires LpsOk(cfg, m, r) && anti.dst in r.lps && !r.aborted
    ensures !DispatchAnti(cfg, me, r, anti).aborted
  {
    hide LpOk, Rollback, FindProcessed, AntiRecord;
    var x := Bury(r, anti);
    if FindProcessed(r.lps[anti.dst].processed, KeyOf(anti)).Some? {
      RollbackNeverAborts(cfg, m, me, x, anti.dst, FindProcessed(r.lps[anti.dst].processed, KeyOf(anti)).value);
    }
  }

  /* ---- Flushing ---- */

  ghost predicate DistinctItems(items: seq<FlushItem>) {
    forall i, j :: 0 <= i < j < |items| ==> !SameKey(items[i], items[j])
  }

  lemma EmptyAscends()
    ensures Ascending([])
  {
  }

  lemma NotYet(items: seq<FlushItem>, k: nat, y: FlushItem)
    requires DistinctItems(items) && k < |items| && y in items[..k]
    ensures !SameKey(y, items[k])
  {
    var i :| 0 <= i < k && items[..k][i] == y;
    assert items[i] == y;
  }

  lemma InsertAscends(sorted: seq<FlushItem>, i: nat, x: FlushItem)
    requires Ascending(sorted) && i <= |sorted|
    requires forall j :: 0 <= j < i ==> ItemBefore(sorted[j], x)
    requires i < |sorted| ==> !ItemBefore(sorted[i], x)
    requires forall j :: 0 <= j < |sorted| ==> !SameKey(sorted[j], x)
    ensures Ascending(sorted[..i] + [x] + sorted[i..])
    ensures forall y :: y in sorted[..i] + [x] + sorted[i..] <==> y in sorted || y == x
  {
    var more := sorted[..i] + [x] + sorted[i..];
    forall j | i <= j < |sorted| ensures ItemBefore(x, sorted[j]) {
      assert ItemBefore(x, sorted[i]);
      assert j > i ==> ItemBefore(sorted[i], sorted[j]);
    }
    forall y | y in sorted ensures y in more {
      var j :| 0 <= j < |sorted| && sorted[j] == y;
      assert more[if j < i then j else j + 1] == y;
    }
    assert more[i] == x;
  }

  function RecordItems(l: LPId, rec: Record): (items: seq<FlushItem>)
    ensures |items| == |rec.committed|
    ensures forall j :: 0 <= j < |items| ==> items[j] == OutputItem(l, rec, j)
  {
    seq(|rec.committed|, j requires 0 <= j < |rec.committed| => OutputItem(l, rec, j))
  }

  /** The outputs of records, in order. */
  function ItemsOf(l: LPId, recs: seq<Record>): seq<FlushItem>
    decreases |recs|
  {
    if |recs| == 0 then [] else ItemsOf(l, recs[..|recs| - 1]) + RecordItems(l, recs[|recs| - 1])
  }

  lemma NoItems(l: LPId, flush: seq<FlushItem>)
    ensures forall recs: seq<Record> :: flush == flush + ItemsOf(l, recs[..0])
  {
    assert flush + [] == flush;
  }

  lemma OneMoreRecord(l: LPId, recs: seq<Record>, k: nat, flush: seq<FlushItem>)
    requires k < |recs|
    ensures flush + ItemsOf(l, recs[..k + 1]) == flush + ItemsOf(l, recs[..k]) + RecordItems(l, recs[k])
  {
    assert recs[..k + 1][..k] == recs[..k];
  }

  lemma {:induction false} ItemsAre(l: LPId, recs: seq<Record>, x: FlushItem)
    ensures x in ItemsOf(l, recs) <==> ItemOf(l, recs, x)
    decreases |recs|
  {
    if |recs| > 0 {
      var n := |recs| - 1;
      ItemsAre(l, recs[..n], x);
      ItemsConcat(l, recs[..n], [recs[n]], x);
      assert recs == recs[..n] + [recs[n]];
      LastItems(l, recs[n], x);
    }
  }

  lemma LastItems(l: LPId, rec: Record, x: FlushItem)
    ensures x in RecordItems(l, rec) <==> ItemOf(l, [rec], x)
  {
    var items := RecordItems(l, rec);
    if x in items {
      var j :| 0 <= j < |items| && items[j] == x;
      assert x == OutputItem(l, [rec][0], j);
    }
    if ItemOf(l, [rec], x) {
      var i, j :| 0 <= i < 1 && 0 <= j < |[rec][i].committed| && x == OutputItem(l, [rec][i], j);
      assert items[j] == x;
    }
  }

  lemma {:induction false} ItemsAreDistinct(l: LPId, recs: seq<Record>)
    requires UniqueEvents(recs) && AntisSilent(recs)
    ensures DistinctItems(ItemsOf(l, recs))
    decreases |recs|
  {
    if |recs| > 0 {
      var n := |recs| - 1;
      var front := ItemsOf(l, recs[..n]);
      var last := RecordItems(l, recs[n]);
      ItemsAreDistinct(l, recs[..n]);
      forall x, y | x in front && y in last ensures !SameKey(x, y) {
        ItemsAre(l, recs[..n], x);
        LastItemsKey(l, recs, n, x, y);
      }
      DistinctConcat(front, last);
    }
  }

  lemma LastItemsKey(l: LPId, recs: seq<Record>, n: nat, x: FlushItem, y: FlushItem)
    requires n < |recs| && UniqueEvents(recs) && AntisSilent(recs)
    requires ItemOf(l, recs[..n], x) && y in RecordItems(l, recs[n])
    ensures !SameKey(x, y)
  {
    var i, j :| 0 <= i < n && 0 <= j < |recs[..n][i].committed| && x == OutputItem(l, recs[..n][i], j);
    assert recs[..n][i] == recs[i];
    var q :| 0 <= q < |recs[n].committed| && y == OutputItem(l, recs[n], q);
  }

  lemma DistinctConcat(a: seq<FlushItem>, b: seq<FlushItem>)
    requires DistinctItems(a) && DistinctItems(b)
    requires forall x, y :: x in a && y in b ==> !SameKey(x, y)
    ensures DistinctItems(a + b)
  {
    forall i, j | 0 <= i < |a| && 0 <= j < |b| ensures !SameKey(a[i], b[j]) { assert a[i] in a && b[j] in b; }
  }

  /* ---- Pruning LP by LP ---- */

  ghost function PrunedLps(r: Rank, gvt: TimeStamp, todo: set<LPId>): map<LPId, LpContext> {
    map l | l in r.lps :: if l in todo then r.lps[l] else PruneCtx(r.lps[l], gvt)
  }

  ghost function PrunedPasts(r: Rank, gvt: TimeStamp, todo: set<LPId>): map<LPId, LpPast> {
    map l | l in r.past :: if l in todo || l !in r.lps then r.past[l] else PrunePast(r.lps[l], r.past[l], gvt)
  }

  lemma OneMorePruned(r: Rank, gvt: TimeStamp, todo: set<LPId>, l: LPId)
    requires l in todo && Hosts(r, l)
    ensures l in PrunedLps(r, gvt, todo) && PrunedLps(r, gvt, todo)[l] == r.lps[l]
    ensures l in PrunedPasts(r, gvt, todo) && PrunedPasts(r, gvt, todo)[l] == r.past[l]
    ensures PrunedLps(r, gvt, todo - {l}) == PrunedLps(r, gvt, todo)[l := PruneCtx(r.lps[l], gvt)]
    ensures PrunedPasts(r, gvt, todo - {l}) == PrunedPasts(r, gvt, todo)[l := PrunePast(r.lps[l], r.past[l], gvt)]
  {
    hide PruneCtx, PrunePast;
  }

  lemma AllPruned(r: Rank, gvt: TimeStamp)
    ensures r.(lps := PrunedLps(r, gvt, {}), past := PrunedPasts(r, gvt, {}),
               cancelled := map k | k in r.cancelled && !r.cancelled[k].Lt(gvt) :: r.cancelled[k],
               output := r.output + InOrder(Released(r, gvt))) == Prune(r, gvt)
  {
    hide PruneCtx, PrunePast, Released;
    assert PrunedLps(r, gvt, {}) == Prune(r, gvt).lps;
    assert PrunedPasts(r, gvt, {}) == Prune(r, gvt).past;
  }

  /** A flush list holds the outputs released by the LPs not still to do, each once. */
  ghost predicate FlushedFrom(r: Rank, gvt: TimeStamp, todo: set<LPId>, flush: seq<FlushItem>) {
    && DistinctItems(flush)
    && forall x :: x in flush <==> x in Released(r, gvt) && x.lp !in todo
  }

  lemma UniqueKeys(r: Rank, gvt: TimeStamp)
    requires UniqueHistories(r)
    ensures r.past.Keys == r.lps.Keys
    ensures PrunedLps(r, gvt, r.lps.Keys) == r.lps && PrunedPasts(r, gvt, r.lps.Keys) == r.past
  {
    hide PruneCtx, PrunePast;
  }

  lemma NothingFlushed(r: Rank, gvt: TimeStamp)
    ensures FlushedFrom(r, gvt, r.lps.Keys, [])
  {
    forall x ensures !(x in Released(r, gvt) && x.lp !in r.lps.Keys) { ReleasedHas(r, gvt, x); }
  }

  lemma FrontOfLog(ctx: LpContext, past: LpPast, k: nat)
    requires UniqueEvents(AllRecords(ctx, past)) && AntisSilent(AllRecords(ctx, past)) && k <= |ctx.processed|
    ensures UniqueEvents(ctx.processed[..k]) && AntisSilent(ctx.processed[..k])
  {
    var all := AllRecords(ctx, past);
    var n := |past.committed|;
    var front := ctx.processed[..k];
    forall i | 0 <= i < k ensures front[i] == all[n + i] {}
  }

  lemma OneMoreFlushed(r: Rank, gvt: TimeStamp, todo: set<LPId>, l: LPId, flush: seq<FlushItem>)
    requires UniqueHistories(r) && l in todo && l in r.lps && FlushedFrom(r, gvt, todo, flush)
    ensures FlushedFrom(r, gvt, todo - {l}, flush + ItemsOf(l, r.lps[l].processed[..Fossils(r.lps[l].processed, gvt)]))
  {
    hide Released, Fossils, ItemOf, ItemsOf, UniqueEvents, AntisSilent, DistinctItems;
    var front := r.lps[l].processed[..Fossils(r.lps[l].processed, gvt)];
    var items := ItemsOf(l, front);
    FrontOfLog(r.lps[l], r.past[l], |front|);
    ItemsAreDistinct(l, front);
    forall x ensures x in items <==> x in Released(r, gvt) && x.lp == l {
      ItemsAre(l, front, x);
      ItemLp(l, front, x);
      ReleasedHas(r, gvt, x);
    }
    DistinctConcat(flush, items);
    forall x ensures x in flush + items <==> x in Released(r, gvt) && x.lp !in todo - {l} {}
  }

  lemma ItemLp(l: LPId, recs: seq<Record>, x: FlushItem)
    ensures ItemOf(l, recs, x) ==> x.lp == l
  {
  }

  lemma AllFlushed(r: Rank, gvt: TimeStamp, flush: seq<FlushItem>)
    requires FlushedFrom(r, gvt, {}, flush)
    ensures DistinctItems(flush) && forall x :: x in flush <==> x in Released(r, gvt)
  {
  }

  lemma SortedIsInOrder(r: Rank, gvt: TimeStamp, flush: seq<FlushItem>, sorted: seq<FlushItem>)
    requires UniqueHistories(r)
    requires Ascending(sorted) && (forall x :: x in sorted <==> x in flush) && forall x :: x in flush <==> x in Released(r, gvt)
    ensures sorted == InOrder(Released(r, gvt))
  {
    hide Released, CommittedItems, UniqueHistories, Ascending, DistinctKeys;
    ItemsDistinct(r, gvt);
    SubsetDistinct(CommittedItems(r) + Released(r, gvt), Released(r, gvt));
    InOrderAscends(Released(r, gvt));
    AscendingIsUnique(sorted, InOrder(Released(r, gvt)));
  }

  /* ---- What pruning and dropping leave alone ---- */

  lemma PruneFields(r: Rank, gvt: TimeStamp)
    ensures Prune(r, gvt) == r.(lps := Prune(r, gvt).lps, past := Prune(r, gvt).past,
                                cancelled := Prune(r, gvt).cancelled, output := Prune(r, gvt).output)
  {
    hide Released, PruneCtx, PrunePast;
  }

  lemma PruneStaysUnique(r: Rank, gvt: TimeStamp)
    requires UniqueHistories(r)
    ensures UniqueHistories(Prune(r, gvt))
  {
    hide UniqueEvents, AntisSilent, AllRecords, Released, PruneCtx, PrunePast;
    var u := Prune(r, gvt);
    forall l | l in u.lps
      ensures UniqueEvents(AllRecords(u.lps[l], u.past[l])) && AntisSilent(AllRecords(u.lps[l], u.past[l]))
    {
      PruneLp(r.lps[l], r.past[l], gvt);
    }
  }

  lemma {:induction false} DropsFields(r: Rank, drops: seq<Event>)
    ensures DropAll(r, drops) == r.(pending := DropAll(r, drops).pending, dropped := DropAll(r, drops).dropped)
    decreases |drops|
  {
    if |drops| > 0 { DropsFields(r, drops[..|drops| - 1]); }
  }

  lemma DropsKeepPhase(r: Rank)
    ensures forall drops :: DropAll(r, drops).phase == r.phase
  {
    hide DropAll;
    forall drops ensures DropAll(r, drops).phase == r.phase { DropsFields(r, drops); }
  }

  lemma DropsStayUnique(r: Rank, drops: seq<Event>)
    requires UniqueHistories(r)
    ensures UniqueHistories(DropAll(r, drops))
  {
    hide UniqueEvents, AntisSilent, AllRecords, DropAll;
    DropsFields(r, drops);
  }

  lemma GvtStaysUnique(r: Rank, gvt: TimeStamp)
    requires UniqueHistories(r)
    ensures UniqueHistories(r.(lastGvt := gvt))
  {
    hide UniqueEvents, AntisSilent, AllRecords;
  }

  lemma NoValues(m: map<InflightKey, TimeStamp>)
    ensures |m| == 0 ==> ValuesOf(m) == multiset{}
  {
    if |m| == 0 { assert m == map[]; }
  }

  lemma SomeKey(m: map<InflightKey, TimeStamp>)
    requires |m| > 0
    ensures exists k :: k in m
  {
    assert |m.Keys| == |m|;
    var k :| k in m.Keys;
    assert k in m;
  }
}
