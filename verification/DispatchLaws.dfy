/** Dispatch, said of fields alone: in every reachable state, what taking up a message does to the rank
    when it is a straggler, an event in time, or an anti-message in time. */
module DispatchLaws {
  import opened Stamps
  import opened Events
  import opened Models
  import opened Kernel
  import opened Replay
  import opened LpInvariant
  import opened LpSteps
  import opened RankSteps
  import opened Ledgers
  import opened Books
  import opened Handling
  import opened Tombs
  import opened AntiDispatch
  import opened Worlds
  import opened Network
  import opened Safety
  import Checker
  import opened AntiReturns
  import opened HandlerLaws
  import opened SendLaws
  import opened SimulationFacts
  import opened Collections

  /** A message in hand, in a reachable state, for an LP of the rank. */
  ghost predicate InHand(cfg: Config, m: Model, w: World, me: RankId, ev: Event) {
    GoodModel(m) && Reachable(cfg, m, w) && me < |w| && MayTake(w, me, ev) && ev.dst in w[me].lps
  }

  /** A log cut at a stamp: its records before that stamp are kept, and no others. */
  ghost predicate CutAt(log: seq<Record>, to: TimeStamp, kept: seq<Record>) {
    && |kept| <= |log| && kept == log[..|kept|]
    && forall i :: 0 <= i < |log| ==> (i < |kept| <==> log[i].ev.ts.Lt(to))
  }

  /** Only a message strictly before the LP's virtual time is a straggler.  One rollback is counted;
      the LP is left at the stamp just before it, with its records before it; what was undone waits
      again, and so does the message. */
  lemma StragglerMeans(cfg: Config, m: Model, w: World, me: RankId, ev: Event)
    requires InHand(cfg, m, w, me, ev) && ev.ts.Lt(w[me].lps[ev.dst].vt)
    ensures
      var log := w[me].lps[ev.dst].processed;
      var u := TakenUp(cfg, m, w, me, ev)[me];
      && !u.aborted && u.rollbacks == w[me].rollbacks + 1
      && ev.dst in u.lps && u.lps == w[me].lps[ev.dst := u.lps[ev.dst]]
      && Ord(u.lps[ev.dst].vt) + 1 == Ord(ev.ts)
      && CutAt(log, ev.ts, u.lps[ev.dst].processed)
      && (forall i :: |u.lps[ev.dst].processed| <= i < |log| ==> log[i].ev in u.pending)
      && ev in u.pending
  {
    hide Reachable, GoodModel, MayTake, LpOk, NetOk, AllOk, LogListsLive, PastBelow, UndoCancels, Rollback, Cut, AccountIn;
    Checker.TakenParts(cfg, m, w, me, ev);
    var r := TakePending(w[me], ev);
    var ctx := r.lps[ev.dst];
    RollbackShape(cfg, m, me, r, ev.dst, ev.ts);
    RewindVtIs(ctx, ev.ts);
    assert LpOk(cfg, m, ev.dst, ctx, r.past[ev.dst]);
    CutIsExact(cfg, m, ev.dst, ctx, r.past[ev.dst], ev.ts);
    PrevStampIsPredecessor(ev.ts);
    forall i | Cut(ctx.processed, ev.ts) <= i < |ctx.processed|
      ensures ctx.processed[i].ev in Rollback(cfg, me, r, ev.dst, ev.ts).pending
    {
      UndoneWaits(cfg, me, r, ev.dst, ev.ts, i);
    }
  }

  /** What an LP is after executing an event: at its stamp, in the state its handler wrote, with one
      more record, and with one more log entry for each message its handler sent. */
  ghost predicate Executed(script: seq<Action>, ev: Event, a: LpContext, b: LpContext, log: seq<SentRecord>) {
    && b.vt == ev.ts && !b.inEvent && Written(a.state, script, b.state)
    && |b.processed| == |a.processed| + 1 && b.processed[..|a.processed|] == a.processed
    && b.processed[|a.processed|].ev == ev
    && b.processed[|a.processed|].preSeqNormal == a.nextSeqNormal && b.processed[|a.processed|].preSeqControl == a.nextSeqControl
    && (exists at :: AreTheEmits(script, 0, at, b.processed[|a.processed|].committed))
    && b.sentLog == a.sentLog + log
  }

  /** The log entries for a script's messages, in order: sent at the event's stamp, to the message's time
      and routed destination, under identities handed out in order. */
  ghost predicate LoggedFor(cfg: Config, script: seq<Action>, now: TimeStamp, log: seq<SentRecord>, msgs: seq<Event>) {
    && |log| == |msgs| && (exists at :: AreTheSends(script, 0, at, msgs))
    && forall i :: 0 <= i < |log| ==>
         && log[i].sendTime == now && log[i].msgTime.time == msgs[i].ts.time && Directed(cfg, msgs[i], log[i].dst)
         && (msgs[i].ts.sequence != 0 ==> log[i].msgTime == msgs[i].ts)
  }

  /** Any other event is executed, and nothing is rolled back; an output at another stamp throws. */
  lemma EventMeans(cfg: Config, m: Model, w: World, me: RankId, ev: Event) returns (log: seq<SentRecord>, msgs: seq<Event>)
    requires InHand(cfg, m, w, me, ev) && !ev.isAnti && !ev.ts.Lt(w[me].lps[ev.dst].vt)
    requires !TakenUp(cfg, m, w, me, ev)[me].aborted
    ensures
      var ctx := w[me].lps[ev.dst];
      var script := m.handle(ev.dst, ctx.state, ev);
      var u := TakenUp(cfg, m, w, me, ev)[me];
      && ev.dst in u.lps && u.lps == w[me].lps[ev.dst := u.lps[ev.dst]]
      && Executed(script, ev, ctx, u.lps[ev.dst], log)
      && LoggedFor(cfg, script, ev.ts, log, msgs)
      && (forall i :: 0 <= i < |script| && script[i].Emit? ==> script[i].ts == ev.ts)
      && u.rollbacks == w[me].rollbacks && u.cancelled == w[me].cancelled
      && u.lastGvt == w[me].lastGvt && u.output == w[me].output
  {
    hide Reachable, MayTake, NetOk, AllOk, LogListsLive, PastBelow, Execute, RunFrame, AreTheEmits, AreTheSends, Written,
         InTime, Replays, SendsLogged, DisciplinedModel, AccountIn;
    Checker.TakenParts(cfg, m, w, me, ev);
    var r := TakePending(w[me], ev);
    var l := ev.dst;
    var script := m.handle(l, r.lps[l].state, ev);
    var byEntity := m.entitySnapshots(l);
    assert LpOk(cfg, m, l, r.lps[l], r.past[l]);
    var ctx, more;
    ctx, log, more := ExecuteShape(cfg, m, me, r, ev);
    msgs := SendsOf(script);
    RunWrites(byEntity, OpenFrame(r.lps[l].state), script);
    assert script[0..] == script;
    var at, outputs := EmitsInOrder(byEntity, OpenFrame(r.lps[l].state), script, 0);
    var places := SendsInOrder(script, 0);
    LogMeansSends(cfg, r.past[l].sent + more, log, ev.ts, msgs);
    assert [] + outputs == outputs;
  }

  /** The rank as a handler finds it: the LP at the event's stamp. */
  function Opened(r: Rank, ev: Event): Rank
    requires ev.dst in r.lps
  {
    r.(lps := r.lps[ev.dst := r.lps[ev.dst].(vt := ev.ts, inEvent := true, currentExecTs := ev.ts)])
  }

  /** Message k is the one that throws. */
  predicate ThrowsAt(cfg: Config, me: RankId, r: Rank, msgs: seq<Event>, k: nat)
    requires k < |msgs|
  {
    var now := SendAll(cfg, me, r, msgs[..k]);
    !now.aborted && SendEvent(cfg, me, now, msgs[k]).aborted
  }

  ghost predicate SomeThrows(cfg: Config, me: RankId, r: Rank, msgs: seq<Event>) {
    exists k :: 0 <= k < |msgs| && ThrowsAt(cfg, me, r, msgs, k)
  }

  lemma OneMoreThrows(cfg: Config, me: RankId, r: Rank, msgs: seq<Event>)
    requires |msgs| > 0
    ensures
      var n := |msgs| - 1;
      SomeThrows(cfg, me, r, msgs) <==> SomeThrows(cfg, me, r, msgs[..n]) || ThrowsAt(cfg, me, r, msgs, n)
  {
    var front := msgs[..|msgs| - 1];
    forall k | 0 <= k < |front| ensures ThrowsAt(cfg, me, r, msgs, k) <==> ThrowsAt(cfg, me, r, front, k) {
      hide SendAll, SendEvent;
      assert front[..k] == msgs[..k];
    }
    hide ThrowsAt;
    if k :| 0 <= k < |front| && ThrowsAt(cfg, me, r, front, k) {
      assert ThrowsAt(cfg, me, r, msgs, k);
    }
  }

  lemma LastThrows(cfg: Config, me: RankId, r: Rank, msgs: seq<Event>)
    requires |msgs| > 0 && !SendAll(cfg, me, r, msgs[..|msgs| - 1]).aborted
    ensures ThrowsAt(cfg, me, r, msgs, |msgs| - 1) <==> SendAll(cfg, me, r, msgs).aborted
  {
    hide SendEvent, SendAll;
    var n := |msgs| - 1;
    SendAllSnoc(cfg, me, r, msgs[..n], msgs[n]);
    assert msgs == msgs[..n] + [msgs[n]];
  }

  lemma {:induction false} SendAllThrowsJustIf(cfg: Config, me: RankId, r: Rank, msgs: seq<Event>)
    requires !r.aborted
    ensures SendAll(cfg, me, r, msgs).aborted <==> SomeThrows(cfg, me, r, msgs)
    decreases |msgs|
  {
    hide SendEvent, ThrowsAt;
    if |msgs| > 0 {
      var n := |msgs| - 1;
      SendAllThrowsJustIf(cfg, me, r, msgs[..n]);
      hide SendAll, SomeThrows;
      OneMoreThrows(cfg, me, r, msgs);
      AbortedStays(cfg, me, r, msgs, n);
      if !SendAll(cfg, me, r, msgs[..n]).aborted { LastThrows(cfg, me, r, msgs); }
    }
  }

  lemma AbortedStays(cfg: Config, me: RankId, r: Rank, msgs: seq<Event>, n: nat)
    requires n + 1 == |msgs|
    ensures SendAll(cfg, me, r, msgs[..n]).aborted ==> SendAll(cfg, me, r, msgs).aborted
  {
    hide SendAll, Stamp, Post, LogSend;
    SendAllSnoc(cfg, me, r, msgs[..n], msgs[n]);
    assert msgs == msgs[..n] + [msgs[n]];
  }

  /** Exactly when executing an event throws: the handler emits at another stamp than the event's, or
      one of its sends throws where it stands. */
  lemma EventThrowsJustIf(cfg: Config, m: Model, me: RankId, r: Rank, ev: Event)
    requires !r.aborted && ev.dst in r.lps && !ev.isAnti && !ev.ts.Lt(r.lps[ev.dst].vt)
    ensures
      var script := m.handle(ev.dst, r.lps[ev.dst].state, ev);
      Dispatch(cfg, m, me, r, ev).aborted <==>
        || (exists i :: 0 <= i < |script| && script[i].Emit? && script[i].ts != ev.ts)
        || SomeThrows(cfg, me, Opened(r, ev), SendsOf(script))
  {
    hide SendAll, SendEvent, RunFrame, SomeThrows;
    var script := m.handle(ev.dst, r.lps[ev.dst].state, ev);
    var msgs := SendsOf(script);
    var open := WithLp(r, ev.dst, OpenLp(r.lps[ev.dst], ev));
    assert open == Opened(r, ev);
    SendAllThrowsJustIf(cfg, me, open, msgs);
    SendAllKeepsLps(cfg, me, open, msgs);
    assert ev.dst in open.lps;
    assert !EmitsAt(ev.ts, script) <==> exists i :: 0 <= i < |script| && script[i].Emit? && script[i].ts != ev.ts;
  }

  lemma LogMeansSends(cfg: Config, sent: seq<Event>, log: seq<SentRecord>, now: TimeStamp, msgs: seq<Event>)
    requires LogOk(cfg, sent, log, RequestsAt(now, msgs))
    ensures |log| == |msgs|
    ensures forall i :: 0 <= i < |log| ==>
      && log[i].sendTime == now && log[i].msgTime.time == msgs[i].ts.time && Directed(cfg, msgs[i], log[i].dst)
      && (msgs[i].ts.sequence != 0 ==> log[i].msgTime == msgs[i].ts)
  {
    hide StampedFrom, Directed;
    forall i | 0 <= i < |log|
      ensures log[i].sendTime == now && log[i].msgTime.time == msgs[i].ts.time && Directed(cfg, msgs[i], log[i].dst)
      ensures msgs[i].ts.sequence != 0 ==> log[i].msgTime == msgs[i].ts
    {
      assert Answers(cfg, sent, log[i], RequestsAt(now, msgs)[i]);
      StampedFromMeans(cfg, msgs[i], sent[log[i].uid - 1]);
    }
  }

  /** The log holds the event an anti-message cancels. */
  ghost predicate HoldsTwin(log: seq<Record>, anti: Event) {
    exists i :: 0 <= i < |log| && !log[i].ev.isAnti && log[i].ev.src == anti.src && log[i].ev.uid == anti.uid
  }

  /** An anti-message in time leaves a tombstone with its stamp and is logged.  If its event had been
      taken up, one rollback is counted and everything at or after it leaves the log; else the log stays. */
  lemma AntiMeans(cfg: Config, m: Model, w: World, me: RankId, anti: Event)
    requires InHand(cfg, m, w, me, anti) && anti.isAnti && !anti.ts.Lt(w[me].lps[anti.dst].vt)
    ensures
      var log := w[me].lps[anti.dst].processed;
      var u := TakenUp(cfg, m, w, me, anti)[me];
      && anti.dst in u.lps && u.lps == w[me].lps[anti.dst := u.lps[anti.dst]] && u.lps[anti.dst].vt == anti.ts
      && KeyOf(anti) in u.cancelled && u.cancelled[KeyOf(anti)] == anti.ts
      && u.rollbacks == (if HoldsTwin(log, anti) then w[me].rollbacks + 1 else w[me].rollbacks)
      && var k := |u.lps[anti.dst].processed| - 1;
         && k >= 0 && u.lps[anti.dst].processed[k].ev == anti
         && (if HoldsTwin(log, anti) then CutAt(log, anti.ts, u.lps[anti.dst].processed[..k])
             else u.lps[anti.dst].processed[..k] == log)
  {
    hide Reachable, GoodModel, MayTake, LpOk, NetOk, AllOk, LogListsLive, PastBelow, UndoCancels, Rollback, Cut, AccountIn,
         LedgerOk, LedgerOf, Placed, RanksOk, FindProcessed;
    Checker.TakenParts(cfg, m, w, me, anti);
    var r := TakePending(w[me], anti);
    var taken := w[me := r];
    var l := anti.dst;
    var log := r.lps[l].processed;
    NoTombFor(cfg, m, taken, me, anti);
    FindProcessedStamp(log, KeyOf(anti));
    if FindProcessed(log, KeyOf(anti)).Some? {
      AllParts(cfg, m, taken, anti);
      FoundAt(cfg, taken, me, anti);
      BuriedOk(cfg, m, taken, me, anti);
      CancelledMeans(cfg, m, me, r, anti);
    }
  }

  /** Cancelling an event that had been taken up. */
  lemma CancelledMeans(cfg: Config, m: Model, me: RankId, r: Rank, anti: Event)
    requires LpsOk(cfg, m, r) && LpsOk(cfg, m, Buried(r, anti)) && !r.aborted && Hosts(r, anti.dst)
    requires PastBelow(r.past[anti.dst], anti.ts) && KeyOf(anti) !in r.cancelled
    requires forall l, i :: !AntiAt(r, l, i, KeyOf(anti))
    ensures
      var log := r.lps[anti.dst].processed;
      var u := Rollback(cfg, me, Buried(r, anti), anti.dst, anti.ts);
      && u.lps == r.lps[anti.dst := u.lps[anti.dst]] && CutAt(log, anti.ts, u.lps[anti.dst].processed)
      && KeyOf(anti) in u.cancelled && u.cancelled[KeyOf(anti)] == anti.ts && u.rollbacks == r.rollbacks + 1
  {
    hide LpOk, PastBelow, UndoCancels, Rollback, Cut;
    var l := anti.dst;
    var x := Buried(r, anti);
    var log := r.lps[l].processed;
    var k := Cut(log, anti.ts);
    RollbackShape(cfg, m, me, x, l, anti.ts);
    RewindVtIs(r.lps[l], anti.ts);
    assert LpOk(cfg, m, l, r.lps[l], r.past[l]);
    CutIsExact(cfg, m, l, r.lps[l], r.past[l], anti.ts);
    forall i | 0 <= i < |log[k..]| && log[k..][i].ev.isAnti ensures KeyOf(log[k..][i].ev) != KeyOf(anti) {
      assert AntiAt(r, l, k + i, KeyOf(log[k..][i].ev));
    }
    UndoCancelsCommutes(r.cancelled, KeyOf(anti), anti.ts, log[k..]);
  }

  lemma AllParts(cfg: Config, m: Model, ranks: seq<Rank>, anti: Event)
    requires AllOk(cfg, m, ranks, multiset{anti})
    ensures Placed(cfg, ranks) && LedgerOk(LedgerOf(cfg, ranks, multiset{anti})) && RanksOk(cfg, m, ranks)
  {
    hide Placed, LedgerOk, LedgerOf, RanksOk;
  }
}
