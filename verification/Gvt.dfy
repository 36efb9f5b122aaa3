/** The GVT protocols over all ranks, and the invariant of the whole system. */
module Gvt {
  import opened Stamps
  import opened Events
  import opened Models
  import opened Kernel
  import opened Replay
  import opened LpInvariant
  import opened RankSteps
  import opened Ledgers
  import opened Books
  import opened Tombs
  import opened Floor
  import opened Handling
  import opened Worlds
  import opened Moves
  import opened Network
  import opened Pruning
  import opened Collections

  /** An acknowledged message was sent by the rank it goes back to, and is no longer on the wire. */
  ghost predicate AckOk(w: World, a: Ack) {
    && a.to < |w|
    && SentKey(w[a.to], a.key)
    && forall e :: e in w[a.to].wire ==> FlightKeyOf(e) != a.key
  }

  ghost predicate AcksOk(w: World) {
    forall q, a :: 0 <= q < |w| && a in w[q].acks ==> AckOk(w, a)
  }

  /** All ranks are in the same phase of the same round. */
  ghost predicate PhasesAgree(w: World) {
    forall r, q :: 0 <= r < |w| && 0 <= q < |w| ==>
      w[r].phase.white == w[q].phase.white && w[r].phase.red == w[q].phase.red
  }

  ghost function SlackOf(c: Color): Rank -> int {
    r => Slack(r, c)
  }

  /** Of each colour, as many messages are on the wire as were sent and not received. */
  ghost predicate CountsOk(w: World) {
    forall c: Color :: GlobalSum(SlackOf(c), w) == 0
  }

  ghost predicate EachNetOk(cfg: Config, w: World) {
    forall r :: 0 <= r < |w| ==> NetOk(cfg, w[r])
  }

  ghost predicate NetsOk(cfg: Config, w: World) {
    && EachNetOk(cfg, w)
    && GvtAgree(w)
    && (cfg.mode.AckInflight? ==> AcksOk(w))
    && (cfg.mode.ColoredCounters? ==> PhasesAgree(w) && CountsOk(w))
  }

  /** Everything that holds between two steps. */
  ghost predicate WorldOk(cfg: Config, m: Model, w: World) {
    AllOk(cfg, m, w, multiset{}) && NetsOk(cfg, w)
  }

  lemma {:induction false} SumWith(delta: Rank -> int, w: World, r: nat, u: Rank)
    requires r < |w|
    ensures GlobalSum(delta, w[r := u]) + delta(w[r]) == GlobalSum(delta, w) + delta(u)
    decreases |w|
  {
    var n := |w| - 1;
    if r == n {
      assert w[r := u][..n] == w[..n];
    } else {
      assert w[r := u][..n] == w[..n][r := u];
      SumWith(delta, w[..n], r, u);
    }
  }

  lemma {:induction false} SumSame(delta: Rank -> int, w: World, u: World)
    requires |u| == |w| && forall r :: 0 <= r < |w| ==> delta(u[r]) == delta(w[r])
    ensures GlobalSum(delta, u) == GlobalSum(delta, w)
    decreases |w|
  {
    if |w| > 0 { SumSame(delta, w[..|w| - 1], u[..|u| - 1]); }
  }

  /* ---- Steps of one rank ---- */

  lemma AcksGrow(cfg: Config, w: World, me: RankId, u: Rank)
    requires AcksOk(w) && me < |w| && Grows(cfg, w[me], u)
    ensures AcksOk(w[me := u])
  {
    hide SentKey;
    var v := w[me := u];
    forall q, a | 0 <= q < |v| && a in v[q].acks ensures AckOk(v, a) {
      assert a in w[q].acks;
      assert AckOk(w, a);
    }
  }

  lemma CountsGrow(cfg: Config, w: World, me: RankId, u: Rank)
    requires CountsOk(w) && me < |w| && cfg.mode.ColoredCounters? && Grows(cfg, w[me], u)
    ensures CountsOk(w[me := u])
  {
    hide SentKey, Slack;
    forall c: Color ensures GlobalSum(SlackOf(c), w[me := u]) == 0 {
      SumWith(SlackOf(c), w, me, u);
    }
  }

  /** A rank working on its own keeps the protocols' invariants. */
  lemma LocalNets(cfg: Config, w: World, me: RankId, u: Rank)
    requires NetsOk(cfg, w) && me < |w| && NetKept(cfg, w[me], u)
    ensures NetsOk(cfg, w[me := u])
  {
    hide SentKey, NetOk, Slack, AcksOk, CountsOk;
    if cfg.mode.AckInflight? { AcksGrow(cfg, w, me, u); } else { CountsGrow(cfg, w, me, u); }
  }

  lemma AccountsLive(cfg: Config, w: World, hand: multiset<Event>, me: RankId)
    requires Placed(cfg, w) && LedgerOk(LedgerOf(cfg, w, hand)) && me < |w|
    ensures forall l :: l in w[me].lps && l in w[me].past ==> LogListsLive(AccountIn(w[me].lps[l], w[me].past[l]))
  {
    hide BagOk, HistOk, OnePlace, NoneOpposed, LogListsLive, AccountIn;
    var L := LedgerOf(cfg, w, hand);
    assert PlacedAt(cfg, me, w[me]);
    forall l | l in w[me].lps && l in w[me].past
      ensures LogListsLive(AccountIn(w[me].lps[l], w[me].past[l]))
    {
      assert AccountOk(l, L.accts[l]);
    }
  }

  lemma TakeNets(cfg: Config, m: Model, w: World, me: RankId, ev: Event)
    requires GoodModel(m) && WorldOk(cfg, m, w) && MayTake(w, me, ev)
    requires !Dispatch(cfg, m, me, TakePending(w[me], ev), ev).aborted
    ensures NetsOk(cfg, w[me := Dispatch(cfg, m, me, TakePending(w[me], ev), ev)])
  {
    hide NetOk, Grows, TombsOk, FloorOk, StartedFirst, Dispatch, Placed, LedgerOk, LedgerOf, DisciplinedModel,
         CausalModel, LogListsLive, LpOk, AcksOk, CountsOk;
    var r := w[me];
    var taken := TakePending(r, ev);
    var u := Dispatch(cfg, m, me, taken, ev);
    assert RankOk(cfg, m, me, r);
    AccountsLive(cfg, w, multiset{}, me);
    SamePastNet(r, taken);
    SameNetKept(cfg, r, taken);
    DispatchNet(cfg, m, me, taken, ev);
    GrowsAgain(cfg, r, taken, u);
    LocalNets(cfg, w, me, u);
  }

  lemma DiscardNets(cfg: Config, w: World, me: RankId, ev: Event)
    requires NetsOk(cfg, w) && me < |w|
    ensures NetsOk(cfg, w[me := DropPending(w[me], ev)])
  {
    hide NetOk, Grows, AcksOk, CountsOk;
    var u := DropPending(w[me], ev);
    SamePastNet(w[me], u);
    SameNetKept(cfg, w[me], u);
    LocalNets(cfg, w, me, u);
  }

  lemma StartNets(cfg: Config, m: Model, w: World, me: RankId, l: LPId)
    requires CausalModel(m) && WorldOk(cfg, m, w) && MayStart(w, me, l)
    requires !StartLp(cfg, m, me, w[me], l).aborted
    ensures NetsOk(cfg, w[me := StartLp(cfg, m, me, w[me], l)])
  {
    hide NetOk, Grows, TombsOk, FloorOk, StartedFirst, StartLp, Placed, LedgerOk, LedgerOf, CausalModel,
         InTime, Replays, SendsLogged, AcksOk, CountsOk;
    assert RankOk(cfg, m, me, w[me]);
    StartNet(cfg, m, me, w[me], l);
    LocalNets(cfg, w, me, StartLp(cfg, m, me, w[me], l));
  }

  /* ---- Delivery ---- */

  lemma ClearKeeps(r: Rank, key: InflightKey)
    requires InflightOk(r) && forall e :: e in r.wire ==> FlightKeyOf(e) != key
    ensures InflightOk(ClearInflight(r, key))
  {
    hide SentKey, ValuesOf;
    var u := ClearInflight(r, key);
    assert forall k :: SentKey(r, k) ==> SentKey(u, k) by { SamePastKeys(r, u); }
    if key in r.inflight {
      ValuesWithout(r.inflight, key);
      var rest := ValuesOf(r.inflight - {key});
      assert rest + multiset{r.inflight[key]} - multiset{r.inflight[key]} == rest;
    }
  }

  lemma SamePastKeys(r: Rank, u: Rank)
    requires u.past == r.past
    ensures forall k :: SentKey(r, k) <==> SentKey(u, k)
  {
  }

  lemma QuietInflight(r: Rank, u: Rank)
    requires InflightOk(r) && u.past == r.past && u.inflight == r.inflight && u.inflightTs == r.inflightTs
    requires u.wire <= r.wire
    ensures InflightOk(u)
  {
    SamePastKeys(r, u);
    hide SentKey;
  }

  lemma KnownFlight(L: Ledger, a: Event, b: Event)
    requires Known(L, a) && Known(L, b) && FlightKeyOf(a) == FlightKeyOf(b)
    ensures a == b
  {
    KnownAntisAgree(L, a, b);
  }

  /** A message taken off the wire was the only one of its key there. */
  lemma LastOfItsKey(cfg: Config, m: Model, w: World, from: RankId, ev: Event)
    requires AllOk(cfg, m, w, multiset{}) && from < |w| && ev in w[from].wire
    ensures forall e :: e in Unwire(w[from], ev).wire ==> FlightKeyOf(e) != FlightKeyOf(ev)
  {
    hide AllOk, LedgerOf, LedgerOk, Known;
    AllOkParts(cfg, m, w, from);
    var L := LedgerOf(cfg, w, multiset{});
    WaitingIsInBag(cfg, w, from, ev);
    BagIsKnown(L, ev);
    KnownIsOnce(L, ev);
    assert w[from].wire[ev] <= 1 by { TrafficHolds(w, from, ev); BagIsTraffic(cfg, w, ev); }
    forall e | e in Unwire(w[from], ev).wire ensures FlightKeyOf(e) != FlightKeyOf(ev) {
      WaitingIsInBag(cfg, w, from, e);
      BagIsKnown(L, e);
      if FlightKeyOf(e) == FlightKeyOf(ev) {
        KnownFlight(L, e, ev);
        assert false;
      }
    }
  }

  lemma BagIsTraffic(cfg: Config, w: World, e: Event)
    ensures LedgerOf(cfg, w, multiset{}).bag[e] == AllTraffic(w)[e]
  {
  }

  lemma EachNetWith(cfg: Config, w: World, me: RankId, u: Rank)
    requires EachNetOk(cfg, w) && me < |w| && NetOk(cfg, u)
    ensures EachNetOk(cfg, w[me := u])
  {
    hide NetOk;
  }

  /** All ranks still agree when one keeps its GVT and phase. */
  lemma AgreeWith(w: World, me: RankId, u: Rank)
    requires me < |w| && u.lastGvt == w[me].lastGvt
    requires u.phase.white == w[me].phase.white && u.phase.red == w[me].phase.red
    ensures GvtAgree(w) ==> GvtAgree(w[me := u])
    ensures PhasesAgree(w) ==> PhasesAgree(w[me := u])
  {
  }

  lemma UnwireNet(cfg: Config, r: Rank, ev: Event)
    requires NetOk(cfg, r)
    ensures NetOk(cfg, Unwire(r, ev))
  {
    if cfg.mode.AckInflight? { QuietInflight(r, Unwire(r, ev)); }
  }

  lemma ReceivedNet(cfg: Config, r: Rank, from: RankId, ev: Event)
    requires NetOk(cfg, r)
    requires forall e :: e in r.wire ==> FlightKeyOf(e) != FlightKeyOf(ev)
    ensures NetOk(cfg, ReceiveEvent(cfg, r, from, ev))
  {
    hide InflightOk;
    if cfg.mode.AckInflight? {
      var noted := r.(acks := r.acks + multiset{Ack(from, FlightKeyOf(ev))});
      QuietInflight(r, noted);
      ClearKeeps(noted, FlightKeyOf(ev));
      QuietInflight(ClearInflight(noted, FlightKeyOf(ev)), ReceiveEvent(cfg, r, from, ev));
    }
  }

  /** A rank's own messages on the wire are not those another rank sent. */
  lemma OthersMessages(cfg: Config, m: Model, w: World, from: RankId, me: RankId, ev: Event)
    requires AllOk(cfg, m, w, multiset{}) && from < |w| && me < |w| && from != me && ev in w[from].wire
    ensures forall e :: e in w[me].wire ==> FlightKeyOf(e) != FlightKeyOf(ev)
  {
    hide LpsOk, TombsOk, StartedFirst, TrafficAbove, LogsAbove, PastsBelow, Placed, LedgerOk, LedgerOf;
    assert RankOk(cfg, m, from, w[from]) && RankOk(cfg, m, me, w[me]);
  }

  lemma ReceiveEach(cfg: Config, m: Model, w: World, from: RankId, me: RankId, ev: Event)
    requires AllOk(cfg, m, w, multiset{}) && EachNetOk(cfg, w)
    requires MayReceive(cfg, w, from, me, ev) && from != me
    ensures EachNetOk(cfg, Delivered(cfg, w, from, me, ev))
  {
    hide AllOk, NetOk, ReceiveEvent;
    OthersMessages(cfg, m, w, from, me, ev);
    var sent := w[from := Unwire(w[from], ev)];
    UnwireNet(cfg, w[from], ev);
    EachNetWith(cfg, w, from, sent[from]);
    ReceivedNet(cfg, w[me], from, ev);
    EachNetWith(cfg, sent, me, ReceiveEvent(cfg, w[me], from, ev));
  }

  lemma ReceivedFields(cfg: Config, r: Rank, from: RankId, ev: Event)
    ensures
      var u := ReceiveEvent(cfg, r, from, ev);
      && u.lps == r.lps && u.past == r.past && u.output == r.output && u.wire == r.wire && u.lastGvt == r.lastGvt
      && u.acks == (if cfg.mode.AckInflight? then r.acks + multiset{Ack(from, FlightKeyOf(ev))} else r.acks)
      && u.phase == if cfg.mode.AckInflight? then r.phase else r.phase.CountRecv(ColorOf(ev))
  {
  }

  lemma AcksQuiet(w: World, me: RankId, u: Rank)
    requires AcksOk(w) && me < |w| && u.past == w[me].past && u.wire <= w[me].wire && u.acks <= w[me].acks
    ensures AcksOk(w[me := u])
  {
    SamePastKeys(w[me], u);
    hide SentKey;
    var v := w[me := u];
    forall q, a | 0 <= q < |v| && a in v[q].acks ensures AckOk(v, a) {
      assert a in w[q].acks;
      assert AckOk(w, a);
    }
  }

  lemma AcksAdd(w: World, me: RankId, u: Rank, ack: Ack)
    requires AcksOk(w) && me < |w| && AckOk(w, ack)
    requires u.past == w[me].past && u.wire == w[me].wire && u.acks == w[me].acks + multiset{ack}
    ensures AcksOk(w[me := u])
  {
    SamePastKeys(w[me], u);
    hide SentKey;
    var v := w[me := u];
    forall q, a | 0 <= q < |v| && a in v[q].acks ensures AckOk(v, a) {
      assert a in w[q].acks || a == ack;
      assert AckOk(w, a);
    }
  }

  lemma ReceiveAcks(cfg: Config, m: Model, w: World, from: RankId, me: RankId, ev: Event)
    requires cfg.mode.AckInflight? && AllOk(cfg, m, w, multiset{}) && EachNetOk(cfg, w) && AcksOk(w)
    requires MayReceive(cfg, w, from, me, ev) && from != me
    ensures AcksOk(Delivered(cfg, w, from, me, ev))
  {
    hide AllOk, SentKey, ReceiveEvent, AcksOk;
    LastOfItsKey(cfg, m, w, from, ev);
    assert NetOk(cfg, w[from]);
    var sent := w[from := Unwire(w[from], ev)];
    AcksQuiet(w, from, sent[from]);
    ReceivedFields(cfg, sent[me], from, ev);
    SamePastKeys(w[from], sent[from]);
    AcksAdd(sent, me, ReceiveEvent(cfg, sent[me], from, ev), Ack(from, FlightKeyOf(ev)));
  }

  lemma UnwireSlack(r: Rank, ev: Event, c: Color)
    requires ev in r.wire
    ensures Slack(Unwire(r, ev), c) == Slack(r, c) + if ev.gvtColor == c then 1 else 0
  {
    hide InColor;
    InColorWithout(r.wire, ev, c);
  }

  lemma ReceiveCounts(cfg: Config, w: World, from: RankId, me: RankId, ev: Event)
    requires cfg.mode.ColoredCounters? && CountsOk(w) && ev.gvtColor < 2
    requires MayReceive(cfg, w, from, me, ev) && from != me
    ensures CountsOk(Delivered(cfg, w, from, me, ev))
  {
    hide InColor, GlobalSum;
    var v := Delivered(cfg, w, from, me, ev);
    var sent := w[from := Unwire(w[from], ev)];
    forall c: Color ensures GlobalSum(SlackOf(c), v) == 0 {
      SumWith(SlackOf(c), w, from, sent[from]);
      SumWith(SlackOf(c), sent, me, v[me]);
      UnwireSlack(w[from], ev, c);
    }
  }

  lemma WireColor(cfg: Config, w: World, from: RankId, ev: Event)
    requires cfg.mode.ColoredCounters? && EachNetOk(cfg, w) && from < |w| && ev in w[from].wire
    ensures ev.gvtColor < 2
  {
    assert NetOk(cfg, w[from]);
  }

  lemma ReceiveNets(cfg: Config, m: Model, w: World, from: RankId, me: RankId, ev: Event)
    requires WorldOk(cfg, m, w) && MayReceive(cfg, w, from, me, ev)
    ensures NetsOk(cfg, Delivered(cfg, w, from, me, ev))
  {
    hide AllOk, AcksOk, CountsOk, EachNetOk, ReceiveEvent, GvtAgree, PhasesAgree;
    UnwireOk(cfg, m, w, from, ev);
    ReceiveEach(cfg, m, w, from, me, ev);
    var sent := w[from := Unwire(w[from], ev)];
    ReceivedFields(cfg, w[me], from, ev);
    AgreeWith(w, from, sent[from]);
    AgreeWith(sent, me, ReceiveEvent(cfg, sent[me], from, ev));
    if cfg.mode.AckInflight? {
      ReceiveAcks(cfg, m, w, from, me, ev);
    } else {
      WireColor(cfg, w, from, ev);
      ReceiveCounts(cfg, w, from, me, ev);
    }
  }

  /* ---- Acknowledgements ---- */

  lemma HeardNet(cfg: Config, r: Rank, key: InflightKey)
    requires NetOk(cfg, r)
    requires cfg.mode.AckInflight? ==> forall e :: e in r.wire ==> FlightKeyOf(e) != key
    ensures NetOk(cfg, ReceiveAck(cfg, r, key))
  {
    if cfg.mode.AckInflight? { ClearKeeps(r, key); }
  }

  lemma UnackNet(cfg: Config, r: Rank, ack: Ack)
    requires NetOk(cfg, r)
    ensures NetOk(cfg, Unack(r, ack))
  {
    if cfg.mode.AckInflight? { QuietInflight(r, Unack(r, ack)); }
  }

  lemma HearEach(cfg: Config, w: World, from: RankId, me: RankId, key: InflightKey)
    requires EachNetOk(cfg, w) && (cfg.mode.AckInflight? ==> AcksOk(w)) && MayHear(w, from, me, key)
    ensures EachNetOk(cfg, Heard(cfg, w, from, me, key))
  {
    hide NetOk, ReceiveAck, SentKey;
    var sent := w[from := Unack(w[from], Ack(me, key))];
    UnackNet(cfg, w[from], Ack(me, key));
    EachNetWith(cfg, w, from, sent[from]);
    assert cfg.mode.AckInflight? ==> AckOk(w, Ack(me, key));
    HeardNet(cfg, sent[me], key);
    EachNetWith(cfg, sent, me, ReceiveAck(cfg, sent[me], key));
  }

  lemma HeardFields(cfg: Config, r: Rank, key: InflightKey)
    ensures
      var u := ReceiveAck(cfg, r, key);
      && u.lps == r.lps && u.past == r.past && u.output == r.output && u.wire == r.wire && u.lastGvt == r.lastGvt
      && u.acks == r.acks && u.phase == r.phase && u.pending == r.pending && u.rollbacks == r.rollbacks
  {
  }

  lemma HearAcks(cfg: Config, w: World, from: RankId, me: RankId, key: InflightKey)
    requires AcksOk(w) && MayHear(w, from, me, key)
    ensures AcksOk(Heard(cfg, w, from, me, key))
  {
    hide ReceiveAck, AcksOk;
    var sent := w[from := Unack(w[from], Ack(me, key))];
    AcksQuiet(w, from, sent[from]);
    HeardFields(cfg, sent[me], key);
    AcksQuiet(sent, me, ReceiveAck(cfg, sent[me], key));
  }

  lemma SameSlack(r: Rank, u: Rank)
    requires u.phase == r.phase && u.wire == r.wire
    ensures forall c: Color :: Slack(u, c) == Slack(r, c)
  {
  }

  lemma CountsWith(w: World, me: RankId, u: Rank)
    requires CountsOk(w) && me < |w| && forall c: Color :: Slack(u, c) == Slack(w[me], c)
    ensures CountsOk(w[me := u])
  {
    hide Slack, GlobalSum;
    forall c: Color ensures GlobalSum(SlackOf(c), w[me := u]) == 0 { SumWith(SlackOf(c), w, me, u); }
  }

  lemma HearAckNets(cfg: Config, w: World, from: RankId, me: RankId, key: InflightKey)
    requires NetsOk(cfg, w) && MayHear(w, from, me, key)
    ensures NetsOk(cfg, Heard(cfg, w, from, me, key))
  {
    hide AcksOk, CountsOk, EachNetOk, ReceiveAck, GvtAgree, PhasesAgree;
    HearEach(cfg, w, from, me, key);
    var sent := w[from := Unack(w[from], Ack(me, key))];
    HeardFields(cfg, sent[me], key);
    AgreeWith(w, from, sent[from]);
    AgreeWith(sent, me, ReceiveAck(cfg, sent[me], key));
    if cfg.mode.AckInflight? {
      HearAcks(cfg, w, from, me, key);
    } else {
      SameSlack(w[from], sent[from]);
      SameSlack(sent[me], ReceiveAck(cfg, sent[me], key));
      CountsWith(w, from, sent[from]);
      CountsWith(sent, me, ReceiveAck(cfg, sent[me], key));
    }
  }
}
