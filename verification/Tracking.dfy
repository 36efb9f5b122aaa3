/** The in-flight map of the acknowledgement protocol has nothing too much: each entry is for a
    message still on the rank's wire or for one whose acknowledgement is on its way back.  So once
    messages and acknowledgements are in, no entry is left, and termination is found. */
module Tracking {
  import opened Stamps
  import opened Events
  import opened Models
  import opened Kernel
  import opened LpInvariant
  import opened Handling
  import opened Worlds
  import opened Moves
  import opened Network
  import opened Gvt
  import opened Collecting
  import opened Pruning
  import opened Runs
  import opened Safety
  import opened Termination
  import opened Books
  import opened Ledgers
  import opened Tombs
  import opened Floor
  import opened Collections

  ghost predicate OnWire(r: Rank, key: InflightKey) {
    exists e :: e in r.wire && FlightKeyOf(e) == key
  }

  ghost predicate AckComing(w: World, me: RankId, key: InflightKey) {
    exists q :: 0 <= q < |w| && Ack(me, key) in w[q].acks
  }

  /** Every in-flight entry is for a message on the wire or with an acknowledgement under way. */
  ghost predicate Tracked(w: World) {
    forall me, key :: 0 <= me < |w| && key in w[me].inflight ==> OnWire(w[me], key) || AckComing(w, me, key)
  }

  /** The message of an acknowledgement under way still has its entry. */
  ghost predicate AcksEntered(w: World) {
    forall q, a :: 0 <= q < |w| && a in w[q].acks ==> a.to < |w| && a.key in w[a.to].inflight
  }

  /** Each acknowledgement is under way once. */
  ghost predicate AcksOnce(w: World) {
    && (forall q, a :: 0 <= q < |w| && a in w[q].acks ==> w[q].acks[a] == 1)
    && (forall q, p, a :: 0 <= q < |w| && 0 <= p < |w| && a in w[q].acks && a in w[p].acks ==> q == p)
  }

  ghost predicate AcksTracked(w: World) {
    AcksEntered(w) && AcksOnce(w)
  }

  /* ---- What a rank does on its own ---- */

  /** Wire and entries have only grown, and new entries are for messages on the wire. */
  ghost predicate TracksMore(r: Rank, u: Rank) {
    && r.wire <= u.wire && u.acks == r.acks && r.inflight.Keys <= u.inflight.Keys
    && forall key :: key in u.inflight ==> key in r.inflight || OnWire(u, key)
  }

  lemma TracksAgain(r: Rank, u: Rank, v: Rank)
    requires TracksMore(r, u) && TracksMore(u, v)
    ensures TracksMore(r, v)
  {
    forall key | key in v.inflight ensures key in r.inflight || OnWire(v, key) {
      if OnWire(u, key) {
        var e :| e in u.wire && FlightKeyOf(e) == key;
        assert e in v.wire;
      }
    }
  }

  lemma SameTracks(r: Rank, u: Rank)
    requires u.wire == r.wire && u.acks == r.acks && u.inflight == r.inflight
    ensures TracksMore(r, u)
  {
  }

  lemma PostTracks(cfg: Config, me: RankId, r: Rank, e: Event)
    ensures TracksMore(r, Post(cfg, me, r, e))
  {
    var u := Post(cfg, me, r, e);
    if cfg.rankOf(e.dst) != me {
      if cfg.mode.AckInflight? { assert TrackSend(r, e).acks == r.acks; }
      assert e in u.wire;
    }
  }

  lemma SendTracks(cfg: Config, me: RankId, r: Rank, ev: Event)
    ensures TracksMore(r, SendEvent(cfg, me, r, ev))
  {
    hide Stamp, Post, TracksMore;
    SameTracks(r, r);
    SameTracks(r, Abort(r));
    if !r.aborted && Hosts(r, ev.src) && Stamp(cfg, r.lps[ev.src], ev).Stamping? {
      var s := Stamp(cfg, r.lps[ev.src], ev);
      var with := WithLp(r, ev.src, s.ctx);
      var e := Paint(cfg, r, s.ev);
      SameTracks(r, with);
      PostTracks(cfg, me, with, e);
      SameTracks(Post(cfg, me, with, e), LogSend(Post(cfg, me, with, e), e));
      TracksAgain(r, with, Post(cfg, me, with, e));
      TracksAgain(r, Post(cfg, me, with, e), SendEvent(cfg, me, r, ev));
    }
  }

  lemma {:induction false} SendAllTracks(cfg: Config, me: RankId, r: Rank, evs: seq<Event>)
    ensures TracksMore(r, SendAll(cfg, me, r, evs))
    decreases |evs|
  {
    hide SendEvent, TracksMore;
    SameTracks(r, r);
    if |evs| > 0 {
      var one := SendEvent(cfg, me, r, evs[0]);
      SendTracks(cfg, me, r, evs[0]);
      SendAllTracks(cfg, me, one, evs[1..]);
      TracksAgain(r, one, SendAll(cfg, me, r, evs));
    }
  }

  lemma RollbackTracks(cfg: Config, me: RankId, r: Rank, l: LPId, to: TimeStamp)
    requires l in r.lps
    ensures TracksMore(r, Rollback(cfg, me, r, l, to))
  {
    hide SendAll, TracksMore, UndoCancels, Rewind;
    var base := Rewound(r, l, to);
    SameTracks(r, base);
    var antis := AntisFor(l, base.lps[l].sentLog[SendCut(base.lps[l].sentLog, to)..]);
    SendAllTracks(cfg, me, base, antis);
    TracksAgain(r, base, SendAll(cfg, me, base, antis));
    SameTracks(SendAll(cfg, me, base, antis), Rollback(cfg, me, r, l, to));
    TracksAgain(r, SendAll(cfg, me, base, antis), Rollback(cfg, me, r, l, to));
  }

  lemma ExecuteTracks(cfg: Config, m: Model, me: RankId, r: Rank, ev: Event)
    requires ev.dst in r.lps
    ensures TracksMore(r, Execute(cfg, m, me, r, ev)) || Execute(cfg, m, me, r, ev).aborted
  {
    hide SendAll, TracksMore, RunFrame, EmitsAt, SendsOf;
    var open := WithLp(r, ev.dst, OpenLp(r.lps[ev.dst], ev));
    var msgs := SendsOf(m.handle(ev.dst, r.lps[ev.dst].state, ev));
    var u := Execute(cfg, m, me, r, ev);
    SameTracks(r, open);
    SendAllTracks(cfg, me, open, msgs);
    TracksAgain(r, open, SendAll(cfg, me, open, msgs));
    if !u.aborted {
      SameTracks(SendAll(cfg, me, open, msgs), u);
      TracksAgain(r, SendAll(cfg, me, open, msgs), u);
    }
  }

  lemma DispatchTracks(cfg: Config, m: Model, me: RankId, r: Rank, ev: Event)
    requires !Dispatch(cfg, m, me, r, ev).aborted
    ensures TracksMore(r, Dispatch(cfg, m, me, r, ev))
  {
    hide Rollback, Execute, FindProcessed, TracksMore;
    var l := ev.dst;
    SameTracks(r, r);
    var u := Dispatch(cfg, m, me, r, ev);
    if l in r.lps {
      if ev.ts.Lt(r.lps[l].vt) {
        RollbackTracks(cfg, me, r, l, ev.ts);
        SameTracks(Rollback(cfg, me, r, l, ev.ts), u);
        TracksAgain(r, Rollback(cfg, me, r, l, ev.ts), u);
      } else if ev.isAnti {
        var x := Bury(r, ev);
        var v := Cancel(cfg, me, r, ev);
        SameTracks(r, x);
        if FindProcessed(r.lps[l].processed, KeyOf(ev)).Some? {
          RollbackTracks(cfg, me, x, l, FindProcessed(r.lps[l].processed, KeyOf(ev)).value);
          TracksAgain(r, x, v);
        }
        SameTracks(v, u);
        TracksAgain(r, v, u);
      } else {
        ExecuteTracks(cfg, m, me, r, ev);
      }
    }
  }

  /* ---- Steps ---- */

  /** New entries are for messages on the wire, acknowledgements stay under way, and messages stay on
      the wire or have one: then entries stay accounted for. */
  lemma StillTracked(w: World, u: World)
    requires Tracked(w) && |u| == |w|
    requires forall q, key :: 0 <= q < |w| && key in u[q].inflight ==> key in w[q].inflight || OnWire(u[q], key)
    requires forall q, a :: 0 <= q < |w| && a in w[q].acks ==> a in u[q].acks
    requires forall q, e :: 0 <= q < |w| && e in w[q].wire ==> e in u[q].wire || AckComing(u, q, FlightKeyOf(e))
    ensures Tracked(u)
  {
    forall q, key | 0 <= q < |u| && key in u[q].inflight ensures OnWire(u[q], key) || AckComing(u, q, key) {
      if key in w[q].inflight {
        if AckComing(w, q, key) {
          var p :| 0 <= p < |w| && Ack(q, key) in w[p].acks;
          assert Ack(q, key) in u[p].acks;
        } else {
          var e :| e in w[q].wire && FlightKeyOf(e) == key;
          assert e in u[q].wire ==> OnWire(u[q], key);
        }
      }
    }
  }

  lemma SameAcksTracked(w: World, u: World)
    requires AcksTracked(w) && |u| == |w|
    requires forall q :: 0 <= q < |w| ==> u[q].acks == w[q].acks && w[q].inflight.Keys <= u[q].inflight.Keys
    ensures AcksTracked(u)
  {
    forall q, a | 0 <= q < |u| && a in u[q].acks ensures a.to < |u| && a.key in u[a.to].inflight && u[q].acks[a] == 1 {
      assert a in w[q].acks;
    }
    forall q, p, a | 0 <= q < |u| && 0 <= p < |u| && a in u[q].acks && a in u[p].acks ensures q == p {
      assert a in w[q].acks && a in w[p].acks;
    }
  }

  lemma TrackedWith(w: World, me: RankId, u: Rank)
    requires Tracked(w) && AcksTracked(w) && me < |w| && TracksMore(w[me], u)
    ensures Tracked(w[me := u]) && AcksTracked(w[me := u])
  {
    hide Tracked, AcksTracked, OnWire, AckComing;
    StillTracked(w, w[me := u]);
    SameAcksTracked(w, w[me := u]);
  }

  lemma ReceiveTracked(cfg: Config, w: World, from: RankId, me: RankId, ev: Event)
    requires cfg.mode.AckInflight? && Tracked(w) && from < |w| && me < |w| && from != me && ev in w[from].wire
    ensures Tracked(Delivered(cfg, w, from, me, ev))
  {
    hide Tracked, OnWire, Delivered;
    var u := Delivered(cfg, w, from, me, ev);
    DeliveredFields(cfg, w, from, me, ev);
    assert Ack(from, FlightKeyOf(ev)) in u[me].acks;
    assert AckComing(u, from, FlightKeyOf(ev));
    hide AckComing;
    StillTracked(w, u);
  }

  /** A delivery takes the message off the sender's wire and lets an acknowledgement out. */
  lemma DeliveredFields(cfg: Config, w: World, from: RankId, me: RankId, ev: Event)
    requires cfg.mode.AckInflight? && from < |w| && me < |w| && from != me && ev in w[from].wire
    ensures
      var u := Delivered(cfg, w, from, me, ev);
      && |u| == |w|
      && (forall q :: 0 <= q < |w| ==> u[q].wire == if q == from then w[q].wire - multiset{ev} else w[q].wire)
      && (forall q :: 0 <= q < |w| ==> u[q].acks == if q == me then w[q].acks + multiset{Ack(from, FlightKeyOf(ev))} else w[q].acks)
      && (forall q :: 0 <= q < |w| ==> u[q].inflight.Keys <= w[q].inflight.Keys)
  {
    hide ReceiveEvent;
    ReceivedFields(cfg, w[me], from, ev);
    FewerEntries(cfg, w[me], from, ev);
  }

  lemma FewerEntries(cfg: Config, r: Rank, from: RankId, ev: Event)
    ensures ReceiveEvent(cfg, r, from, ev).inflight.Keys <= r.inflight.Keys
  {
  }

  /** The receiver has no entry for another rank's message, and the message has no acknowledgement yet. */
  lemma NoEntryYet(cfg: Config, m: Model, w: World, from: RankId, me: RankId, ev: Event)
    requires cfg.mode.AckInflight? && WorldOk(cfg, m, w) && from < |w| && me < |w| && from != me && ev in w[from].wire
    ensures FlightKeyOf(ev) !in w[me].inflight && FlightKeyOf(ev) in w[from].inflight
    ensures forall q :: 0 <= q < |w| ==> Ack(from, FlightKeyOf(ev)) !in w[q].acks
  {
    hide LpsOk, TombsOk, StartedFirst, TrafficAbove, LogsAbove, PastsBelow, LedgerOk, LedgerOf, GvtAgree, ValuesOf;
    assert RankOk(cfg, m, from, w[from]) && NetOk(cfg, w[from]) && NetOk(cfg, w[me]);
    assert PlacedAt(cfg, me, w[me]);
    forall q | 0 <= q < |w| ensures Ack(from, FlightKeyOf(ev)) !in w[q].acks {
      assert Ack(from, FlightKeyOf(ev)) in w[q].acks ==> AckOk(w, Ack(from, FlightKeyOf(ev)));
    }
  }

  lemma AckAdded(w: World, u: World, me: RankId, ack: Ack)
    requires AcksTracked(w) && |u| == |w| && me < |w| && ack.to < |w| && ack.key in w[ack.to].inflight
    requires forall q :: 0 <= q < |w| ==> ack !in w[q].acks && u[q].inflight == w[q].inflight
    requires forall q :: 0 <= q < |w| ==> u[q].acks == if q == me then w[q].acks + multiset{ack} else w[q].acks
    ensures AcksTracked(u)
  {
    hide AcksEntered, AcksOnce;
    AddedIsEntered(w, u, me, ack);
    AddedIsOnce(w, u, me, ack);
  }

  lemma AddedIsOnce(w: World, u: World, me: RankId, ack: Ack)
    requires AcksOnce(w) && |u| == |w| && me < |w|
    requires forall q :: 0 <= q < |w| ==> ack !in w[q].acks
    requires forall q :: 0 <= q < |w| ==> u[q].acks == if q == me then w[q].acks + multiset{ack} else w[q].acks
    ensures AcksOnce(u)
  {
    forall q, a | 0 <= q < |u| && a in u[q].acks ensures u[q].acks[a] == 1 {
      if a != ack { assert a in w[q].acks; }
    }
    forall q, p, a | 0 <= q < |u| && 0 <= p < |u| && a in u[q].acks && a in u[p].acks ensures q == p {
      if a != ack { assert a in w[q].acks && a in w[p].acks; }
    }
  }

  lemma AddedIsEntered(w: World, u: World, me: RankId, ack: Ack)
    requires AcksEntered(w) && |u| == |w| && me < |w| && ack.to < |w| && ack.key in w[ack.to].inflight
    requires forall q :: 0 <= q < |w| ==> u[q].inflight == w[q].inflight
    requires forall q :: 0 <= q < |w| ==> u[q].acks == if q == me then w[q].acks + multiset{ack} else w[q].acks
    ensures AcksEntered(u)
  {
    forall q, a | 0 <= q < |u| && a in u[q].acks ensures a.to < |u| && a.key in u[a.to].inflight {
      assert a == ack || a in w[q].acks;
    }
  }

  lemma AckTakenOff(w: World, u: World, from: RankId, me: RankId, key: InflightKey)
    requires AcksTracked(w) && |u| == |w| && from < |w| && Ack(me, key) in w[from].acks
    requires forall q :: 0 <= q < |w| ==> u[q].inflight == if q == me then w[q].inflight - {key} else w[q].inflight
    requires forall q :: 0 <= q < |w| ==> u[q].acks == if q == from then w[q].acks - multiset{Ack(me, key)} else w[q].acks
    ensures AcksTracked(u)
  {
    hide AcksEntered;
    forall q, a | 0 <= q < |u| && a in u[q].acks ensures a in w[q].acks && u[q].acks[a] == 1 && a != Ack(me, key) {
      assert a in w[q].acks;
    }
    forall q, p, a | 0 <= q < |u| && 0 <= p < |u| && a in u[q].acks && a in u[p].acks ensures q == p {
      assert a in w[q].acks && a in w[p].acks;
    }
    EntriesStay(w, u, me, key);
  }

  lemma EntriesStay(w: World, u: World, me: RankId, key: InflightKey)
    requires AcksEntered(w) && |u| == |w|
    requires forall q :: 0 <= q < |w| ==> u[q].inflight == if q == me then w[q].inflight - {key} else w[q].inflight
    requires forall q, a :: 0 <= q < |w| && a in u[q].acks ==> a in w[q].acks && a != Ack(me, key)
    ensures AcksEntered(u)
  {
    forall q, a | 0 <= q < |u| && a in u[q].acks ensures a.to < |u| && a.key in u[a.to].inflight {
      assert a in w[q].acks;
      assert a.to == me ==> a.key != key;
    }
  }

  lemma ReceiveAcksTracked(cfg: Config, m: Model, w: World, from: RankId, me: RankId, ev: Event)
    requires cfg.mode.AckInflight? && WorldOk(cfg, m, w) && AcksTracked(w)
    requires from < |w| && me < |w| && from != me && ev in w[from].wire
    ensures AcksTracked(Delivered(cfg, w, from, me, ev))
  {
    hide WorldOk, AcksTracked;
    ReceivedFields(cfg, w[me], from, ev);
    NoEntryYet(cfg, m, w, from, me, ev);
    AckAdded(w, Delivered(cfg, w, from, me, ev), me, Ack(from, FlightKeyOf(ev)));
  }

  lemma HearAcksTracked(cfg: Config, w: World, from: RankId, me: RankId, key: InflightKey)
    requires cfg.mode.AckInflight? && AcksTracked(w) && MayHear(w, from, me, key)
    ensures AcksTracked(Heard(cfg, w, from, me, key))
  {
    hide AcksTracked, Ready;
    var mid := w[from := Unack(w[from], Ack(me, key))];
    assert ReceiveAck(cfg, mid[me], key).acks == mid[me].acks && ReceiveAck(cfg, mid[me], key).inflight == mid[me].inflight - {key};
    AckTakenOff(w, Heard(cfg, w, from, me, key), from, me, key);
  }

  lemma HearTracked(cfg: Config, w: World, from: RankId, me: RankId, key: InflightKey)
    requires cfg.mode.AckInflight? && Tracked(w) && MayHear(w, from, me, key)
    ensures Tracked(Heard(cfg, w, from, me, key))
  {
    var u := Heard(cfg, w, from, me, key);
    var mid := w[from := Unack(w[from], Ack(me, key))];
    assert ReceiveAck(cfg, mid[me], key).acks == mid[me].acks && ReceiveAck(cfg, mid[me], key).wire == mid[me].wire;
    forall q, k | 0 <= q < |u| && k in u[q].inflight ensures OnWire(u[q], k) || AckComing(u, q, k) {
      assert k in w[q].inflight && (q == me ==> k != key);
      if AckComing(w, q, k) {
        var p :| 0 <= p < |w| && Ack(q, k) in w[p].acks;
        assert Ack(q, k) != Ack(me, key);
        assert Ack(q, k) in u[p].acks;
      } else {
        var e :| e in w[q].wire && FlightKeyOf(e) == k;
        assert e in u[q].wire;
      }
    }
  }

  lemma CollectTracked(cfg: Config, w: World)
    requires cfg.mode.AckInflight? && Tracked(w) && AcksTracked(w)
    ensures Tracked(CollectAll(cfg, w)) && AcksTracked(CollectAll(cfg, w))
  {
    hide Prune;
    var u := CollectAll(cfg, w);
    forall q | 0 <= q < |w|
      ensures u[q].inflight == w[q].inflight && u[q].wire == w[q].wire && u[q].acks == w[q].acks
    {
      AdvanceFields(w[q], Reduced(cfg, w));
    }
    SameTracked(w, u);
  }

  lemma SameTracked(w: World, u: World)
    requires Tracked(w) && AcksTracked(w) && |u| == |w|
    requires forall q :: 0 <= q < |w| ==> u[q].inflight == w[q].inflight && u[q].wire == w[q].wire && u[q].acks == w[q].acks
    ensures Tracked(u) && AcksTracked(u)
  {
    forall q, p, a | 0 <= q < |u| && 0 <= p < |u| && a in u[q].acks && a in u[p].acks ensures q == p {
      assert a in w[q].acks && a in w[p].acks;
    }
    forall q, key | 0 <= q < |u| && key in u[q].inflight ensures OnWire(u[q], key) || AckComing(u, q, key) {
      if AckComing(w, q, key) {
        var p :| 0 <= p < |w| && Ack(q, key) in w[p].acks;
        assert Ack(q, key) in u[p].acks;
      } else {
        var e :| e in w[q].wire && FlightKeyOf(e) == key;
        assert e in u[q].wire;
      }
    }
  }

  lemma StartTracks(cfg: Config, m: Model, me: RankId, r: Rank, l: LPId)
    requires Hosts(r, l)
    ensures TracksMore(r, StartLp(cfg, m, me, r, l))
  {
    hide SendAll, TracksMore;
    var begun := r.(past := r.past[l := r.past[l].(started := true)]);
    SameTracks(r, begun);
    SendAllTracks(cfg, me, begun, m.start(l));
    TracksAgain(r, begun, StartLp(cfg, m, me, r, l));
  }

  lemma StepTracked(cfg: Config, m: Model, w: World, s: Step)
    requires cfg.mode.AckInflight? && GoodModel(m) && WorldOk(cfg, m, w) && Tracked(w) && AcksTracked(w)
    requires Enabled(cfg, w, s) && NoAbort(Next(cfg, m, w, s))
    ensures Tracked(Next(cfg, m, w, s)) && AcksTracked(Next(cfg, m, w, s))
  {
    hide WorldOk, GoodModel, Tracked, AcksTracked, TracksMore, Dispatch, StartLp, Delivered, Heard, CollectAll, Prune, MayCollect, MayHear, IsTop, Ready;
    var u := Next(cfg, m, w, s);
    match s {
      case Start(me, l) =>
        StartTracks(cfg, m, me, w[me], l);
        TrackedWith(w, me, u[me]);
      case Receive(from, me, ev) =>
        WireLeaves(cfg, m, w, from, me, ev);
        ReceiveTracked(cfg, w, from, me, ev);
        ReceiveAcksTracked(cfg, m, w, from, me, ev);
      case HearAck(from, me, key) =>
        HearTracked(cfg, w, from, me, key);
        HearAcksTracked(cfg, w, from, me, key);
      case Discard(me, ev) =>
        SameTracks(w[me], DropPending(w[me], ev));
        TrackedWith(w, me, u[me]);
      case Take(me, ev) =>
        assert !u[me].aborted;
        var taken := TakePending(w[me], ev);
        SameTracks(w[me], taken);
        DispatchTracks(cfg, m, me, taken, ev);
        TracksAgain(w[me], taken, u[me]);
        TrackedWith(w, me, u[me]);
      case Tidy(me) =>
        TidyTracks(w[me]);
        TrackedWith(w, me, u[me]);
      case Collect => CollectTracked(cfg, w);
    }
  }

  lemma TidyTracks(r: Rank)
    ensures TracksMore(r, Prune(r, r.lastGvt))
  {
    hide Prune, TracksMore;
    TidyIsAdvance(r);
    AdvanceFields(r, r.lastGvt);
    SameTracks(r, Prune(r, r.lastGvt));
  }

  /** A message on a wire is for another rank. */
  lemma WireLeaves(cfg: Config, m: Model, w: World, from: RankId, me: RankId, ev: Event)
    requires WorldOk(cfg, m, w) && MayReceive(cfg, w, from, me, ev)
    ensures from < |w| && me < |w| && from != me && ev in w[from].wire
  {
    hide NetsOk, LpsOk, TombsOk, StartedFirst, TrafficAbove, LogsAbove, PastsBelow, Placed, LedgerOk, LedgerOf, Ready;
    assert RankOk(cfg, m, from, w[from]);
  }

  lemma {:induction false} RunTracked(cfg: Config, m: Model, trace: seq<World>, i: nat)
    requires cfg.mode.AckInflight? && GoodModel(m) && Run(cfg, m, trace) && i < |trace|
    ensures Tracked(trace[i]) && AcksTracked(trace[i])
    decreases i
  {
    hide WorldOk, GoodModel, Enabled, Next, NoAbort, Tracked, AcksTracked;
    if i == 0 {
      FreshTracked(cfg, m, trace[0]);
    } else {
      RunTracked(cfg, m, trace, i - 1);
      RunKeeps(cfg, m, trace, i - 1);
      assert StepTo(cfg, m, trace[i - 1], trace[i - 1 + 1]);
      var s :| Enabled(cfg, trace[i - 1], s) && trace[i] == Next(cfg, m, trace[i - 1], s) && NoAbort(trace[i]);
      StepTracked(cfg, m, trace[i - 1], s);
    }
  }

  lemma FreshTracked(cfg: Config, m: Model, w: World)
    requires Init(cfg, m, w)
    ensures Tracked(w) && AcksTracked(w)
  {
  }

  /** In-flight tracking is exact: at every moment the map has an entry for a message just if it is on
      the rank's wire or its acknowledgement is on its way back. */
  lemma InflightIsExact(cfg: Config, m: Model, w: World, me: RankId, key: InflightKey)
    requires GoodModel(m) && Reachable(cfg, m, w) && me < |w| && cfg.mode.AckInflight?
    ensures key in w[me].inflight <==> OnWire(w[me], key) || AckComing(w, me, key)
  {
    hide WorldOk, GoodModel, StepTo, Init;
    InTransitIsInFlight(cfg, m, w, me);
    var trace :| Run(cfg, m, trace) && trace[|trace| - 1] == w;
    RunTracked(cfg, m, trace, |trace| - 1);
  }

  /* ---- Termination ---- */

  /** No message is waiting or on a wire anywhere, and no acknowledgement is. */
  ghost predicate AllIn(w: World) {
    forall r :: 0 <= r < |w| ==> w[r].pending == multiset{} && w[r].wire == multiset{} && w[r].acks == multiset{}
  }

  lemma NothingPending(cfg: Config, w: World, me: RankId)
    requires AllIn(w)
    ensures !HasPending(cfg, w, me)
  {
  }

  lemma AcksArePending(cfg: Config, m: Model, w: World, q: nat)
    requires GoodModel(m) && Reachable(cfg, m, w) && q < |w| && cfg.mode.AckInflight?
    requires forall r :: 0 <= r < |w| ==> !HasWork(cfg, w, r)
    ensures w[q].acks == multiset{}
  {
    hide Reachable, GoodModel;
    InTransitIsInFlight(cfg, m, w, q);
    forall r | 0 <= r < |w| ensures !HasPending(cfg, w, r) { assert !HasWork(cfg, w, r); }
    forall a ensures a !in w[q].acks {
      assert a in w[q].acks ==> a.to < |w| && HasPending(cfg, w, a.to);
    }
  }

  /* No acknowledgements with colours. */

  ghost predicate NoAcks(w: World) {
    forall r :: 0 <= r < |w| ==> w[r].acks == multiset{}
  }

  lemma NoAcksWith(w: World, me: RankId, u: Rank)
    requires NoAcks(w) && me < |w| && u.acks == w[me].acks
    ensures NoAcks(w[me := u])
  {
  }

  lemma StepNoAcks(cfg: Config, m: Model, w: World, s: Step)
    requires cfg.mode.ColoredCounters? && NoAcks(w) && Enabled(cfg, w, s) && NoAbort(Next(cfg, m, w, s))
    ensures NoAcks(Next(cfg, m, w, s))
  {
    hide Dispatch, StartLp, ReceiveEvent, Prune, CollectOne, NoAcks, Reduced, WhiteInTransit, DropAll;
    var u := Next(cfg, m, w, s);
    match s {
      case Start(me, l) =>
        StartTracks(cfg, m, me, w[me], l);
        NoAcksWith(w, me, u[me]);
      case Receive(from, me, ev) =>
        var sent := w[from := Unwire(w[from], ev)];
        NoAcksWith(w, from, Unwire(w[from], ev));
        ReceivedFields(cfg, sent[me], from, ev);
        NoAcksWith(sent, me, u[me]);
      case HearAck(from, me, key) =>
        NothingToHear(w, from, me, key);
      case Discard(me, ev) => NoAcksWith(w, me, u[me]);
      case Take(me, ev) =>
        assert !u[me].aborted;
        DispatchTracks(cfg, m, me, TakePending(w[me], ev), ev);
        NoAcksWith(w, me, u[me]);
      case Tidy(me) =>
        TidyTracks(w[me]);
        NoAcksWith(w, me, u[me]);
      case Collect => CollectNoAcks(cfg, w);
    }
  }

  lemma NothingToHear(w: World, from: RankId, me: RankId, key: InflightKey)
    requires NoAcks(w)
    ensures !MayHear(w, from, me, key)
  {
  }

  lemma CollectNoAcks(cfg: Config, w: World)
    requires cfg.mode.ColoredCounters? && NoAcks(w)
    ensures NoAcks(CollectAll(cfg, w))
  {
    hide Prune;
    forall q | 0 <= q < |w| ensures CollectAll(cfg, w)[q].acks == multiset{} { AdvanceFields(w[q], Reduced(cfg, w)); }
  }

  lemma {:induction false} RunNoAcks(cfg: Config, m: Model, trace: seq<World>, i: nat)
    requires cfg.mode.ColoredCounters? && Run(cfg, m, trace) && i < |trace|
    ensures NoAcks(trace[i])
    decreases i
  {
    hide Enabled, Next, NoAbort;
    if i > 0 {
      RunNoAcks(cfg, m, trace, i - 1);
      assert StepTo(cfg, m, trace[i - 1], trace[i - 1 + 1]);
      var s :| Enabled(cfg, trace[i - 1], s) && trace[i] == Next(cfg, m, trace[i - 1], s) && NoAbort(trace[i]);
      StepNoAcks(cfg, m, trace[i - 1], s);
    }
  }

  lemma {:induction false} EmptyCounts(c: Color, w: World)
    requires forall r :: 0 <= r < |w| ==> w[r].wire == multiset{}
    ensures GlobalSum(CountColor(c), w) == 0
    decreases |w|
  {
    if |w| > 0 { EmptyCounts(c, w[..|w| - 1]); }
  }

  /** Termination is found exactly when it is there.  With acknowledgements no rank reports work if and
      only if every message and every acknowledgement is in and has been taken up; with colours, if
      and only if every message is and no rank is in a red phase. */
  lemma TerminationIsExact(cfg: Config, m: Model, w: World)
    requires GoodModel(m) && Reachable(cfg, m, w)
    ensures (forall r :: 0 <= r < |w| ==> !HasWork(cfg, w, r)) <==>
      AllIn(w) && (cfg.mode.ColoredCounters? ==> forall r :: 0 <= r < |w| ==> !w[r].phase.red)
  {
    hide Reachable, GoodModel, HasPending;
    if forall r :: 0 <= r < |w| ==> !HasWork(cfg, w, r) {
      TerminationIsSound(cfg, m, w);
      WorkIsIn(cfg, m, w);
    }
    if AllIn(w) {
      forall r | 0 <= r < |w| && (cfg.mode.ColoredCounters? ==> !w[r].phase.red) ensures !HasWork(cfg, w, r) {
        NothingPending(cfg, w, r);
        if cfg.mode.AckInflight? { NoEntries(cfg, m, w, r); } else { NoneOutstanding(cfg, m, w); }
      }
    }
  }

  lemma WorkIsIn(cfg: Config, m: Model, w: World)
    requires GoodModel(m) && Reachable(cfg, m, w) && forall r :: 0 <= r < |w| ==> !HasWork(cfg, w, r)
    ensures NoAcks(w) && (cfg.mode.ColoredCounters? ==> forall r :: 0 <= r < |w| ==> !w[r].phase.red)
  {
    hide GoodModel, HasPending, StepTo, Init, GlobalSum;
    if cfg.mode.AckInflight? {
      forall r | 0 <= r < |w| ensures w[r].acks == multiset{} { AcksArePending(cfg, m, w, r); }
    } else {
      var trace :| Run(cfg, m, trace) && trace[|trace| - 1] == w;
      RunNoAcks(cfg, m, trace, |trace| - 1);
      forall r | 0 <= r < |w| ensures !w[r].phase.red { assert !HasWork(cfg, w, r); }
    }
  }

  lemma NoEntries(cfg: Config, m: Model, w: World, r: nat)
    requires GoodModel(m) && Reachable(cfg, m, w) && cfg.mode.AckInflight? && AllIn(w) && r < |w|
    ensures w[r].inflight == map[]
  {
    hide Reachable, GoodModel;
    forall key ensures key !in w[r].inflight { InflightIsExact(cfg, m, w, r, key); }
  }

  lemma NoneOutstanding(cfg: Config, m: Model, w: World)
    requires GoodModel(m) && Reachable(cfg, m, w) && cfg.mode.ColoredCounters? && AllIn(w)
    ensures GlobalSum(Outstanding, w) == 0
  {
    hide Reachable, GoodModel, AllOk, EachNetOk, CountsOk, GvtAgree, GlobalSum;
    ReachableOk(cfg, m, w);
    OutstandingSplits(cfg, w);
    EmptyCounts(0, w);
    EmptyCounts(1, w);
  }
}
