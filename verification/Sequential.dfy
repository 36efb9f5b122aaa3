/** The reference: one queue, no ranks, no rollback.  The message with the least stamp is taken
    from the queue and handled, and what its handler sends goes into the queue. */
module Sequential {
  import opened Stamps
  import opened Events
  import opened Models
  import opened Kernel
  import opened Closed

  datatype Simulator = Simulator(
    started: set<LPId>,
    queue: multiset<Content>,
    hist: map<LPId, seq<Event>>,
    state: map<LPId, LpState>)

  function SentContents(cfg: Config, msgs: seq<Event>): (cs: seq<Content>)
    ensures |cs| == |msgs|
    ensures forall i :: 0 <= i < |msgs| ==> cs[i] == SentContent(cfg, msgs[i])
  {
    seq(|msgs|, i requires 0 <= i < |msgs| => SentContent(cfg, msgs[i]))
  }

  /** The event a handler is shown; its transport identity is of no account. */
  function AsEvent(c: Content): Event {
    Event(c.ts, c.src, c.dst, c.target, 0, c.payload, 0, false)
  }

  ghost predicate SeqInit(cfg: Config, m: Model, s: Simulator) {
    s == Simulator({}, multiset{}, map l | l in cfg.lps :: [], map l | l in cfg.lps :: m.init(l))
  }

  ghost predicate SeqBegins(cfg: Config, m: Model, s: Simulator, l: LPId, t: Simulator) {
    && l in cfg.lps && l !in s.started
    && t == s.(started := s.started + {l}, queue := s.queue + multiset(SentContents(cfg, m.start(l))))
  }

  ghost predicate SeqHandles(cfg: Config, m: Model, s: Simulator, c: Content, t: Simulator) {
    && s.started == cfg.lps && c in s.queue && c.dst in s.hist && c.dst in s.state
    && (forall d :: d in s.queue ==> c.ts.Le(d.ts))
    && t == s.(queue := s.queue - multiset{c} + multiset(SentContents(cfg, SendsOf(m.handle(c.dst, s.state[c.dst], AsEvent(c))))),
               hist := s.hist[c.dst := s.hist[c.dst] + [AsEvent(c)]],
               state := s.state[c.dst := AfterEvent(m, c.dst, s.state[c.dst], AsEvent(c))])
  }

  ghost predicate SeqStep(cfg: Config, m: Model, s: Simulator, t: Simulator) {
    (exists l :: SeqBegins(cfg, m, s, l, t)) || (exists c :: SeqHandles(cfg, m, s, c, t))
  }

  ghost predicate SeqRun(cfg: Config, m: Model, trace: seq<Simulator>) {
    && |trace| > 0
    && SeqInit(cfg, m, trace[0])
    && forall i :: 0 <= i < |trace| - 1 ==> SeqStep(cfg, m, trace[i], trace[i + 1])
  }

  ghost predicate SeqReachable(cfg: Config, m: Model, s: Simulator) {
    exists trace :: SeqRun(cfg, m, trace) && trace[|trace| - 1] == s
  }

  /* ---- What a sequential run keeps ---- */

  ghost function AskedSoFar(cfg: Config, m: Model, s: Simulator, c: Content): nat {
    if c.src in s.hist then multiset(RequestContents(cfg, RequestsOf(m, c.src, c.src in s.started, s.hist[c.src])))[c] else 0
  }

  ghost function TakenSoFar(s: Simulator, c: Content): nat {
    if c.dst in s.hist then Taken(s.hist[c.dst], c) else 0
  }

  /** Every message asked for is in the queue or has been taken up. */
  ghost predicate Conserved(cfg: Config, m: Model, s: Simulator) {
    forall c: Content :: s.queue[c] + TakenSoFar(s, c) == AskedSoFar(cfg, m, s, c)
  }

  /** Nothing in the queue is before anything taken up. */
  ghost predicate InOrderSoFar(s: Simulator) {
    && (forall l :: l in s.hist ==> PlainHistory(l, s.hist[l]))
    && (forall l, e, c :: l in s.hist && e in s.hist[l] && c in s.queue ==> e.ts.Le(c.ts))
  }

  ghost predicate Tracks(cfg: Config, m: Model, s: Simulator) {
    && s.hist.Keys == cfg.lps && s.state.Keys == cfg.lps
    && (s.started != cfg.lps ==> forall l :: l in s.hist ==> s.hist[l] == [])
    && (forall l :: l in s.hist && l in s.state ==> s.state[l] == StateAfter(m, l, s.hist[l]))
  }

  ghost predicate SeqOk(cfg: Config, m: Model, s: Simulator) {
    Tracks(cfg, m, s) && InOrderSoFar(s) && Conserved(cfg, m, s)
  }

  lemma SeqInitOk(cfg: Config, m: Model, s: Simulator)
    requires SeqInit(cfg, m, s)
    ensures SeqOk(cfg, m, s)
  {
  }

  lemma RequestsAtContents(cfg: Config, ts: TimeStamp, msgs: seq<Event>)
    ensures RequestContents(cfg, RequestsAt(ts, msgs)) == SentContents(cfg, msgs)
  {
  }

  lemma OwnContents(cfg: Config, l: LPId, msgs: seq<Event>, c: Content)
    requires forall t :: t in msgs ==> t.src == l
    ensures c.src != l ==> multiset(SentContents(cfg, msgs))[c] == 0
  {
    var cs := SentContents(cfg, msgs);
    if c.src != l {
      forall i | 0 <= i < |cs| ensures cs[i] != c { assert msgs[i] in msgs; }
      assert c !in cs;
    }
  }

  lemma BeginConserves(cfg: Config, m: Model, s: Simulator, l: LPId, t: Simulator, c: Content)
    requires CausalModel(m) && SeqOk(cfg, m, s) && SeqBegins(cfg, m, s, l, t)
    ensures t.queue[c] + TakenSoFar(t, c) == AskedSoFar(cfg, m, t, c)
  {
    hide Taken;
    assert s.queue[c] + TakenSoFar(s, c) == AskedSoFar(cfg, m, s, c);
    assert s.hist[l] == [];
    RequestsAtContents(cfg, ZERO, m.start(l));
    OwnContents(cfg, l, m.start(l), c);
  }

  lemma BeginOk(cfg: Config, m: Model, s: Simulator, l: LPId, t: Simulator)
    requires CausalModel(m) && SeqOk(cfg, m, s) && SeqBegins(cfg, m, s, l, t)
    ensures SeqOk(cfg, m, t)
  {
    hide CausalModel, StateAfter, TakenSoFar, AskedSoFar;
    forall c: Content ensures t.queue[c] + TakenSoFar(t, c) == AskedSoFar(cfg, m, t, c) {
      BeginConserves(cfg, m, s, l, t, c);
    }
  }

  lemma TakenSnoc(evs: seq<Event>, c0: Content, c: Content)
    ensures Taken(evs + [AsEvent(c0)], c) == Taken(evs, c) + if c == c0 then 1 else 0
  {
    var more := evs + [AsEvent(c0)];
    assert ContentsOf(more) == ContentsOf(evs) + [c0];
  }

  lemma HandledAsks(cfg: Config, m: Model, l: LPId, evs: seq<Event>, c0: Content, c: Content)
    ensures multiset(RequestContents(cfg, RequestsOf(m, l, true, evs + [AsEvent(c0)])))[c]
         == multiset(RequestContents(cfg, RequestsOf(m, l, true, evs)))[c]
          + multiset(SentContents(cfg, SendsOf(m.handle(l, StateAfter(m, l, evs), AsEvent(c0)))))[c]
  {
    var ev := AsEvent(c0);
    var before := RequestsOf(m, l, true, evs);
    var more := RequestsOfEvent(m, l, StateAfter(m, l, evs), ev);
    ReplaySnoc(m, l, true, evs, ev);
    RequestContentsConcat(cfg, before, more);
    RequestsAtContents(cfg, ev.ts, SendsOf(m.handle(l, StateAfter(m, l, evs), ev)));
    CountConcat(RequestContents(cfg, before), RequestContents(cfg, more), c);
  }

  /** What handling `c0` adds to the messages asked for. */
  ghost function NewlyAsked(cfg: Config, m: Model, s: Simulator, c0: Content): seq<Content>
    requires c0.dst in s.state
  {
    SentContents(cfg, SendsOf(m.handle(c0.dst, s.state[c0.dst], AsEvent(c0))))
  }

  lemma HandleTakes(cfg: Config, m: Model, s: Simulator, c0: Content, t: Simulator, c: Content)
    requires SeqHandles(cfg, m, s, c0, t)
    ensures TakenSoFar(t, c) == TakenSoFar(s, c) + if c == c0 then 1 else 0
  {
    TakenSnoc(s.hist[c0.dst], c0, c);
    hide Taken, AfterEvent, SendsOf;
  }

  lemma HandleAsks(cfg: Config, m: Model, s: Simulator, c0: Content, t: Simulator, c: Content)
    requires CausalModel(m) && Tracks(cfg, m, s) && SeqHandles(cfg, m, s, c0, t)
    ensures AskedSoFar(cfg, m, t, c) == AskedSoFar(cfg, m, s, c) + multiset(NewlyAsked(cfg, m, s, c0))[c]
  {
    var l := c0.dst;
    HandledAsks(cfg, m, l, s.hist[l], c0, c);
    OwnContents(cfg, l, SendsOf(m.handle(l, s.state[l], AsEvent(c0))), c);
    hide AfterEvent, SendsOf, RequestsOf, StateAfter, CausalModel;
  }

  lemma HandleConserves(cfg: Config, m: Model, s: Simulator, c0: Content, t: Simulator, c: Content)
    requires CausalModel(m) && SeqOk(cfg, m, s) && SeqHandles(cfg, m, s, c0, t)
    ensures t.queue[c] + TakenSoFar(t, c) == AskedSoFar(cfg, m, t, c)
  {
    hide Taken, AfterEvent, SendsOf, StateAfter, RequestsOf, InOrderSoFar, CausalModel, TakenSoFar, AskedSoFar, Tracks;
    assert s.queue[c] + TakenSoFar(s, c) == AskedSoFar(cfg, m, s, c);
    HandleTakes(cfg, m, s, c0, t, c);
    HandleAsks(cfg, m, s, c0, t, c);
  }

  lemma PlainSnoc(l: LPId, evs: seq<Event>, c0: Content)
    requires PlainHistory(l, evs) && c0.dst == l && forall e :: e in evs ==> e.ts.Le(c0.ts)
    ensures PlainHistory(l, evs + [AsEvent(c0)])
  {
    forall i | 0 <= i < |evs| ensures evs[i].ts.Le(c0.ts) { assert evs[i] in evs; }
  }

  lemma NewIsLater(cfg: Config, m: Model, s: Simulator, c0: Content, c: Content)
    requires StrictModel(m) && c0.dst in s.state && c in NewlyAsked(cfg, m, s, c0)
    ensures c0.ts.Lt(c.ts)
  {
    var msgs := SendsOf(m.handle(c0.dst, s.state[c0.dst], AsEvent(c0)));
    var i :| 0 <= i < |msgs| && SentContents(cfg, msgs)[i] == c;
    assert msgs[i] in msgs;
  }

  lemma HandleOrder(cfg: Config, m: Model, s: Simulator, c0: Content, t: Simulator)
    requires StrictModel(m) && InOrderSoFar(s) && SeqHandles(cfg, m, s, c0, t)
    ensures InOrderSoFar(t)
  {
    hide PlainHistory, StrictModel, AfterEvent, SendsOf;
    var l := c0.dst;
    PlainSnoc(l, s.hist[l], c0);
    forall p, e, c | p in t.hist && e in t.hist[p] && c in t.queue ensures e.ts.Le(c.ts) {
      assert e == AsEvent(c0) || (p in s.hist && e in s.hist[p]);
      assert e.ts.Le(c0.ts);
      if c !in s.queue { NewIsLater(cfg, m, s, c0, c); }
    }
  }

  lemma HandleOk(cfg: Config, m: Model, s: Simulator, c0: Content, t: Simulator)
    requires CausalModel(m) && StrictModel(m) && SeqOk(cfg, m, s) && SeqHandles(cfg, m, s, c0, t)
    ensures SeqOk(cfg, m, t)
  {
    hide CausalModel, StrictModel, TakenSoFar, AskedSoFar, InOrderSoFar, SendsOf, RunFrame, RequestsOf, RequestsOfEvent;
    HandleOrder(cfg, m, s, c0, t);
    forall c: Content ensures t.queue[c] + TakenSoFar(t, c) == AskedSoFar(cfg, m, t, c) {
      HandleConserves(cfg, m, s, c0, t, c);
    }
    ReplaySnoc(m, c0.dst, true, s.hist[c0.dst], AsEvent(c0));
  }

  lemma {:induction false} SeqRunOk(cfg: Config, m: Model, trace: seq<Simulator>, i: nat)
    requires CausalModel(m) && StrictModel(m) && SeqRun(cfg, m, trace) && i < |trace|
    ensures SeqOk(cfg, m, trace[i])
    decreases i
  {
    hide CausalModel, StrictModel, SeqOk, SeqInit, SeqBegins, SeqHandles;
    if i == 0 {
      SeqInitOk(cfg, m, trace[0]);
    } else {
      SeqRunOk(cfg, m, trace, i - 1);
      var s, t := trace[i - 1], trace[i - 1 + 1];
      assert SeqStep(cfg, m, s, t);
      if l :| SeqBegins(cfg, m, s, l, t) {
        BeginOk(cfg, m, s, l, t);
      } else {
        var c :| SeqHandles(cfg, m, s, c, t);
        HandleOk(cfg, m, s, c, t);
      }
    }
  }

  lemma SeqReachableOk(cfg: Config, m: Model, s: Simulator)
    requires CausalModel(m) && StrictModel(m) && SeqReachable(cfg, m, s)
    ensures SeqOk(cfg, m, s)
  {
    hide CausalModel, StrictModel, SeqOk, SeqInit, SeqStep;
    var trace :| SeqRun(cfg, m, trace) && trace[|trace| - 1] == s;
    SeqRunOk(cfg, m, trace, |trace| - 1);
  }

  /** The history of a sequential run is closed below whatever it has left in its queue. */
  lemma SequentialIsClosed(cfg: Config, m: Model, s: Simulator, n: nat)
    requires CausalModel(m) && StrictModel(m) && SeqReachable(cfg, m, s)
    requires s.started == cfg.lps && forall c :: c in s.queue ==> n <= Ord(c.ts)
    ensures ClosedBelow(cfg, m, s.hist, n)
    ensures s.hist.Keys == cfg.lps && s.state.Keys == cfg.lps
    ensures forall l :: l in cfg.lps ==> s.state[l] == StateAfter(m, l, s.hist[l])
  {
    hide SeqReachable, StateAfter, Taken, Ord, PlainHistory, CausalModel, StrictModel, RequestsOf;
    SeqReachableOk(cfg, m, s);
    forall c: Content | c.dst in s.hist && Ord(c.ts) < n
      ensures Taken(s.hist[c.dst], c) == if c.src in s.hist then Asked(cfg, m, c.src, s.hist[c.src], c) else 0
    {
      assert s.queue[c] + TakenSoFar(s, c) == AskedSoFar(cfg, m, s, c);
      assert c !in s.queue;
    }
  }
}
