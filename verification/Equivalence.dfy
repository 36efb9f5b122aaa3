/** The main results about whole runs: what the optimistic kernel commits is what the sequential
    run does, at every moment and at the end, whatever the number of ranks, the GVT protocol, the
    order of delivery and the rollbacks. */
module Equivalence {
  import opened Stamps
  import opened Events
  import opened Models
  import opened Kernel
  import opened Replay
  import opened LpInvariant
  import opened RankSteps
  import opened Ledgers
  import opened Books
  import opened BookSteps
  import opened Tombs
  import opened Floor
  import opened Handling
  import opened Worlds
  import opened Moves
  import opened Network
  import opened Gvt
  import opened Runs
  import opened Closed
  import opened Sequential
  import opened Invisible
  import opened Collections

  /** Explicit stamps, sends strictly into the future, and handlers that do not look at transport
      identities: what equality with a sequential run needs beyond causality. */
  ghost predicate DeterministicModel(m: Model) {
    GoodModel(m) && StrictModel(m) && IdentityBlind(m)
  }

  /** A sequential run in which no LP handles two events of one stamp, and which has nothing left
      to do below `n`. */
  ghost predicate SequentialTo(cfg: Config, m: Model, s: Simulator, n: nat) {
    && SeqReachable(cfg, m, s) && s.started == cfg.lps
    && (forall c :: c in s.queue ==> n <= Ord(c.ts))
    && (forall l :: l in s.hist ==> DistinctStamps(s.hist[l]))
  }

  ghost function StateOf(cfg: Config, w: World, l: LPId): LpState
    requires Hosted(cfg, w, l)
  {
    w[cfg.rankOf(l)].lps[l].state
  }

  /** Optimism is invisible: in any reachable state of any number of ranks, the history of every
      LP below whatever is still on its way is, up to transport identities, the history of the
      sequential run. */
  lemma OptimismIsInvisible(cfg: Config, m: Model, w: World, s: Simulator, n: nat, l: LPId)
    requires DeterministicModel(m) && Reachable(cfg, m, w) && AllStarted(w) && QuietBelow(AllTraffic(w), n)
    requires SequentialTo(cfg, m, s, n) && l in cfg.lps
    ensures l in s.hist
    ensures ContentsOf(Upto(HistoriesOf(cfg, w)[l], n)) == ContentsOf(Upto(s.hist[l], n))
  {
    hide GoodModel, StrictModel, IdentityBlind, Reachable, SeqReachable, ClosedBelow, DistinctStamps, AllStarted;
    GoodIsCausal(m);
    WorldIsClosed(cfg, m, w, n);
    SequentialIsClosed(cfg, m, s, n);
    ClosedIsUnique(cfg, m, HistoriesOf(cfg, w), s.hist, n);
  }

  lemma GoodIsCausal(m: Model)
    requires GoodModel(m)
    ensures CausalModel(m)
  {
    hide CausalModel, DisciplinedModel;
  }

  lemma WorldState(cfg: Config, m: Model, w: World, l: LPId)
    requires GoodModel(m) && Reachable(cfg, m, w) && l in cfg.lps
    ensures Hosted(cfg, w, l)
    ensures StateOf(cfg, w, l) == StateAfter(m, l, HistoriesOf(cfg, w)[l])
    ensures PlainHistory(l, HistoriesOf(cfg, w)[l])
  {
    hide Reachable, GoodModel, WorldOk, InTime, SendsLogged, RecordsOk, PlainHistory, Positive;
    ReachableOk(cfg, m, w);
    LpAt(cfg, m, w, l);
    WorldHistory(cfg, m, w, l);
    PositiveReplay(m, l, true, AccountAt(cfg, w, l).hist);
  }

  lemma {:induction false} NothingLeft(w: World)
    requires AllTraffic(w) == multiset{}
    ensures QuietBelow(AllTraffic(w), END)
  {
  }

  /** A run that has come to its end leaves every LP with the state and the events of the
      sequential run. */
  lemma TerminatedIsSequential(cfg: Config, m: Model, w: World, s: Simulator, l: LPId)
    requires DeterministicModel(m) && Reachable(cfg, m, w) && AllStarted(w) && AllTraffic(w) == multiset{}
    requires SequentialTo(cfg, m, s, END) && s.queue == multiset{} && l in cfg.lps
    ensures Hosted(cfg, w, l) && l in s.hist && l in s.state
    ensures ContentsOf(HistoriesOf(cfg, w)[l]) == ContentsOf(s.hist[l])
    ensures StateOf(cfg, w, l) == s.state[l]
  {
    hide GoodModel, StrictModel, IdentityBlind, Reachable, SeqReachable, DistinctStamps, AllStarted, Upto, StateAfter, StateOf;
    GoodIsCausal(m);
    NothingLeft(w);
    OptimismIsInvisible(cfg, m, w, s, END, l);
    UptoEnd(HistoriesOf(cfg, w)[l]);
    UptoEnd(s.hist[l]);
    WorldState(cfg, m, w, l);
    SequentialIsClosed(cfg, m, s, END);
    SameContentsSameReplay(m, l, HistoriesOf(cfg, w)[l], s.hist[l]);
  }

  /* ---- At every moment ---- */

  lemma {:induction false} InSomeTraffic(w: World, e: Event)
    requires e in AllTraffic(w)
    ensures exists r :: 0 <= r < |w| && e in Traffic(w[r])
    decreases |w|
  {
    hide Traffic;
    var n := |w| - 1;
    if e in Traffic(w[n]) {
    } else {
      InSomeTraffic(w[..n], e);
      var r :| 0 <= r < |w[..n]| && e in Traffic(w[..n][r]);
      assert e in Traffic(w[r]);
    }
  }

  /** Nothing anywhere is on its way below the GVT of any rank. */
  lemma QuietBelowGvt(cfg: Config, m: Model, w: World, me: RankId)
    requires WorldOk(cfg, m, w) && me < |w|
    ensures QuietBelow(AllTraffic(w), Ord(w[me].lastGvt))
  {
    hide LpsOk, TombsOk, StartedFirst, LogsAbove, PastsBelow, WireOut, LedgerOk, LedgerOf, Placed, EachNetOk,
         AcksOk, PhasesAgree, CountsOk, Traffic;
    forall e | e in AllTraffic(w) ensures Ord(w[me].lastGvt) <= Ord(e.ts) {
      InSomeTraffic(w, e);
      var r :| 0 <= r < |w| && e in Traffic(w[r]);
      assert RankOk(cfg, m, r, w[r]);
      assert w[r].lastGvt == w[me].lastGvt;
      OrdIsOrder(e.ts, w[r].lastGvt);
    }
  }

  lemma {:induction false} PositiveConcat(a: seq<Event>, b: seq<Event>)
    ensures Positive(a + b) == Positive(a) + Positive(b)
    decreases |b|
  {
    hide Positive;
    if |b| == 0 {
      PositiveEmpty();
      assert a + b == a && b == [];
      assert Positive(a) + [] == Positive(a);
    } else {
      var n := |b| - 1;
      assert (a + b)[..|a| + n] == a + b[..n] && (a + b)[|a| + n] == b[n];
      PositiveConcat(a, b[..n]);
      PositiveLast(a + b);
      PositiveLast(b);
      ConcatAssoc(Positive(a), Positive(b[..n]), [b[n]]);
    }
  }

  /** The events an LP has committed, without anti-messages. */
  ghost function CommittedOf(cfg: Config, w: World, l: LPId): seq<Event>
    requires Hosted(cfg, w, l)
  {
    Positive(EventsOf(w[cfg.rankOf(l)].past[l].committed))
  }

  /** Where a log is cut at a stamp, its front is its history up to that stamp. */
  lemma FrontIsUpto(a: seq<Record>, b: seq<Record>, g: TimeStamp)
    requires RecordsBelow(a, g) && RecordsAbove(b, g)
    ensures Positive(EventsOf(a)) == Upto(Positive(EventsOf(a + b)), Ord(g))
  {
    hide Positive, Upto, Ord;
    var front: seq<Event> := Positive(EventsOf(a));
    var back: seq<Event> := Positive(EventsOf(b));
    EventsOfConcat(a, b);
    PositiveConcat(EventsOf(a), EventsOf(b));
    BelowInOrd(a, g);
    AboveInOrd(b, g);
    forall i | 0 <= i < |front| ensures Ord((front + back)[i].ts) < Ord(g) { assert front[i] in front; }
    assert |back| > 0 ==> back[0] in back && (front + back)[|front|] == back[0];
    UptoIs(front + back, Ord(g), |front|);
  }

  lemma CommittedIsUptoGvt(cfg: Config, m: Model, w: World, l: LPId)
    requires WorldOk(cfg, m, w) && l in cfg.lps
    ensures Hosted(cfg, w, l)
    ensures CommittedOf(cfg, w, l) == Upto(HistoriesOf(cfg, w)[l], Ord(w[cfg.rankOf(l)].lastGvt))
  {
    hide NetsOk, LpOk, TombsOk, StartedFirst, TrafficAbove, WireOut, LedgerOk, LedgerOf, Placed, Positive, Upto, Ord;
    LpAt(cfg, m, w, l);
    var me := cfg.rankOf(l);
    assert RankOk(cfg, m, me, w[me]);
    var ctx := w[me].lps[l];
    var past := w[me].past[l];
    var g := w[me].lastGvt;
    assert PastBelow(past, g) && RecordsAbove(ctx.processed, g);
    FrontIsUpto(past.committed, ctx.processed, g);
  }

  lemma BelowInOrd(recs: seq<Record>, g: TimeStamp)
    requires RecordsBelow(recs, g)
    ensures forall e :: e in EventsOf(recs) ==> Ord(e.ts) < Ord(g)
  {
    forall i | 0 <= i < |recs| ensures Ord(recs[i].ev.ts) < Ord(g) { OrdIsOrder(recs[i].ev.ts, g); }
  }

  lemma AboveInOrd(recs: seq<Record>, g: TimeStamp)
    requires RecordsAbove(recs, g)
    ensures forall e :: e in EventsOf(recs) ==> Ord(g) <= Ord(e.ts)
  {
    forall i | 0 <= i < |recs| ensures Ord(g) <= Ord(recs[i].ev.ts) { OrdIsOrder(recs[i].ev.ts, g); }
  }

  /** At every moment of a run, what an LP has committed is exactly the part of the sequential
      run's history below the GVT: no committed event is ever wrong or missing. */
  lemma CommittedIsSequential(cfg: Config, m: Model, w: World, s: Simulator, l: LPId)
    requires DeterministicModel(m) && Reachable(cfg, m, w) && AllStarted(w) && l in cfg.lps && cfg.rankOf(l) < |w|
    requires SequentialTo(cfg, m, s, Ord(w[cfg.rankOf(l)].lastGvt))
    ensures Hosted(cfg, w, l) && l in s.hist
    ensures ContentsOf(CommittedOf(cfg, w, l)) == ContentsOf(Upto(s.hist[l], Ord(w[cfg.rankOf(l)].lastGvt)))
  {
    hide GoodModel, StrictModel, IdentityBlind, Reachable, SequentialTo, AllStarted, WorldOk, Upto, Ord, HistoriesOf, CommittedOf;
    ReachableOk(cfg, m, w);
    QuietBelowGvt(cfg, m, w, cfg.rankOf(l));
    OptimismIsInvisible(cfg, m, w, s, Ord(w[cfg.rankOf(l)].lastGvt), l);
    CommittedIsUptoGvt(cfg, m, w, l);
  }

  /* ---- Two optimistic runs ---- */

  /** Same model, same LPs and same routing; ranks, placement and GVT protocol may differ. */
  ghost predicate SameSystem(cfg: Config, cfg2: Config) {
    cfg.lps == cfg2.lps && cfg.directory == cfg2.directory
  }

  lemma SameSystemAsks(cfg: Config, cfg2: Config, m: Model, l: LPId, evs: seq<Event>, c: Content)
    requires SameSystem(cfg, cfg2)
    ensures Asked(cfg, m, l, evs, c) == Asked(cfg2, m, l, evs, c)
  {
    var reqs := RequestsOf(m, l, true, evs);
    forall i | 0 <= i < |reqs| ensures SentContent(cfg, reqs[i].msg) == SentContent(cfg2, reqs[i].msg) {}
    assert RequestContents(cfg, reqs) == RequestContents(cfg2, reqs);
  }

  lemma SameSystemClosed(cfg: Config, cfg2: Config, m: Model, H: Histories, n: nat)
    requires SameSystem(cfg, cfg2) && ClosedBelow(cfg2, m, H, n)
    ensures ClosedBelow(cfg, m, H, n)
  {
    hide PlainHistory, Taken, Asked, Ord;
    forall c: Content | c.dst in H && Ord(c.ts) < n
      ensures Taken(H[c.dst], c) == if c.src in H then Asked(cfg, m, c.src, H[c.src], c) else 0
    {
      if c.src in H { SameSystemAsks(cfg, cfg2, m, c.src, H[c.src], c); }
    }
  }

  /** Two terminated runs of one system leave the same states and events, however many ranks they
      ran on, if in one of them no LP has two events of one stamp. */
  lemma RunsAgree(cfg: Config, cfg2: Config, m: Model, w: World, w2: World, l: LPId)
    requires DeterministicModel(m) && SameSystem(cfg, cfg2) && l in cfg.lps
    requires Reachable(cfg, m, w) && AllStarted(w) && AllTraffic(w) == multiset{}
    requires Reachable(cfg2, m, w2) && AllStarted(w2) && AllTraffic(w2) == multiset{}
    requires forall p :: p in cfg.lps ==> DistinctStamps(HistoriesOf(cfg2, w2)[p])
    ensures Hosted(cfg, w, l) && Hosted(cfg2, w2, l)
    ensures ContentsOf(HistoriesOf(cfg, w)[l]) == ContentsOf(HistoriesOf(cfg2, w2)[l])
    ensures StateOf(cfg, w, l) == StateOf(cfg2, w2, l)
  {
    hide GoodModel, StrictModel, IdentityBlind, Reachable, DistinctStamps, AllStarted, Upto, StateAfter, ClosedBelow, Positive, StateOf;
    var H, K := HistoriesOf(cfg, w), HistoriesOf(cfg2, w2);
    NothingLeft(w);
    NothingLeft(w2);
    WorldIsClosed(cfg, m, w, END);
    WorldIsClosed(cfg2, m, w2, END);
    SameSystemClosed(cfg, cfg2, m, K, END);
    ClosedIsUnique(cfg, m, H, K, END);
    UptoEnd(H[l]);
    UptoEnd(K[l]);
    WorldState(cfg, m, w, l);
    WorldState(cfg2, m, w2, l);
    SameContentsSameReplay(m, l, H[l], K[l]);
  }
}
