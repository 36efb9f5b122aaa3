/** Optimism is invisible.

    Below anything still on its way, the histories of a run over any number of ranks are closed:
    what has been taken up and not undone is exactly what the surviving history asks for.  A
    closed history is unique, so it is the one of the sequential run. */
module Invisible {
  import opened Stamps
  import opened Events
  import opened Models
  import opened Kernel
  import opened Replay
  import opened LpInvariant
  import opened LpSteps
  import opened RankSteps
  import opened Ledgers
  import opened Books
  import opened Tombs
  import opened Handling
  import opened Floor
  import opened Worlds
  import opened Moves
  import opened Network
  import opened Gvt
  import opened Runs
  import opened Closed
  import opened Sequential

  /* ---- Histories without anti-messages ---- */

  function Positive(evs: seq<Event>): (ps: seq<Event>)
    ensures forall e :: e in ps <==> e in evs && !e.isAnti
    decreases |evs|
  {
    if |evs| == 0 then []
    else
      var last := evs[|evs| - 1];
      Positive(evs[..|evs| - 1]) + if last.isAnti then [] else [last]
  }

  lemma PositiveLast(evs: seq<Event>)
    requires |evs| > 0
    ensures
      var last := evs[|evs| - 1];
      Positive(evs) == if last.isAnti then Positive(evs[..|evs| - 1]) else Positive(evs[..|evs| - 1]) + [last]
  {
  }

  lemma PositiveEmpty()
    ensures Positive([]) == []
  {
  }

  lemma AntiLast(m: Model, l: LPId, started: bool, evs: seq<Event>, anti: Event)
    requires anti.isAnti
    ensures StateAfter(m, l, evs + [anti]) == StateAfter(m, l, evs)
    ensures RequestsOf(m, l, started, evs + [anti]) == RequestsOf(m, l, started, evs)
  {
    ReplaySnoc(m, l, started, evs, anti);
    hide RequestsOf, StateAfter;
    assert RequestsOf(m, l, started, evs) + [] == RequestsOf(m, l, started, evs);
  }

  /** A replay passes over anti-messages. */
  lemma {:induction false} PositiveReplay(m: Model, l: LPId, started: bool, evs: seq<Event>)
    ensures StateAfter(m, l, Positive(evs)) == StateAfter(m, l, evs)
    ensures RequestsOf(m, l, started, Positive(evs)) == RequestsOf(m, l, started, evs)
    decreases |evs|
  {
    hide Positive, StateAfter, RequestsOf, RequestsOfEvent, AfterEvent;
    if |evs| == 0 {
      assert evs == [];
      PositiveEmpty();
    } else {
      var n := |evs| - 1;
      PositiveReplay(m, l, started, evs[..n]);
      PositiveLast(evs);
      assert evs == evs[..n] + [evs[n]];
      if evs[n].isAnti {
        AntiLast(m, l, started, evs[..n], evs[n]);
      } else {
        ReplaySnoc(m, l, started, evs[..n], evs[n]);
        ReplaySnoc(m, l, started, Positive(evs[..n]), evs[n]);
      }
    }
  }

  lemma {:induction false} PositiveSorted(evs: seq<Event>)
    requires SortedEvents(evs)
    ensures SortedEvents(Positive(evs))
    decreases |evs|
  {
    if |evs| > 0 {
      var n := |evs| - 1;
      PositiveSorted(evs[..n]);
      var front := Positive(evs[..n]);
      forall i | 0 <= i < |front| ensures front[i].ts.Le(evs[n].ts) {
        assert front[i] in evs[..n];
      }
    }
  }

  ghost predicate NoDup(s: seq<Event>) {
    forall i, j :: 0 <= i < j < |s| ==> s[i] != s[j]
  }

  lemma {:induction false} PositiveNoDup(evs: seq<Event>)
    requires NoDup(evs)
    ensures NoDup(Positive(evs))
    decreases |evs|
  {
    if |evs| > 0 {
      var n := |evs| - 1;
      PositiveNoDup(evs[..n]);
      var front := Positive(evs[..n]);
      forall i | 0 <= i < |front| ensures front[i] != evs[n] {
        assert front[i] in evs[..n];
      }
    }
  }

  ghost function WithContent(s: seq<Event>, c: Content): set<Event> {
    set e | e in s && ContentOf(e) == c
  }

  lemma {:induction false} CountIsCard(s: seq<Event>, c: Content)
    requires NoDup(s)
    ensures Taken(s, c) == |WithContent(s, c)|
    decreases |s|
  {
    if |s| == 0 {
      assert WithContent(s, c) == {};
    } else {
      var n := |s| - 1;
      CountIsCard(s[..n], c);
      assert ContentsOf(s) == ContentsOf(s[..n]) + [ContentOf(s[n])];
      assert s[n] !in s[..n];
      assert WithContent(s, c) == WithContent(s[..n], c) + if ContentOf(s[n]) == c then {s[n]} else {};
    }
  }

  /* ---- The ledger below a bound ---- */

  /** The events an LP stands by: sent and not cancelled, in the order they were sent. */
  ghost function Live(a: Account): (evs: seq<Event>)
    requires LogListsLive(a)
    ensures |evs| == |a.log|
    ensures forall i :: 0 <= i < |evs| ==> 1 <= a.log[i].uid <= |a.sent| && evs[i] == a.sent[a.log[i].uid - 1]
  {
    assert forall i :: 0 <= i < |a.log| ==> EntryOk(a, a.log[i]);
    seq(|a.log|, i requires 0 <= i < |a.log| => a.sent[a.log[i].uid - 1])
  }

  lemma LiveIs(l: LPId, a: Account, e: Event)
    requires AccountOk(l, a)
    ensures e in Live(a) <==> 1 <= e.uid <= |a.sent| && e.uid !in a.antis && a.sent[e.uid - 1] == e
    ensures NoDup(Live(a))
  {
    var evs := Live(a);
    forall i | 0 <= i < |evs| ensures evs[i].uid == a.log[i].uid && a.log[i].uid !in a.antis {
      assert EntryOk(a, a.log[i]);
    }
    if 1 <= e.uid <= |a.sent| && e.uid !in a.antis && a.sent[e.uid - 1] == e {
      assert HasUid(a.log, e.uid);
      var j :| 0 <= j < |a.log| && a.log[j].uid == e.uid;
      assert evs[j] == e;
    }
  }

  /** Nothing below `n` is on its way. */
  ghost predicate QuietBelow(bag: multiset<Event>, n: nat) {
    forall e :: e in bag ==> n <= Ord(e.ts)
  }

  lemma KnownIsSomewhere(L: Ledger, e: Event, n: nat)
    requires LedgerOk(L) && QuietBelow(L.bag, n) && Known(L, e) && Ord(e.ts) < n
    requires e.isAnti || !Cancelled(L, e)
    ensures e in Hist(L, e.dst)
  {
    hide AccountsOk, HistOk, OnePlace, NoneOpposed, Known, Cancelled;
    KnownIsOnce(L, e);
    assert e !in L.bag;
    assert e !in L.dropped;
  }

  lemma CancelledIsGone(L: Ledger, e: Event, n: nat)
    requires LedgerOk(L) && QuietBelow(L.bag, n) && Known(L, e) && Ord(e.ts) < n && !e.isAnti
    requires Cancelled(L, e) && e.dst in L.accts
    ensures e !in L.accts[e.dst].hist
  {
    hide BagOk, HistOk, OnePlace, LogListsLive;
    assert AccountOk(e.src, L.accts[e.src]);
    var a := L.accts[e.src].antis[e.uid];
    assert IsAntiOf(a, e);
    KnownIsSomewhere(L, a, n);
    assert Unopposed(L.accts[e.dst].hist);
  }

  /** Below the bound an event is in its destination's history just if its sender stands by it. */
  lemma TakenIsLive(L: Ledger, e: Event, n: nat)
    requires LedgerOk(L) && QuietBelow(L.bag, n) && Ord(e.ts) < n && !e.isAnti
    requires e.dst in L.accts
    ensures e in L.accts[e.dst].hist <==>
      e.src in L.accts && LogListsLive(L.accts[e.src]) && e in Live(L.accts[e.src])
  {
    hide BagOk, OnePlace, NoneOpposed, QuietBelow, LogListsLive, SentOk, AntisOk;
    if e.src in L.accts {
      assert AccountOk(e.src, L.accts[e.src]);
      LiveIs(e.src, L.accts[e.src], e);
    }
    if e in L.accts[e.dst].hist && Cancelled(L, e) { CancelledIsGone(L, e, n); }
    if Known(L, e) && !Cancelled(L, e) { KnownIsSomewhere(L, e, n); }
  }

  lemma HistNoDup(L: Ledger, l: LPId)
    requires LedgerOk(L) && l in L.accts
    ensures NoDup(L.accts[l].hist)
  {
    hide AccountsOk, BagOk, OnePlace, NoneOpposed, Known;
    var h := L.accts[l].hist;
    forall i, j | 0 <= i < j < |h| ensures h[i] != h[j] {
      assert h[i] in h;
      KnownIsOnce(L, h[i]);
      if h[i] == h[j] {
        TwiceCounts(h, i, j);
        assert false;
      }
    }
  }

  lemma SameCount(L: Ledger, c: Content, n: nat)
    requires LedgerOk(L) && QuietBelow(L.bag, n) && Ord(c.ts) < n && c.dst in L.accts
    requires c.src in L.accts ==> LogListsLive(L.accts[c.src])
    ensures Taken(Positive(L.accts[c.dst].hist), c)
         == if c.src in L.accts then Taken(Live(L.accts[c.src]), c) else 0
  {
    hide LedgerOk, QuietBelow, LogListsLive, Taken, NoDup, Ord;
    var h := Positive(L.accts[c.dst].hist);
    HistNoDup(L, c.dst);
    PositiveNoDup(L.accts[c.dst].hist);
    CountIsCard(h, c);
    forall e | ContentOf(e) == c && !e.isAnti
      ensures e in h <==> e.src in L.accts && LogListsLive(L.accts[e.src]) && e in Live(L.accts[e.src])
    {
      TakenIsLive(L, e, n);
    }
    if c.src in L.accts {
      var v := Live(L.accts[c.src]);
      AccountInLedger(L, c.src);
      LiveArePlain(c.src, L.accts[c.src]);
      CountIsCard(v, c);
      assert WithContent(h, c) == WithContent(v, c);
    } else {
      assert WithContent(h, c) == {};
    }
  }

  lemma AccountInLedger(L: Ledger, l: LPId)
    requires LedgerOk(L) && l in L.accts
    ensures AccountOk(l, L.accts[l])
  {
    hide BagOk, HistOk, OnePlace, NoneOpposed, AccountOk;
  }

  lemma LiveArePlain(l: LPId, a: Account)
    requires AccountOk(l, a)
    ensures NoDup(Live(a)) && forall e :: e in Live(a) ==> !e.isAnti
  {
    hide LogListsLive, AntisOk, NoDup;
    forall e | e in Live(a) ensures !e.isAnti { LiveIs(l, a, e); }
    assert |a.sent| > 0 ==> NoDup(Live(a)) by { if |a.sent| > 0 { LiveIs(l, a, a.sent[0]); } }
    assert |a.sent| == 0 ==> NoDup(Live(a)) by { if |a.sent| == 0 { NoneLive(a); } }
  }

  lemma NoneLive(a: Account)
    requires LogListsLive(a) && |a.sent| == 0
    ensures NoDup(Live(a))
  {
    assert forall i :: 0 <= i < |a.log| ==> EntryOk(a, a.log[i]);
  }

  /* ---- What the log asks for ---- */

  lemma {:induction false} RequestsExplicit(m: Model, l: LPId, evs: seq<Event>)
    requires StrictModel(m)
    ensures forall i :: 0 <= i < |RequestsOf(m, l, true, evs)| ==> RequestsOf(m, l, true, evs)[i].msg.ts.sequence != 0
    decreases |evs|
  {
    if |evs| == 0 {
      var msgs := m.start(l);
      forall i | 0 <= i < |msgs| ensures msgs[i].ts.sequence != 0 { assert msgs[i] in msgs; }
    } else {
      var before := evs[..|evs| - 1];
      RequestsExplicit(m, l, before);
      var msgs := SendsOf(m.handle(l, StateAfter(m, l, before), evs[|evs| - 1]));
      forall i | 0 <= i < |msgs| ensures msgs[i].ts.sequence != 0 { assert msgs[i] in msgs; }
    }
  }

  /** The live sends of an LP are the messages its history asks for, in order. */
  lemma LiveAreAsked(cfg: Config, m: Model, l: LPId, a: Account)
    requires StrictModel(m) && LogListsLive(a) && (forall e :: e in Live(a) ==> e.src == l)
    requires LogOk(cfg, a.sent, a.log, RequestsOf(m, l, true, a.hist))
    ensures ContentsOf(Live(a)) == RequestContents(cfg, RequestsOf(m, l, true, a.hist))
  {
    hide LogListsLive, StrictModel;
    RequestsExplicit(m, l, a.hist);
    var reqs := RequestsOf(m, l, true, a.hist);
    forall i | 0 <= i < |a.log| ensures ContentOf(Live(a)[i]) == SentContent(cfg, reqs[i].msg) {
      assert Answers(cfg, a.sent, a.log[i], reqs[i]);
    }
  }

  /* ---- A reachable world ---- */

  ghost predicate AllStarted(w: World) {
    forall r :: 0 <= r < |w| ==> Ready(w[r])
  }

  ghost function HistoriesOf(cfg: Config, w: World): Histories {
    map l | l in cfg.lps :: Positive(AccountAt(cfg, w, l).hist)
  }

  lemma LpAt(cfg: Config, m: Model, w: World, l: LPId)
    requires WorldOk(cfg, m, w) && l in cfg.lps
    ensures Hosted(cfg, w, l)
    ensures LpOk(cfg, m, l, w[cfg.rankOf(l)].lps[l], w[cfg.rankOf(l)].past[l])
    ensures AccountAt(cfg, w, l) == AccountIn(w[cfg.rankOf(l)].lps[l], w[cfg.rankOf(l)].past[l])
  {
    hide NetsOk, LpOk, TombsOk, FloorOk, StartedFirst, LedgerOk, LedgerOf, AccountIn;
    var me := cfg.rankOf(l);
    assert PlacedAt(cfg, me, w[me]);
    assert RankOk(cfg, m, me, w[me]);
  }

  lemma RecordsSortedEvents(recs: seq<Record>)
    requires SortedRecords(recs)
    ensures SortedEvents(EventsOf(recs))
  {
  }

  lemma WorldHistory(cfg: Config, m: Model, w: World, l: LPId)
    requires WorldOk(cfg, m, w) && l in cfg.lps
    ensures PlainHistory(l, HistoriesOf(cfg, w)[l])
  {
    hide NetsOk, Replays, SendsLogged, AllOk, LedgerOk;
    LpAt(cfg, m, w, l);
    var me := cfg.rankOf(l);
    var h := AccountAt(cfg, w, l).hist;
    RecordsSortedEvents(AllRecords(w[me].lps[l], w[me].past[l]));
    PositiveSorted(h);
    HistHasDst(cfg, m, w, l);
    var ps := Positive(h);
    forall i | 0 <= i < |ps| ensures !ps[i].isAnti && ps[i].dst == l { assert ps[i] in ps; }
  }

  lemma HistHasDst(cfg: Config, m: Model, w: World, l: LPId)
    requires WorldOk(cfg, m, w) && l in cfg.lps
    ensures forall e :: e in AccountAt(cfg, w, l).hist ==> e.dst == l
  {
    hide NetsOk, RanksOk, Placed, AccountsOk, BagOk, OnePlace, NoneOpposed, Known, AccountAt;
    var L := LedgerOf(cfg, w, multiset{});
    assert L.accts[l] == AccountAt(cfg, w, l);
  }

  lemma WorldAsks(cfg: Config, m: Model, w: World, c: Content)
    requires StrictModel(m) && WorldOk(cfg, m, w) && AllStarted(w) && c.src in cfg.lps
    ensures LogListsLive(AccountAt(cfg, w, c.src))
    ensures Taken(Live(AccountAt(cfg, w, c.src)), c) == Asked(cfg, m, c.src, HistoriesOf(cfg, w)[c.src], c)
  {
    hide NetsOk, InTime, Replays, AllOk, StrictModel, LedgerOk, LedgerOf, Positive;
    var l := c.src;
    LpAt(cfg, m, w, l);
    var me := cfg.rankOf(l);
    var a := AccountAt(cfg, w, l);
    assert Ready(w[me]);
    assert AccountOk(l, a) by { WorldAccount(cfg, m, w, l); }
    LiveHaveSrc(l, a);
    LiveAreAsked(cfg, m, l, a);
    PositiveReplay(m, l, true, a.hist);
  }

  lemma LiveHaveSrc(l: LPId, a: Account)
    requires AccountOk(l, a)
    ensures forall e :: e in Live(a) ==> e.src == l
  {
    hide AntisOk;
  }

  lemma WorldAccount(cfg: Config, m: Model, w: World, l: LPId)
    requires WorldOk(cfg, m, w) && l in cfg.lps
    ensures AccountOk(l, AccountAt(cfg, w, l))
  {
    hide NetsOk, RanksOk, Placed, BagOk, HistOk, OnePlace, NoneOpposed, AccountAt, AccountOk;
    var L := LedgerOf(cfg, w, multiset{});
    assert L.accts[l] == AccountAt(cfg, w, l);
  }

  /** The histories of any reachable state are closed below whatever is still on its way. */
  lemma WorldIsClosed(cfg: Config, m: Model, w: World, n: nat)
    requires GoodModel(m) && StrictModel(m) && Reachable(cfg, m, w) && AllStarted(w)
    requires QuietBelow(AllTraffic(w), n)
    ensures ClosedBelow(cfg, m, HistoriesOf(cfg, w), n)
  {
    hide GoodModel, StrictModel, Reachable, WorldOk, AllStarted, Taken, Asked, PlainHistory, AccountAt, LogListsLive, LedgerOk, Positive;
    ReachableOk(cfg, m, w);
    var H := HistoriesOf(cfg, w);
    var L := LedgerOf(cfg, w, multiset{});
    assert L.bag == AllTraffic(w) && LedgerOk(L) by { WorldLedger(cfg, m, w); }
    forall l | l in H ensures PlainHistory(l, H[l]) { WorldHistory(cfg, m, w, l); }
    forall c: Content | c.dst in H && Ord(c.ts) < n
      ensures Taken(H[c.dst], c) == if c.src in H then Asked(cfg, m, c.src, H[c.src], c) else 0
    {
      if c.src in H { WorldAsks(cfg, m, w, c); }
      SameCount(L, c, n);
    }
  }

  lemma WorldLedger(cfg: Config, m: Model, w: World)
    requires WorldOk(cfg, m, w)
    ensures LedgerOk(LedgerOf(cfg, w, multiset{})) && LedgerOf(cfg, w, multiset{}).bag == AllTraffic(w)
  {
    hide LedgerOk, NetsOk, RanksOk, Placed;
  }
}
