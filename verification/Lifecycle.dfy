/** The life of every message, and of tombstones. */
module Lifecycle {
  import opened Stamps
  import opened Events
  import opened Models
  import opened Kernel
  import opened Replay
  import opened LpInvariant
  import opened RankSteps
  import opened Ledgers
  import opened Books
  import opened Tombs
  import opened Floor
  import opened Handling
  import opened AntiDispatch
  import opened Worlds
  import opened Moves
  import opened Network
  import opened Gvt
  import opened Runs
  import opened Closed
  import opened Invisible
  import opened Equivalence
  import opened Safety

  /** All of an LP's events and anti-messages, committed or still in its log. */
  ghost function HistoryOf(cfg: Config, w: World, l: LPId): seq<Event> {
    AccountAt(cfg, w, l).hist
  }

  /** Where a message can be: on its way or waiting, thrown away, or taken up by its destination. */
  ghost function PlacesOf(cfg: Config, w: World, e: Event): nat {
    AllTraffic(w)[e] + AllDropped(w)[e] + (if e.dst in cfg.lps then multiset(HistoryOf(cfg, w, e.dst))[e] else 0)
  }

  /** Every event ever sent, cancelled or not, and every anti-message ever sent is at all times in
      exactly one place. */
  lemma OneMessageOnePlace(cfg: Config, m: Model, w: World, l: LPId, u: nat)
    requires GoodModel(m) && Reachable(cfg, m, w) && l in cfg.lps && Hosted(cfg, w, l)
    requires 1 <= u <= |w[cfg.rankOf(l)].past[l].sent|
    ensures PlacesOf(cfg, w, w[cfg.rankOf(l)].past[l].sent[u - 1]) == 1
    ensures u in w[cfg.rankOf(l)].past[l].antis ==> PlacesOf(cfg, w, w[cfg.rankOf(l)].past[l].antis[u]) == 1
  {
    hide AllOk, NetsOk, Reachable, GoodModel, LedgerOk, Places;
    ReachableOk(cfg, m, w);
    WorldLedger(cfg, m, w);
    var L := LedgerOf(cfg, w, multiset{});
    var past := w[cfg.rankOf(l)].past[l];
    AccountInLedger(L, l);
    WorldAccountIs(cfg, w, l);
    assert Known(L, past.sent[u - 1]);
    PlaceOf(cfg, w, past.sent[u - 1]);
    if u in past.antis {
      assert IsAntiOf(past.antis[u], past.sent[u - 1]);
      assert Known(L, past.antis[u]);
      PlaceOf(cfg, w, past.antis[u]);
    }
  }

  lemma WorldAccountIs(cfg: Config, w: World, l: LPId)
    requires l in cfg.lps
    ensures l in LedgerOf(cfg, w, multiset{}).accts && LedgerOf(cfg, w, multiset{}).accts[l] == AccountAt(cfg, w, l)
  {
    hide AccountAt;
  }

  lemma PlaceOf(cfg: Config, w: World, e: Event)
    requires LedgerOk(LedgerOf(cfg, w, multiset{})) && Known(LedgerOf(cfg, w, multiset{}), e)
    ensures PlacesOf(cfg, w, e) == 1
  {
    hide LedgerOk, Known, AccountAt;
    KnownIsOnce(LedgerOf(cfg, w, multiset{}), e);
  }

  /** Each (source, uid) names at most one event and at most one anti-message ever, and the
      anti-message has the event's stamp and destination. */
  lemma IdentitiesAreUnique(cfg: Config, m: Model, w: World, l: LPId)
    requires GoodModel(m) && Reachable(cfg, m, w) && l in cfg.lps
    ensures Hosted(cfg, w, l)
    ensures forall i :: 0 <= i < |w[cfg.rankOf(l)].past[l].sent| ==>
      w[cfg.rankOf(l)].past[l].sent[i].src == l && w[cfg.rankOf(l)].past[l].sent[i].uid == i + 1
      && !w[cfg.rankOf(l)].past[l].sent[i].isAnti
    ensures forall u :: u in w[cfg.rankOf(l)].past[l].antis ==>
      1 <= u <= |w[cfg.rankOf(l)].past[l].sent| && IsAntiOf(w[cfg.rankOf(l)].past[l].antis[u], w[cfg.rankOf(l)].past[l].sent[u - 1])
  {
    hide AllOk, NetsOk, Reachable, GoodModel, LogListsLive;
    ReachableOk(cfg, m, w);
    LpAt(cfg, m, w, l);
    WorldAccount(cfg, m, w, l);
  }

  /** At the end of a run an event has been taken up, exactly once, if its sender still stands by
      it, and otherwise not at all. */
  lemma CommittedJustIfNotCancelled(cfg: Config, m: Model, w: World, e: Event)
    requires GoodModel(m) && Reachable(cfg, m, w) && AllTraffic(w) == multiset{} && e.dst in cfg.lps && !e.isAnti
    ensures multiset(HistoryOf(cfg, w, e.dst))[e]
         == if e.src in cfg.lps && LogListsLive(AccountAt(cfg, w, e.src)) && e in Live(AccountAt(cfg, w, e.src)) then 1 else 0
  {
    hide AllOk, NetsOk, Reachable, GoodModel, LedgerOk, AccountAt, LogListsLive, Known;
    ReachableOk(cfg, m, w);
    WorldLedger(cfg, m, w);
    NothingLeft(w);
    var L := LedgerOf(cfg, w, multiset{});
    TakenIsLive(L, e, END);
    if e in HistoryOf(cfg, w, e.dst) {
      HistIsKnown(L, e.dst, e);
      KnownIsOnce(L, e);
    }
  }

  lemma HistIsKnown(L: Ledger, l: LPId, e: Event)
    requires LedgerOk(L) && l in L.accts && e in L.accts[l].hist
    ensures Known(L, e) && e.dst == l
  {
    hide AccountsOk, BagOk, OnePlace, NoneOpposed, Known;
  }

  /* ---- Tombstones ---- */

  /** A rank's tombstones are exactly the keys of the anti-messages in its logs, with their stamps. */
  lemma TombstonesAreLoggedAntis(cfg: Config, m: Model, w: World, me: RankId, k: UidKey)
    requires GoodModel(m) && Reachable(cfg, m, w) && me < |w|
    ensures k in w[me].cancelled <==> exists l, i :: AntiAt(w[me], l, i, k)
    ensures forall l, i :: AntiAt(w[me], l, i, k) ==> k in w[me].cancelled && w[me].cancelled[k] == w[me].lps[l].processed[i].ev.ts
  {
    hide LpsOk, FloorOk, Placed, LedgerOk, LedgerOf, Reachable, GoodModel, WorldOk, NetOk;
    RankParts(cfg, m, w, me);
  }

  /** No processed event is tombstoned on the rank of its destination. */
  lemma ProcessedAreNotTombstoned(cfg: Config, m: Model, w: World, me: RankId, l: LPId, i: nat)
    requires GoodModel(m) && Reachable(cfg, m, w) && me < |w| && l in w[me].lps && i < |w[me].lps[l].processed|
    requires !w[me].lps[l].processed[i].ev.isAnti
    ensures KeyOf(w[me].lps[l].processed[i].ev) !in w[me].cancelled
  {
    hide LpsOk, FloorOk, Placed, LedgerOk, LedgerOf, Reachable, GoodModel, WorldOk, NetOk, AntisHaveTombs, Known;
    RankParts(cfg, m, w, me);
    var r := w[me];
    var e := r.lps[l].processed[i].ev;
    if KeyOf(e) in r.cancelled {
      var p, j :| AntiAt(r, p, j, KeyOf(e)) && r.lps[p].processed[j].ev.ts == r.cancelled[KeyOf(e)];
      var a := r.lps[p].processed[j].ev;
      LoggedIsKnown(cfg, w, multiset{}, me, l, i);
      LoggedIsKnown(cfg, w, multiset{}, me, p, j);
      TwinStamp(cfg, w, multiset{}, a, e);
      BothInHistory(LedgerOf(cfg, w, multiset{}), l, a, e);
      assert false;
    }
  }

  lemma BothInHistory(L: Ledger, l: LPId, a: Event, e: Event)
    requires LedgerOk(L) && IsAntiOf(a, e) && a in Hist(L, l) && l in L.accts
    ensures e !in Hist(L, l)
  {
    hide AccountsOk, BagOk, HistOk, OnePlace;
    assert Unopposed(L.accts[l].hist);
  }

  /** The GVT peek throws away whatever is tombstoned without asking whether it is an anti-message;
      yet it never throws one away, nor an event that has not been cancelled. */
  lemma PeekDropsOnlyCancelledEvents(cfg: Config, m: Model, w: World, me: RankId, ev: Event)
    requires GoodModel(m) && Reachable(cfg, m, w) && me < |w| && ev in w[me].pending && Tombstoned(w[me], ev)
    ensures !ev.isAnti
    ensures ev.src in cfg.lps && ev.uid in AccountAt(cfg, w, ev.src).antis
  {
    hide LedgerOk, NetsOk, Reachable, GoodModel, AllOk, Placed, AccountAt;
    ReachableOk(cfg, m, w);
    TombstonedIsCancelledEvent(cfg, m, w, me, ev);
  }

  /** When pruning drops a tombstone, its event is neither waiting nor on its way, anywhere. */
  lemma DroppedTombstonesAreDone(cfg: Config, m: Model, w: World, me: RankId, k: UidKey, g: TimeStamp, at: RankId, e: Event)
    requires GoodModel(m) && Reachable(cfg, m, w) && me < |w| && k in w[me].cancelled && w[me].cancelled[k].Lt(g)
    requires forall r, x :: 0 <= r < |w| && (x in w[r].pending || x in w[r].wire) ==> g.Le(x.ts)
    requires at < |w| && (e in w[at].pending || e in w[at].wire) && !e.isAnti
    ensures KeyOf(e) != k
  {
    hide LpsOk, FloorOk, Placed, LedgerOk, LedgerOf, Reachable, GoodModel, WorldOk, NetOk, AntisHaveTombs, Known;
    RankParts(cfg, m, w, me);
    var r := w[me];
    if KeyOf(e) == k {
      var p, j :| AntiAt(r, p, j, k) && r.lps[p].processed[j].ev.ts == r.cancelled[k];
      LoggedIsKnown(cfg, w, multiset{}, me, p, j);
      WaitingIsInBag(cfg, w, at, e);
      BagIsKnown(LedgerOf(cfg, w, multiset{}), e);
      TwinStamp(cfg, w, multiset{}, r.lps[p].processed[j].ev, e);
      assert false;
    }
  }
}
