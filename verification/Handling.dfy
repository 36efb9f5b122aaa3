/** Dispatching one message keeps every invariant of the ranks together: the logs replay to the
    states, the ledger adds up, tombstones agree with logged anti-messages, and nothing is below
    the GVT. */
module Handling {
  import opened Stamps
  import opened Events
  import opened Models
  import opened Kernel
  import opened Replay
  import opened LpInvariant
  import opened LpSteps
  import opened RankSteps
  import opened Ledgers
  import opened Books
  import opened BookSteps
  import opened Tombs
  import opened Floor
  import opened Collections

  /** An LP that has not run on_start has done nothing, and GVT has not moved. */
  ghost predicate StartedFirst(r: Rank) {
    forall l :: l in r.past && !r.past[l].started ==>
      r.lastGvt == ZERO && l in r.lps && AllRecords(r.lps[l], r.past[l]) == []
  }

  ghost predicate RankOk(cfg: Config, m: Model, me: RankId, r: Rank) {
    !r.aborted && LpsOk(cfg, m, r) && TombsOk(r) && FloorOk(cfg, me, r) && StartedFirst(r)
  }

  ghost predicate RanksOk(cfg: Config, m: Model, ranks: seq<Rank>) {
    forall r :: 0 <= r < |ranks| ==> RankOk(cfg, m, r, ranks[r])
  }

  /** All ranks are in order, up to a message in hand. */
  ghost predicate AllOk(cfg: Config, m: Model, ranks: seq<Rank>, hand: multiset<Event>) {
    Placed(cfg, ranks) && RanksOk(cfg, m, ranks) && LedgerOk(LedgerOf(cfg, ranks, hand))
  }

  ghost predicate GoodModel(m: Model) {
    CausalModel(m) && DisciplinedModel(m)
  }

  lemma RanksOkWith(cfg: Config, m: Model, ranks: seq<Rank>, r: nat, u: Rank)
    requires RanksOk(cfg, m, ranks) && r < |ranks| && RankOk(cfg, m, r, u)
    ensures RanksOk(cfg, m, ranks[r := u])
  {
  }

  /* ---- What the ledger says about one rank ---- */

  lemma TwiceCounts(s: seq<Event>, i: nat, j: nat)
    requires i < j < |s| && s[i] == s[j]
    ensures multiset(s)[s[i]] >= 2
  {
    assert s == s[..j] + s[j..];
    assert s[..j][i] == s[i] && s[j..][0] == s[i];
    assert s[i] in s[..j] && s[i] in s[j..];
  }

  /** A record of an LP's log is in its history, at a known place. */
  lemma InHistory(cfg: Config, ranks: seq<Rank>, hand: multiset<Event>, r: nat, l: LPId, i: nat)
    requires Placed(cfg, ranks) && r < |ranks| && l in ranks[r].lps && i < |ranks[r].lps[l].processed|
    ensures Hosts(ranks[r], l) && l in cfg.lps && cfg.rankOf(l) == r
    ensures
      var h := Hist(LedgerOf(cfg, ranks, hand), l);
      var n := |ranks[r].past[l].committed|;
      n + i < |h| && h[n + i] == ranks[r].lps[l].processed[i].ev
    ensures l in LedgerOf(cfg, ranks, hand).accts
  {
    assert PlacedAt(cfg, r, ranks[r]);
  }

  lemma KnownAntisAgree(L: Ledger, a: Event, b: Event)
    requires Known(L, a) && Known(L, b) && a.isAnti == b.isAnti && KeyOf(a) == KeyOf(b)
    ensures a == b
  {
  }

  lemma LoggedIsKnown(cfg: Config, ranks: seq<Rank>, hand: multiset<Event>, r: nat, l: LPId, i: nat)
    requires Placed(cfg, ranks) && r < |ranks| && l in ranks[r].lps && i < |ranks[r].lps[l].processed|
    requires LedgerOk(LedgerOf(cfg, ranks, hand))
    ensures Known(LedgerOf(cfg, ranks, hand), ranks[r].lps[l].processed[i].ev)
    ensures ranks[r].lps[l].processed[i].ev.dst == l
    ensures ranks[r].lps[l].processed[i].ev in Hist(LedgerOf(cfg, ranks, hand), l)
  {
    hide LedgerOf, Known, AccountsOk, BagOk, OnePlace, NoneOpposed;
    InHistory(cfg, ranks, hand, r, l, i);
  }

  lemma AntisAreUnique(cfg: Config, ranks: seq<Rank>, hand: multiset<Event>, r: nat)
    requires Placed(cfg, ranks) && r < |ranks| && LedgerOk(LedgerOf(cfg, ranks, hand))
    ensures UniqueAntis(ranks[r])
  {
    hide LedgerOf, Known, Placed, LedgerOk;
    var L := LedgerOf(cfg, ranks, hand);
    forall l, i, p, j, k | AntiAt(ranks[r], l, i, k) && AntiAt(ranks[r], p, j, k)
      ensures l == p && i == j
    {
      var a := ranks[r].lps[l].processed[i].ev;
      var b := ranks[r].lps[p].processed[j].ev;
      LoggedIsKnown(cfg, ranks, hand, r, l, i);
      LoggedIsKnown(cfg, ranks, hand, r, p, j);
      KnownAntisAgree(L, a, b);
      InHistory(cfg, ranks, hand, r, l, i);
      InHistory(cfg, ranks, hand, r, p, j);
      KnownIsOnce(L, a);
      if i < j { TwiceCounts(Hist(L, l), |ranks[r].past[l].committed| + i, |ranks[r].past[l].committed| + j); }
      if j < i { TwiceCounts(Hist(L, l), |ranks[r].past[l].committed| + j, |ranks[r].past[l].committed| + i); }
    }
  }

  lemma KnownIsOnce(L: Ledger, e: Event)
    requires LedgerOk(L) && Known(L, e)
    ensures L.bag[e] + L.dropped[e] + multiset(Hist(L, e.dst))[e] == 1
  {
    hide AccountsOk, BagOk, HistOk, NoneOpposed, Known;
    assert Places(L, e) == 1;
  }

  /** A message in hand is not in any log, and neither is anything that undoes the ledger's
      bookkeeping: its stamp is that of its event, with a sequence. */
  lemma HandIsKnown(cfg: Config, ranks: seq<Rank>, ev: Event)
    requires LedgerOk(LedgerOf(cfg, ranks, multiset{ev}))
    ensures Known(LedgerOf(cfg, ranks, multiset{ev}), ev)
    ensures ev !in Hist(LedgerOf(cfg, ranks, multiset{ev}), ev.dst)
    ensures ev.ts != ZERO
  {
    var L := LedgerOf(cfg, ranks, multiset{ev});
    assert ev in L.bag;
    BagIsKnown(L, ev);
    KnownIsOnce(L, ev);
    KnownIsStamped(L, ev);
  }

  lemma BagIsKnown(L: Ledger, e: Event)
    requires LedgerOk(L) && e in L.bag
    ensures Known(L, e)
  {
    hide AccountsOk, HistOk, OnePlace, NoneOpposed, Known;
  }

  lemma KnownIsStamped(L: Ledger, e: Event)
    requires LedgerOk(L) && Known(L, e)
    ensures e.ts.sequence != 0
    ensures e.isAnti ==> IsAntiOf(e, L.accts[e.src].sent[e.uid - 1])
  {
    hide BagOk, HistOk, OnePlace, NoneOpposed, LogListsLive;
    assert AccountOk(e.src, L.accts[e.src]);
  }
}
