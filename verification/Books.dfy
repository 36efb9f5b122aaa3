/** The ledger kept by a number of ranks together, and what each kernel operation does to it. */
module Books {
  import opened Stamps
  import opened Events
  import opened Models
  import opened Kernel
  import opened Replay
  import opened LpInvariant
  import opened LpSteps
  import opened RankSteps
  import opened Ledgers
  import opened Collections

  /** An LP's part of the ledger: its whole history and log, pruned or not. */
  function AccountIn(ctx: LpContext, past: LpPast): Account {
    Account(EventsOf(AllRecords(ctx, past)), AllSends(ctx, past), past.sent, past.antis)
  }

  /** The messages a rank has waiting, or has handed to the transport. */
  function Traffic(r: Rank): multiset<Event> {
    r.pending + r.wire
  }

  function AllTraffic(ranks: seq<Rank>): multiset<Event>
    decreases |ranks|
  {
    if |ranks| == 0 then multiset{} else AllTraffic(ranks[..|ranks| - 1]) + Traffic(ranks[|ranks| - 1])
  }

  function AllDropped(ranks: seq<Rank>): multiset<Event>
    decreases |ranks|
  {
    if |ranks| == 0 then multiset{} else AllDropped(ranks[..|ranks| - 1]) + ranks[|ranks| - 1].dropped
  }

  ghost predicate PlacedAt(cfg: Config, me: RankId, r: Rank) {
    r.past.Keys == r.lps.Keys && forall l :: l in r.lps <==> l in cfg.lps && cfg.rankOf(l) == me
  }

  /** Every LP lives on the rank it is mapped to. */
  ghost predicate Placed(cfg: Config, ranks: seq<Rank>) {
    && (forall r :: 0 <= r < |ranks| ==> PlacedAt(cfg, r, ranks[r]))
    && (forall l :: l in cfg.lps ==> cfg.rankOf(l) < |ranks|)
  }

  predicate Hosted(cfg: Config, ranks: seq<Rank>, l: LPId) {
    cfg.rankOf(l) < |ranks| && Hosts(ranks[cfg.rankOf(l)], l)
  }

  function AccountAt(cfg: Config, ranks: seq<Rank>, l: LPId): Account {
    if Hosted(cfg, ranks, l) then AccountIn(ranks[cfg.rankOf(l)].lps[l], ranks[cfg.rankOf(l)].past[l])
    else Account([], [], [], map[])
  }

  function AccountsOf(cfg: Config, ranks: seq<Rank>): map<LPId, Account> {
    map l | l in cfg.lps :: AccountAt(cfg, ranks, l)
  }

  /** `hand` holds a message taken from a pending queue and not yet put anywhere. */
  function LedgerOf(cfg: Config, ranks: seq<Rank>, hand: multiset<Event>): Ledger {
    Ledger(AllTraffic(ranks) + hand, AllDropped(ranks), AccountsOf(cfg, ranks))
  }

  lemma {:induction false} TrafficWith(ranks: seq<Rank>, r: nat, u: Rank)
    requires r < |ranks|
    ensures AllTraffic(ranks[r := u]) + Traffic(ranks[r]) == AllTraffic(ranks) + Traffic(u)
    decreases |ranks|
  {
    var n := |ranks| - 1;
    if r == n {
      assert ranks[r := u][..n] == ranks[..n];
    } else {
      assert ranks[r := u][..n] == ranks[..n][r := u];
      TrafficWith(ranks[..n], r, u);
      AddBoth(AllTraffic(ranks[..n][r := u]), AllTraffic(ranks[..n]), Traffic(ranks[n]), Traffic(ranks[r]), Traffic(u));
    }
  }

  lemma {:induction false} DroppedWith(ranks: seq<Rank>, r: nat, u: Rank)
    requires r < |ranks|
    ensures AllDropped(ranks[r := u]) + ranks[r].dropped == AllDropped(ranks) + u.dropped
    decreases |ranks|
  {
    var n := |ranks| - 1;
    if r == n {
      assert ranks[r := u][..n] == ranks[..n];
    } else {
      assert ranks[r := u][..n] == ranks[..n][r := u];
      DroppedWith(ranks[..n], r, u);
      AddBoth(AllDropped(ranks[..n][r := u]), AllDropped(ranks[..n]), ranks[n].dropped, ranks[r].dropped, u.dropped);
    }
  }

  /** A rank that changed one LP. */
  ghost predicate ChangesOnly(r: Rank, l: LPId, u: Rank) {
    && Hosts(r, l) && Hosts(u, l)
    && u.lps == r.lps[l := u.lps[l]]
    && u.past == r.past[l := u.past[l]]
  }

  lemma PlacedWith(cfg: Config, ranks: seq<Rank>, r: nat, l: LPId, u: Rank)
    requires Placed(cfg, ranks) && r < |ranks| && ChangesOnly(ranks[r], l, u)
    ensures Placed(cfg, ranks[r := u])
    ensures cfg.rankOf(l) == r && l in cfg.lps
    ensures AccountAt(cfg, ranks, l) == AccountIn(ranks[r].lps[l], ranks[r].past[l])
  {
    hide AccountIn;
    assert PlacedAt(cfg, r, ranks[r]);
    assert PlacedAt(cfg, r, u);
    var us := ranks[r := u];
    forall q | 0 <= q < |us| ensures PlacedAt(cfg, q, us[q]) {
      assert PlacedAt(cfg, q, ranks[q]);
    }
  }

  lemma AccountsWith(cfg: Config, ranks: seq<Rank>, r: nat, l: LPId, u: Rank)
    requires Placed(cfg, ranks) && r < |ranks| && ChangesOnly(ranks[r], l, u)
    ensures AccountsOf(cfg, ranks[r := u]) == AccountsOf(cfg, ranks)[l := AccountIn(u.lps[l], u.past[l])]
  {
    hide AccountIn;
    PlacedWith(cfg, ranks, r, l, u);
    hide Placed;
    forall p | p in cfg.lps && p != l
      ensures AccountAt(cfg, ranks[r := u], p) == AccountAt(cfg, ranks, p)
    {
    }
  }

  lemma CancelBoth(a: multiset<Event>, t: multiset<Event>, b: multiset<Event>, u: multiset<Event>,
                   h: multiset<Event>, hAfter: multiset<Event>, plus: multiset<Event>, minus: multiset<Event>)
    requires a + t == b + u
    requires u + hAfter + minus == t + h + plus
    ensures (a + hAfter) + minus == (b + h) + plus
  {
    assert forall e :: a[e] + t[e] == b[e] + u[e] by {
      forall e ensures a[e] + t[e] == b[e] + u[e] { assert (a + t)[e] == (b + u)[e]; }
    }
    forall e ensures ((a + hAfter) + minus)[e] == ((b + h) + plus)[e] {
      assert (u + hAfter + minus)[e] == (t + h + plus)[e];
    }
  }

  /** A rank that changed one LP and, if at all, added `plus` to the messages around and took
      `minus` away from them. */
  lemma LedgerWith(cfg: Config, ranks: seq<Rank>, r: nat, l: LPId, u: Rank, hand: multiset<Event>,
                   handAfter: multiset<Event>, plus: multiset<Event>, minus: multiset<Event>)
    requires Placed(cfg, ranks) && r < |ranks| && ChangesOnly(ranks[r], l, u)
    requires Traffic(u) + handAfter + minus == Traffic(ranks[r]) + hand + plus
    requires u.dropped == ranks[r].dropped
    ensures Placed(cfg, ranks[r := u])
    ensures LedgerOf(cfg, ranks[r := u], handAfter).bag + minus == LedgerOf(cfg, ranks, hand).bag + plus
    ensures LedgerOf(cfg, ranks[r := u], handAfter).dropped == LedgerOf(cfg, ranks, hand).dropped
    ensures LedgerOf(cfg, ranks[r := u], handAfter).accts
         == LedgerOf(cfg, ranks, hand).accts[l := AccountIn(u.lps[l], u.past[l])]
    ensures l in LedgerOf(cfg, ranks, hand).accts
    ensures LedgerOf(cfg, ranks, hand).accts[l] == AccountIn(ranks[r].lps[l], ranks[r].past[l])
  {
    hide AccountIn, Traffic, AccountAt;
    PlacedWith(cfg, ranks, r, l, u);
    AccountsWith(cfg, ranks, r, l, u);
    TrafficWith(ranks, r, u);
    CancelBoth(AllTraffic(ranks[r := u]), Traffic(ranks[r]), AllTraffic(ranks), Traffic(u), hand, handAfter, plus, minus);
    DroppedWith(ranks, r, u);
    assert AllDropped(ranks[r := u]) == AllDropped(ranks) by {
      var d := ranks[r].dropped;
      forall e ensures AllDropped(ranks[r := u])[e] == AllDropped(ranks)[e] {
        assert (AllDropped(ranks[r := u]) + d)[e] == (AllDropped(ranks) + d)[e];
      }
    }
  }

  /* ---- Changes that leave every LP alone ---- */

  lemma BagWith(cfg: Config, ranks: seq<Rank>, r: nat, u: Rank, hand: multiset<Event>,
                handAfter: multiset<Event>, minus: multiset<Event>)
    requires r < |ranks| && Traffic(u) + handAfter + minus == Traffic(ranks[r]) + hand
    ensures LedgerOf(cfg, ranks[r := u], handAfter).bag + minus == LedgerOf(cfg, ranks, hand).bag
  {
    hide Traffic;
    TrafficWith(ranks, r, u);
    CancelBoth(AllTraffic(ranks[r := u]), Traffic(ranks[r]), AllTraffic(ranks), Traffic(u), hand, handAfter, multiset{}, minus);
  }

  lemma AccountsSame(cfg: Config, ranks: seq<Rank>, r: nat, u: Rank)
    requires r < |ranks| && u.lps == ranks[r].lps && u.past == ranks[r].past
    ensures AccountsOf(cfg, ranks[r := u]) == AccountsOf(cfg, ranks)
    ensures Placed(cfg, ranks) ==> Placed(cfg, ranks[r := u])
  {
    hide AccountIn;
    forall p | p in cfg.lps ensures AccountAt(cfg, ranks[r := u], p) == AccountAt(cfg, ranks, p) {}
    if Placed(cfg, ranks) {
      var us := ranks[r := u];
      forall q | 0 <= q < |us| ensures PlacedAt(cfg, q, us[q]) { assert PlacedAt(cfg, q, ranks[q]); }
    }
  }

  lemma DroppedSame(ranks: seq<Rank>, r: nat, u: Rank, plus: multiset<Event>)
    requires r < |ranks| && u.dropped == ranks[r].dropped + plus
    ensures AllDropped(ranks[r := u]) == AllDropped(ranks) + plus
  {
    DroppedWith(ranks, r, u);
    var d := ranks[r].dropped;
    forall e ensures AllDropped(ranks[r := u])[e] == (AllDropped(ranks) + plus)[e] {
      assert (AllDropped(ranks[r := u]) + d)[e] == (AllDropped(ranks) + (d + plus))[e];
    }
  }

  /** Messages of one rank move between its queue, its wire and the hand. */
  lemma LedgerSame(cfg: Config, ranks: seq<Rank>, r: nat, u: Rank, hand: multiset<Event>, handAfter: multiset<Event>)
    requires r < |ranks| && u.lps == ranks[r].lps && u.past == ranks[r].past && u.dropped == ranks[r].dropped
    requires Traffic(u) + handAfter == Traffic(ranks[r]) + hand
    ensures Placed(cfg, ranks) ==> Placed(cfg, ranks[r := u])
    ensures LedgerOf(cfg, ranks[r := u], handAfter) == LedgerOf(cfg, ranks, hand)
  {
    hide Traffic, AccountsOf, Placed;
    assert Traffic(u) + handAfter + multiset{} == Traffic(ranks[r]) + hand;
    BagWith(cfg, ranks, r, u, hand, handAfter, multiset{});
    var b := LedgerOf(cfg, ranks[r := u], handAfter).bag;
    assert b + multiset{} == b;
    AccountsSame(cfg, ranks, r, u);
    DroppedSame(ranks, r, u, multiset{});
    assert AllDropped(ranks) + multiset{} == AllDropped(ranks);
  }
}
