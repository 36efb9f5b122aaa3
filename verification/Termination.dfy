/** The end of a run: when no rank reports work, nothing is left anywhere, and the last flush
    commits everything. */
module Termination {
  import opened Stamps
  import opened Events
  import opened Models
  import opened Flush
  import opened Kernel
  import opened LpInvariant
  import opened RankSteps
  import opened Ledgers
  import opened Books
  import opened Handling
  import opened Tombs
  import opened Floor
  import opened Worlds
  import opened Moves
  import opened Network
  import opened Pruning
  import opened Gvt
  import opened Collecting
  import opened Runs
  import opened Closed
  import opened Safety
  import opened Collections

  /** The transport has something for this rank. */
  ghost predicate HasPending(cfg: Config, w: World, me: RankId) {
    exists r :: 0 <= r < |w| && ((exists e :: e in w[r].wire && cfg.rankOf(e.dst) == me)
                                 || (exists a :: a in w[r].acks && a.to == me))
  }

  function Outstanding(r: Rank): int {
    (r.phase.sent0 + r.phase.sent1) - (r.phase.recv0 + r.phase.recv1)
  }

  /** What a rank reports to the any-rank-has-work reduction. */
  ghost predicate HasWork(cfg: Config, w: World, me: RankId)
    requires me < |w|
  {
    || w[me].pending != multiset{}
    || HasPending(cfg, w, me)
    || (if cfg.mode.AckInflight? then w[me].inflight != map[]
        else GlobalSum(Outstanding, w) != 0 || w[me].phase.red)
  }

  lemma NothingInFlight(r: Rank)
    requires InflightOk(r) && r.inflight == map[]
    ensures r.wire == multiset{}
  {
    hide SentKey, ValuesOf;
    assert forall e :: e !in r.wire;
  }

  lemma OutstandingSplits(cfg: Config, w: World)
    requires cfg.mode.ColoredCounters? && CountsOk(w)
    ensures GlobalSum(Outstanding, w) == GlobalSum(CountColor(0), w) + GlobalSum(CountColor(1), w)
  {
    hide GlobalSum, InColor;
    forall r | 0 <= r < |w|
      ensures SlackBoth(w[r]) == SlackOf(0)(w[r]) + SlackOf(1)(w[r])
      ensures CountBoth(w[r]) == CountColor(0)(w[r]) + CountColor(1)(w[r])
      ensures Outstanding(w[r]) == SlackBoth(w[r]) + CountBoth(w[r])
    {
    }
    SumSplit(SlackBoth, SlackOf(0), SlackOf(1), w);
    SumSplit(CountBoth, CountColor(0), CountColor(1), w);
    SumSplit(Outstanding, SlackBoth, CountBoth, w);
  }

  ghost function SlackBoth(r: Rank): int { Slack(r, 0) + Slack(r, 1) }

  ghost function CountBoth(r: Rank): int { InColor(r.wire, 0) + InColor(r.wire, 1) }

  lemma NothingOutstanding(cfg: Config, w: World, r: nat)
    requires cfg.mode.ColoredCounters? && NetsOk(cfg, w) && GlobalSum(Outstanding, w) == 0 && r < |w|
    ensures w[r].wire == multiset{}
  {
    hide GlobalSum, CountsOk, InColor;
    OutstandingSplits(cfg, w);
    NoneOfNats(CountColor(0), w, r);
    NoneOfNats(CountColor(1), w, r);
    NoneInColor(w[r].wire, 0);
    NoneInColor(w[r].wire, 1);
    assert NetOk(cfg, w[r]);
    assert forall e :: e !in w[r].wire;
  }

  lemma {:induction false} EmptyTraffic(w: World)
    requires forall r :: 0 <= r < |w| ==> w[r].pending == multiset{} && w[r].wire == multiset{}
    ensures AllTraffic(w) == multiset{}
    decreases |w|
  {
    if |w| > 0 { EmptyTraffic(w[..|w| - 1]); }
  }

  /** Termination detection is sound in both modes: if no rank reports work, no rank has a pending
      event, and none is in transit anywhere. */
  lemma TerminationIsSound(cfg: Config, m: Model, w: World)
    requires GoodModel(m) && Reachable(cfg, m, w) && forall r :: 0 <= r < |w| ==> !HasWork(cfg, w, r)
    ensures AllTraffic(w) == multiset{}
    ensures forall r :: 0 <= r < |w| ==> w[r].pending == multiset{} && w[r].wire == multiset{}
  {
    hide Reachable, GoodModel, AllOk, LpsOk, TombsOk, FloorOk, HasPending, GlobalSum, GvtAgree, AcksOk, PhasesAgree, CountsOk;
    forall r | 0 <= r < |w| ensures w[r].pending == multiset{} && w[r].wire == multiset{} {
      RankParts(cfg, m, w, r);
      assert !HasWork(cfg, w, r);
      if cfg.mode.AckInflight? { NothingInFlight(w[r]); } else { NothingOutstanding(cfg, w, r); }
    }
    EmptyTraffic(w);
  }

  /* ---- The last flush ---- */

  /** Pruning a terminated rank at the maximum stamp commits its whole history, but for records at
      that very stamp, and leaves no tombstone below it. */
  lemma LastFlushCommitsAll(cfg: Config, m: Model, w: World, me: RankId, l: LPId)
    requires GoodModel(m) && Reachable(cfg, m, w) && me < |w| && l in w[me].lps
    ensures l in w[me].past && l in Prune(w[me], MAX_STAMP).past && l in Prune(w[me], MAX_STAMP).lps
    ensures
      var all := AllRecords(w[me].lps[l], w[me].past[l]);
      var u := Prune(w[me], MAX_STAMP);
      && u.past[l].committed + u.lps[l].processed == all
      && (forall i :: 0 <= i < |u.lps[l].processed| ==> u.lps[l].processed[i].ev.ts == MAX_STAMP)
      && (forall i :: 0 <= i < |u.past[l].committed| ==> u.past[l].committed[i].ev.ts != MAX_STAMP)
  {
    hide Reachable, GoodModel, WorldOk, TombsOk, FloorOk, NetOk, Released, InTime, Replays, SendsLogged, Placed, LedgerOk, LedgerOf, Fossils, FossilSends;
    RankParts(cfg, m, w, me);
    PruneLp(w[me].lps[l], w[me].past[l], MAX_STAMP);
    ProcessedSorted(cfg, m, l, w[me].lps[l], w[me].past[l]);
    FossilsDivide(w[me].lps[l].processed, MAX_STAMP);
    CommittedBeforeEnd(cfg, me, w[me], l);
  }

  lemma CommittedBeforeEnd(cfg: Config, me: RankId, r: Rank, l: LPId)
    requires FloorOk(cfg, me, r) && l in r.past
    ensures forall i :: 0 <= i < |r.past[l].committed| ==> r.past[l].committed[i].ev.ts.Lt(MAX_STAMP)
  {
    assert PastBelow(r.past[l], r.lastGvt);
  }
}
