/** Dispatching an anti-message: its event is undone if it has been processed, a tombstone is left,
    and the anti-message is logged. */
module AntiDispatch {
  import opened Stamps
  import opened Events
  import opened Models
  import opened Kernel
  import opened Replay
  import opened LpInvariant
  import opened LpSteps
  import opened RankSteps
  import opened Ledgers
  import opened Books
  import opened BookSteps
  import opened Tombs
  import opened Floor
  import opened Handling
  import opened Dispatching
  import opened Collections

  /** A message in hand has no tombstone of its own making: no logged anti-message has its key. */
  lemma NoTombFor(cfg: Config, m: Model, ranks: seq<Rank>, r: nat, anti: Event)
    requires AllOk(cfg, m, ranks, multiset{anti}) && r < |ranks| && anti.isAnti
    ensures forall l, i :: !AntiAt(ranks[r], l, i, KeyOf(anti))
    ensures KeyOf(anti) !in ranks[r].cancelled
  {
    hide LedgerOk, LedgerOf, LpsOk, FloorOk, Placed, Known, AntisHaveTombs, AntiAt, StartedFirst;
    var L := LedgerOf(cfg, ranks, multiset{anti});
    var R := ranks[r];
    assert RankOk(cfg, m, r, R);
    HandIsKnown(cfg, ranks, anti);
    forall l, i ensures !AntiAt(R, l, i, KeyOf(anti)) {
      if AntiAt(R, l, i, KeyOf(anti)) {
        AntiAtIs(R, l, i, KeyOf(anti));
        LoggedIsKnown(cfg, ranks, multiset{anti}, r, l, i);
        KnownAntisAgree(L, R.lps[l].processed[i].ev, anti);
        assert false;
      }
    }
  }

  lemma AntiAtIs(r: Rank, l: LPId, i: int, k: UidKey)
    requires AntiAt(r, l, i, k)
    ensures l in r.lps && 0 <= i < |r.lps[l].processed|
    ensures r.lps[l].processed[i].ev.isAnti && KeyOf(r.lps[l].processed[i].ev) == k
  {
  }

  /** The event of an anti-message carries its stamp and destination, wherever it is logged. */
  lemma TwinStamp(cfg: Config, ranks: seq<Rank>, hand: multiset<Event>, anti: Event, e: Event)
    requires LedgerOk(LedgerOf(cfg, ranks, hand))
    requires Known(LedgerOf(cfg, ranks, hand), anti) && anti.isAnti
    requires Known(LedgerOf(cfg, ranks, hand), e) && !e.isAnti && KeyOf(e) == KeyOf(anti)
    ensures IsAntiOf(anti, e)
  {
    hide LedgerOf, LedgerOk;
    KnownIsStamped(LedgerOf(cfg, ranks, hand), anti);
  }

  lemma FoundStamp(cfg: Config, ranks: seq<Rank>, r: nat, anti: Event, l: LPId, i: nat)
    requires Placed(cfg, ranks) && LedgerOk(LedgerOf(cfg, ranks, multiset{anti})) && r < |ranks| && anti.isAnti
    requires l in ranks[r].lps && i < |ranks[r].lps[l].processed|
    requires !ranks[r].lps[l].processed[i].ev.isAnti && KeyOf(ranks[r].lps[l].processed[i].ev) == KeyOf(anti)
    ensures ranks[r].lps[l].processed[i].ev.ts == anti.ts
  {
    hide LedgerOk, LedgerOf, Placed, Known;
    HandIsKnown(cfg, ranks, anti);
    LoggedIsKnown(cfg, ranks, multiset{anti}, r, l, i);
    TwinStamp(cfg, ranks, multiset{anti}, anti, ranks[r].lps[l].processed[i].ev);
  }

  lemma FoundAt(cfg: Config, ranks: seq<Rank>, r: nat, anti: Event)
    requires Placed(cfg, ranks) && LedgerOk(LedgerOf(cfg, ranks, multiset{anti})) && r < |ranks| && anti.isAnti
    requires anti.dst in ranks[r].lps
    ensures FindProcessed(ranks[r].lps[anti.dst].processed, KeyOf(anti)).Some? ==>
      FindProcessed(ranks[r].lps[anti.dst].processed, KeyOf(anti)).value == anti.ts
  {
    hide LedgerOk, LedgerOf, Placed, FindProcessed;
    var log := ranks[r].lps[anti.dst].processed;
    FindProcessedStamp(log, KeyOf(anti));
    if FindProcessed(log, KeyOf(anti)).Some? {
      var i :| 0 <= i < |log| && !log[i].ev.isAnti && KeyOf(log[i].ev) == KeyOf(anti)
               && log[i].ev.ts == FindProcessed(log, KeyOf(anti)).value;
      FoundStamp(cfg, ranks, r, anti, anti.dst, i);
    }
  }

  /* ---- Tombstones ---- */

  lemma {:induction false} UndoCancelsCommutes(cancelled: map<UidKey, TimeStamp>, key: UidKey, ts: TimeStamp, undone: seq<Record>)
    requires forall i :: 0 <= i < |undone| && undone[i].ev.isAnti ==> KeyOf(undone[i].ev) != key
    ensures UndoCancels(cancelled[key := ts], undone) == UndoCancels(cancelled, undone)[key := ts]
    decreases |undone|
  {
    if |undone| > 0 {
      var n := |undone| - 1;
      var rec := undone[n];
      assert UndoCancel(cancelled[key := ts], rec) == UndoCancel(cancelled, rec)[key := ts];
      UndoCancelsCommutes(UndoCancel(cancelled, rec), key, ts, undone[..n]);
    }
  }

  /** A rank with the anti-message's tombstone added. */
  function Buried(r: Rank, anti: Event): Rank {
    r.(cancelled := r.cancelled[KeyOf(anti) := anti.ts])
  }

  /** After an optional rollback of the tombstoned rank, logging the anti-message makes the
      tombstones agree again. */
  lemma AntiTombs(r: Rank, l: LPId, k: nat, anti: Event, rec: Record, u: Rank)
    requires TombsOk(r) && UniqueAntis(r) && anti.isAnti && KeyOf(anti) !in r.cancelled
    requires l in r.lps && k <= |r.lps[l].processed|
    requires forall p, i :: !AntiAt(r, p, i, KeyOf(anti))
    requires rec.ev == anti && !rec.cancelHadEntry
    requires u.lps.Keys == r.lps.Keys
    requires forall p :: p in r.lps && p != l ==> u.lps[p].processed == r.lps[p].processed
    requires u.lps[l].processed == r.lps[l].processed[..k] + [rec]
    requires u.cancelled == UndoCancels(r.cancelled[KeyOf(anti) := anti.ts], r.lps[l].processed[k..])
    ensures TombsOk(u)
  {
    var log := r.lps[l].processed;
    forall i | 0 <= i < |log[k..]| && log[k..][i].ev.isAnti ensures KeyOf(log[k..][i].ev) != KeyOf(anti) {
      assert AntiAt(r, l, k + i, KeyOf(log[k..][i].ev));
    }
    UndoCancelsCommutes(r.cancelled, KeyOf(anti), anti.ts, log[k..]);
    var v := WithLp(r, l, r.lps[l].(processed := log[..k])).(cancelled := UndoCancels(r.cancelled, log[k..]));
    hide UndoCancels, TombsHaveAntis, AntisHaveTombs, UniqueAntis;
    CutKeepsTombs(r, l, k, v);
    AntiTombGone(r, l, k, anti);
    PushAntiKeepsTombs(v, l, rec, u);
  }

  lemma AntiTombGone(r: Rank, l: LPId, k: nat, anti: Event)
    requires AntisHaveTombs(r) && KeyOf(anti) !in r.cancelled
    requires l in r.lps && k <= |r.lps[l].processed|
    ensures KeyOf(anti) !in UndoCancels(r.cancelled, r.lps[l].processed[k..])
  {
    var log := r.lps[l].processed;
    forall i | 0 <= i < |log[k..]| && log[k..][i].ev.isAnti ensures !log[k..][i].cancelHadEntry {
      assert AntiAt(r, l, k + i, KeyOf(log[k..][i].ev));
    }
    UndoCancelsExactly(r.cancelled, log[k..]);
  }

  /* ---- Cancelling ---- */

  /** No event with this key is left in the log. */
  ghost predicate NoTwin(recs: seq<Record>, anti: Event) {
    forall i :: 0 <= i < |recs| ==> !IsAntiOf(anti, recs[i].ev)
  }

  /** What cancelling leaves behind: a rank in order but for the tombstone, whose anti-message is
      still in hand, with the log cut after its first `k` records. */
  ghost predicate CancelDone(cfg: Config, m: Model, ranks: seq<Rank>, r: nat, anti: Event, v: Rank, k: nat)
    requires r < |ranks|
  {
    var l := anti.dst;
    && Hosts(ranks[r], l) && Hosts(v, l) && k <= |ranks[r].lps[l].processed|
    && !v.aborted && LpsOk(cfg, m, v) && FloorOk(cfg, r, v) && StartedFirst(v)
    && v.lps == ranks[r].lps[l := v.lps[l]]
    && v.lps[l].processed == ranks[r].lps[l].processed[..k]
    && v.lps[l].vt.Le(anti.ts) && v.lastGvt == ranks[r].lastGvt && v.past[l].started == ranks[r].past[l].started
    && v.cancelled == UndoCancels(Buried(ranks[r], anti).cancelled, ranks[r].lps[l].processed[k..])
    && Placed(cfg, ranks[r := v]) && LedgerOk(LedgerOf(cfg, ranks[r := v], multiset{anti}))
    && NoTwin(v.lps[l].processed, anti)
  }

  /** The tombstone alone disturbs nothing but the tombstones. */
  lemma BuriedOk(cfg: Config, m: Model, ranks: seq<Rank>, r: nat, anti: Event)
    requires AllOk(cfg, m, ranks, multiset{anti}) && r < |ranks| && anti.dst in ranks[r].lps
    ensures
      var x := Buried(ranks[r], anti);
      && Hosts(x, anti.dst) && cfg.rankOf(anti.dst) == r
      && !x.aborted && LpsOk(cfg, m, x) && FloorOk(cfg, r, x) && StartedFirst(x)
      && Placed(cfg, ranks[r := x]) && LedgerOk(LedgerOf(cfg, ranks[r := x], multiset{anti}))
  {
    hide LpOk, TombsOk, LedgerOk, LedgerOf, TrafficAbove, WireOut, RecordsAbove, PastBelow;
    var R := ranks[r];
    var x := Buried(R, anti);
    assert RankOk(cfg, m, r, R);
    InHistoryLp(cfg, ranks, r, anti.dst);
    PutSame(R.lps, anti.dst);
    PutSame(R.past, anti.dst);
    SameBooksStill(cfg, ranks, r, anti.dst, x, multiset{anti}, multiset{anti});
    BuriedFloor(cfg, r, R, anti);
  }

  lemma BuriedFloor(cfg: Config, me: RankId, r: Rank, anti: Event)
    requires FloorOk(cfg, me, r)
    ensures FloorOk(cfg, me, Buried(r, anti))
  {
    hide RecordsAbove, PastBelow;
  }

  lemma CancelNone(cfg: Config, m: Model, ranks: seq<Rank>, r: nat, anti: Event)
    requires AllOk(cfg, m, ranks, multiset{anti}) && r < |ranks| && anti.dst in ranks[r].lps && anti.isAnti
    requires ranks[r].lps[anti.dst].vt.Le(anti.ts)
    requires FindProcessed(ranks[r].lps[anti.dst].processed, KeyOf(anti)).None?
    ensures CancelDone(cfg, m, ranks, r, anti, Buried(ranks[r], anti), |ranks[r].lps[anti.dst].processed|)
  {
    hide AllOk, LpsOk, FloorOk, StartedFirst, Placed, LedgerOk, LedgerOf, FindProcessed;
    var l := anti.dst;
    var log := ranks[r].lps[l].processed;
    BuriedOk(cfg, m, ranks, r, anti);
    FindProcessedStamp(log, KeyOf(anti));
    TakeAll(log);
    PutSame(ranks[r].lps, l);
    assert log[|log|..] == [];
  }

  lemma CancelSome(cfg: Config, m: Model, ranks: seq<Rank>, r: nat, anti: Event)
    requires GoodModel(m) && AllOk(cfg, m, ranks, multiset{anti}) && r < |ranks| && anti.dst in ranks[r].lps
    requires ranks[r].lastGvt.Le(anti.ts) && anti.ts != ZERO
    ensures CancelDone(cfg, m, ranks, r, anti, Rollback(cfg, r, Buried(ranks[r], anti), anti.dst, anti.ts),
                       Cut(ranks[r].lps[anti.dst].processed, anti.ts))
  {
    hide AllOk, LpsOk, FloorOk, StartedFirst, Placed, LedgerOk, LedgerOf, Rollback, UndoCancels, DisciplinedModel,
         CausalModel, Cut, NoTwin;
    var l := anti.dst;
    var x := Buried(ranks[r], anti);
    var v := Rollback(cfg, r, x, l, anti.ts);
    BuriedOk(cfg, m, ranks, r, anti);
    RollbackShape(cfg, m, r, x, l, anti.ts);
    RewindLogs(x.lps[l], x.lps[l].processed[Cut(x.lps[l].processed, anti.ts)..], anti.ts);
    RollbackLpsOk(cfg, m, r, x, l, anti.ts);
    RollbackFloor(cfg, m, r, x, l, anti.ts);
    RollbackStarted(cfg, m, r, x, l, anti.ts);
    RollbackBooks(cfg, m, ranks[r := x], r, l, anti.ts, multiset{anti});
    assert ranks[r := x][r := v] == ranks[r := v];
    PrevStampIsPredecessor(anti.ts);
    assert v.lps[l].vt == PrevStamp(anti.ts) by { RewindVt(x.lps[l], x.lps[l].processed[Cut(x.lps[l].processed, anti.ts)..], anti.ts); }
    CutNoTwin(cfg, m, x, l, anti);
  }

  lemma RewindVt(ctx: LpContext, undone: seq<Record>, to: TimeStamp)
    ensures Rewind(ctx, undone, to).vt == PrevStamp(to)
  {
  }

  lemma CutNoTwin(cfg: Config, m: Model, r: Rank, l: LPId, anti: Event)
    requires LpsOk(cfg, m, r) && l in r.lps
    ensures NoTwin(r.lps[l].processed[..Cut(r.lps[l].processed, anti.ts)], anti)
  {
    hide Replays, SendsLogged;
    assert LpOk(cfg, m, l, r.lps[l], r.past[l]);
    var all := AllRecords(r.lps[l], r.past[l]);
    var recs := r.lps[l].processed;
    var k := Cut(recs, anti.ts);
    var n := |r.past[l].committed|;
    forall i | 0 <= i < k ensures recs[i].ev.ts.Lt(anti.ts) {
      assert recs[i] == all[n + i] && recs[k - 1] == all[n + k - 1];
    }
  }

  /* ---- Logging the anti-message ---- */

  lemma PushAntiOk(cfg: Config, m: Model, ranks: seq<Rank>, r: nat, anti: Event, v: Rank, k: nat)
    requires AllOk(cfg, m, ranks, multiset{anti}) && r < |ranks| && anti.isAnti
    requires ranks[r].lastGvt.Le(anti.ts)
    requires CancelDone(cfg, m, ranks, r, anti, v, k) && ranks[r].past[anti.dst].started
    ensures AllOk(cfg, m, ranks[r := PushRecord(v, anti.dst, AntiRecord(ranks[r], anti))], multiset{})
  {
    hide LpsOk, FloorOk, StartedFirst, Placed, LedgerOk, LedgerOf, UndoCancels, TombsOk, NoTwin;
    var R := ranks[r];
    var l := anti.dst;
    var rec := AntiRecord(R, anti);
    var u := PushRecord(v, l, rec);
    assert RankOk(cfg, m, r, R);
    NoTombFor(cfg, m, ranks, r, anti);
    AntisAreUnique(cfg, ranks, multiset{anti}, r);
    PushAntiKeeps(cfg, m, v, l, rec);
    AntiTombs(R, l, k, anti, rec, u);
    PushAntiFloor(cfg, m, r, v, l, rec);
    PushAntiBooks(cfg, ranks[r := v], r, v, anti, rec);
    assert ranks[r := v][r := u] == ranks[r := u];
    RanksOkWith(cfg, m, ranks, r, u);
  }

  lemma PushAntiFloor(cfg: Config, m: Model, me: RankId, v: Rank, l: LPId, rec: Record)
    requires FloorOk(cfg, me, v) && StartedFirst(v) && Hosts(v, l) && v.lastGvt.Le(rec.ev.ts)
    requires v.past[l].started
    ensures FloorOk(cfg, me, PushRecord(v, l, rec)) && StartedFirst(PushRecord(v, l, rec))
  {
    hide PastBelow;
    var u := PushRecord(v, l, rec);
    PutSame(v.past, l);
    assert RecordsAbove(v.lps[l].processed, v.lastGvt);
    assert RecordsAbove(u.lps[l].processed, v.lastGvt);
    LogsWith(v, l, u, v.lastGvt);
  }

  lemma PushAntiBooks(cfg: Config, ranks: seq<Rank>, r: nat, v: Rank, anti: Event, rec: Record)
    requires Placed(cfg, ranks) && r < |ranks| && ranks[r] == v && Hosts(v, anti.dst)
    requires LedgerOk(LedgerOf(cfg, ranks, multiset{anti}))
    requires rec.ev == anti && anti.isAnti && NoTwin(v.lps[anti.dst].processed, anti)
    requires FloorOk(cfg, r, v) && v.lastGvt.Le(anti.ts)
    ensures Placed(cfg, ranks[r := PushRecord(v, anti.dst, rec)])
    ensures LedgerOk(LedgerOf(cfg, ranks[r := PushRecord(v, anti.dst, rec)], multiset{}))
  {
    hide Placed, LedgerOk, LedgerOf;
    var l := anti.dst;
    var u := PushRecord(v, l, rec);
    PutSame(v.past, l);
    assert PastBelow(v.past[l], v.lastGvt);
    var h := AccountIn(v.lps[l], v.past[l]).hist;
    var n := |v.past[l].committed|;
    forall x | x in h ensures !IsAntiOf(anti, x) && !IsAntiOf(x, anti) {
      var i :| 0 <= i < |h| && h[i] == x;
      if i < n {
        assert h[i] == v.past[l].committed[i].ev;
      } else {
        assert h[i] == v.lps[l].processed[i - n].ev;
      }
    }
    PushBooks(cfg, ranks, r, u, anti);
  }

  /* ---- The whole dispatch ---- */

  lemma AntiOk(cfg: Config, m: Model, ranks: seq<Rank>, r: nat, anti: Event)
    requires GoodModel(m) && AllOk(cfg, m, ranks, multiset{anti}) && r < |ranks| && anti.dst in ranks[r].lps
    requires anti.isAnti && ranks[r].lps[anti.dst].vt.Le(anti.ts) && ranks[r].lastGvt.Le(anti.ts)
    requires anti.dst in ranks[r].past && ranks[r].past[anti.dst].started
    ensures AllOk(cfg, m, ranks[r := DispatchAnti(cfg, r, ranks[r], anti)], multiset{})
  {
    hide RanksOk, Placed, LedgerOk, LedgerOf, FindProcessed, Rollback, CancelDone, DisciplinedModel, CausalModel, PushRecord;
    var R := ranks[r];
    HandIsKnown(cfg, ranks, anti);
    NoTombFor(cfg, m, ranks, r, anti);
    assert Bury(R, anti) == Buried(R, anti);
    if FindProcessed(R.lps[anti.dst].processed, KeyOf(anti)).None? {
      CancelNone(cfg, m, ranks, r, anti);
      PushAntiOk(cfg, m, ranks, r, anti, Buried(R, anti), |R.lps[anti.dst].processed|);
    } else {
      FoundAt(cfg, ranks, r, anti);
      CancelSome(cfg, m, ranks, r, anti);
      PushAntiOk(cfg, m, ranks, r, anti, Rollback(cfg, r, Buried(R, anti), anti.dst, anti.ts),
                 Cut(R.lps[anti.dst].processed, anti.ts));
    }
  }
}
