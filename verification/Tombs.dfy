/** Tombstones: a rank's cancellation map holds exactly the keys of the anti-messages that are in
    some processed log, with their stamps. */
module Tombs {
  import opened Stamps
  import opened Events
  import opened Models
  import opened Kernel
  import opened Replay
  import opened LpInvariant
  import opened RankSteps
  import opened Collections

  /** The i-th record of an LP's log is an anti-message with this key. */
  ghost predicate AntiAt(r: Rank, l: LPId, i: int, k: UidKey) {
    l in r.lps && 0 <= i < |r.lps[l].processed| && r.lps[l].processed[i].ev.isAnti
    && KeyOf(r.lps[l].processed[i].ev) == k
  }

  /** Every tombstone has its anti-message in a log. */
  ghost predicate TombsHaveAntis(r: Rank) {
    forall k :: k in r.cancelled ==>
      exists l, i :: AntiAt(r, l, i, k) && r.lps[l].processed[i].ev.ts == r.cancelled[k]
  }

  /** Every logged anti-message has its tombstone, and found none when it came. */
  ghost predicate AntisHaveTombs(r: Rank) {
    forall l, i, k :: AntiAt(r, l, i, k) ==>
      && k in r.cancelled && r.cancelled[k] == r.lps[l].processed[i].ev.ts
      && !r.lps[l].processed[i].cancelHadEntry
  }

  ghost predicate TombsOk(r: Rank) {
    TombsHaveAntis(r) && AntisHaveTombs(r)
  }

  /** No two logged anti-messages of a rank share a key. */
  ghost predicate UniqueAntis(r: Rank) {
    forall l, i, p, j, k :: AntiAt(r, l, i, k) && AntiAt(r, p, j, k) ==> l == p && i == j
  }

  /** Undoing records takes away exactly the tombstones of their anti-messages. */
  lemma {:induction false} UndoCancelsExactly(cancelled: map<UidKey, TimeStamp>, undone: seq<Record>)
    requires forall i :: 0 <= i < |undone| && undone[i].ev.isAnti ==> !undone[i].cancelHadEntry
    ensures forall k :: k in UndoCancels(cancelled, undone) <==>
      k in cancelled && forall i :: 0 <= i < |undone| && undone[i].ev.isAnti ==> KeyOf(undone[i].ev) != k
    ensures forall k :: k in UndoCancels(cancelled, undone) ==> UndoCancels(cancelled, undone)[k] == cancelled[k]
    decreases |undone|
  {
    if |undone| > 0 {
      var n := |undone| - 1;
      UndoCancelsExactly(UndoCancel(cancelled, undone[n]), undone[..n]);
    }
  }

  /** An LP's log lost its records from `k` on, and their tombstones are gone. */
  ghost predicate CutBack(r: Rank, l: LPId, k: nat, u: Rank) {
    && l in r.lps && k <= |r.lps[l].processed|
    && u.lps.Keys == r.lps.Keys
    && (forall p :: p in r.lps && p != l ==> u.lps[p].processed == r.lps[p].processed)
    && u.lps[l].processed == r.lps[l].processed[..k]
    && u.cancelled == UndoCancels(r.cancelled, r.lps[l].processed[k..])
  }

  lemma CutCancels(r: Rank, l: LPId, k: nat, u: Rank)
    requires AntisHaveTombs(r) && CutBack(r, l, k, u)
    ensures forall key :: key in u.cancelled <==>
      key in r.cancelled && forall i :: k <= i ==> !AntiAt(r, l, i, key)
    ensures forall key :: key in u.cancelled ==> u.cancelled[key] == r.cancelled[key]
  {
    var log := r.lps[l].processed;
    var undone := log[k..];
    forall i | 0 <= i < |undone| && undone[i].ev.isAnti ensures !undone[i].cancelHadEntry {
      assert AntiAt(r, l, k + i, KeyOf(undone[i].ev));
    }
    UndoCancelsExactly(r.cancelled, undone);
    forall key
      ensures key in u.cancelled <==> key in r.cancelled && forall i :: k <= i ==> !AntiAt(r, l, i, key)
    {
      forall i | k <= i ensures AntiAt(r, l, i, key) ==> undone[i - k] == log[i] {}
      forall i | 0 <= i < |undone| ensures undone[i].ev.isAnti && KeyOf(undone[i].ev) == key ==> AntiAt(r, l, k + i, key) {}
    }
  }

  lemma CutTombsHaveAntis(r: Rank, l: LPId, k: nat, u: Rank)
    requires TombsOk(r) && CutBack(r, l, k, u)
    ensures TombsHaveAntis(u)
  {
    hide UndoCancels;
    CutCancels(r, l, k, u);
    forall key | key in u.cancelled
      ensures exists p, i :: AntiAt(u, p, i, key) && u.lps[p].processed[i].ev.ts == u.cancelled[key]
    {
      var p, i :| AntiAt(r, p, i, key) && r.lps[p].processed[i].ev.ts == r.cancelled[key];
      assert AntiAt(u, p, i, key);
    }
  }

  lemma CutAntisHaveTombs(r: Rank, l: LPId, k: nat, u: Rank)
    requires TombsOk(r) && UniqueAntis(r) && CutBack(r, l, k, u)
    ensures AntisHaveTombs(u)
  {
    hide UndoCancels, TombsHaveAntis;
    CutCancels(r, l, k, u);
    forall p, i, key | AntiAt(u, p, i, key)
      ensures key in u.cancelled && u.cancelled[key] == u.lps[p].processed[i].ev.ts
      ensures !u.lps[p].processed[i].cancelHadEntry
    {
      assert AntiAt(r, p, i, key);
    }
  }

  lemma CutKeepsTombs(r: Rank, l: LPId, k: nat, u: Rank)
    requires TombsOk(r) && UniqueAntis(r) && CutBack(r, l, k, u)
    ensures TombsOk(u)
  {
    hide TombsHaveAntis, AntisHaveTombs, UniqueAntis, CutBack;
    CutTombsHaveAntis(r, l, k, u);
    CutAntisHaveTombs(r, l, k, u);
  }

  lemma PushEventKeepsTombs(r: Rank, l: LPId, rec: Record, u: Rank)
    requires TombsOk(r) && l in r.lps && !rec.ev.isAnti
    requires u.lps.Keys == r.lps.Keys
    requires forall p :: p in r.lps && p != l ==> u.lps[p].processed == r.lps[p].processed
    requires u.lps[l].processed == r.lps[l].processed + [rec]
    requires u.cancelled == r.cancelled
    ensures TombsOk(u)
  {
    forall p, i, key ensures AntiAt(u, p, i, key) <==> AntiAt(r, p, i, key) {}
    forall key | key in u.cancelled
      ensures exists p, i :: AntiAt(u, p, i, key) && u.lps[p].processed[i].ev.ts == u.cancelled[key]
    {
      var p, i :| AntiAt(r, p, i, key) && r.lps[p].processed[i].ev.ts == r.cancelled[key];
      assert AntiAt(u, p, i, key);
    }
  }

  lemma PushAntiKeepsTombs(r: Rank, l: LPId, rec: Record, u: Rank)
    requires TombsOk(r) && l in r.lps && rec.ev.isAnti && !rec.cancelHadEntry
    requires KeyOf(rec.ev) !in r.cancelled
    requires u.lps.Keys == r.lps.Keys
    requires forall p :: p in r.lps && p != l ==> u.lps[p].processed == r.lps[p].processed
    requires u.lps[l].processed == r.lps[l].processed + [rec]
    requires u.cancelled == r.cancelled[KeyOf(rec.ev) := rec.ev.ts]
    ensures TombsOk(u)
  {
    var n := |r.lps[l].processed|;
    forall key | key in u.cancelled
      ensures exists p, i :: AntiAt(u, p, i, key) && u.lps[p].processed[i].ev.ts == u.cancelled[key]
    {
      if key == KeyOf(rec.ev) {
        assert AntiAt(u, l, n, key);
      } else {
        var p, i :| AntiAt(r, p, i, key) && r.lps[p].processed[i].ev.ts == r.cancelled[key];
        assert AntiAt(u, p, i, key);
      }
    }
    forall p, i, key | AntiAt(u, p, i, key)
      ensures key in u.cancelled && u.cancelled[key] == u.lps[p].processed[i].ev.ts
      ensures !u.lps[p].processed[i].cancelHadEntry
    {
      if p != l || i < n { assert AntiAt(r, p, i, key); }
    }
  }

  lemma SameLogsKeepTombs(r: Rank, u: Rank)
    requires TombsOk(r)
    requires u.lps.Keys == r.lps.Keys && u.cancelled == r.cancelled
    requires forall p :: p in r.lps ==> u.lps[p].processed == r.lps[p].processed
    ensures TombsOk(u)
  {
    forall p, i, key ensures AntiAt(u, p, i, key) <==> AntiAt(r, p, i, key) {}
    forall key | key in u.cancelled
      ensures exists p, i :: AntiAt(u, p, i, key) && u.lps[p].processed[i].ev.ts == u.cancelled[key]
    {
      var p, i :| AntiAt(r, p, i, key) && r.lps[p].processed[i].ev.ts == r.cancelled[key];
      assert AntiAt(u, p, i, key);
    }
  }

  /** Exactly the first `f` records are below `gvt`. */
  ghost predicate Divides(recs: seq<Record>, f: nat, gvt: TimeStamp) {
    f <= |recs| && forall i :: 0 <= i < |recs| ==> (i < f <==> recs[i].ev.ts.Lt(gvt))
  }

  lemma FossilsDivide(recs: seq<Record>, gvt: TimeStamp)
    requires SortedRecords(recs)
    ensures Divides(recs, Fossils(recs, gvt), gvt)
  {
    var f := Fossils(recs, gvt);
    forall i | f < i < |recs| ensures !recs[i].ev.ts.Lt(gvt) {
      assert recs[f].ev.ts.Le(recs[i].ev.ts);
    }
  }

  /** An LP's log lost its first `f` records, those below `gvt`. */
  lemma AntiAtShifted(r: Rank, u: Rank, p: LPId, gvt: TimeStamp) returns (f: nat)
    requires p in r.lps && p in u.lps && SortedRecords(r.lps[p].processed)
    requires u.lps[p].processed == r.lps[p].processed[Fossils(r.lps[p].processed, gvt)..]
    ensures forall i, k :: AntiAt(u, p, i, k) ==>
      AntiAt(r, p, f + i, k) && u.lps[p].processed[i] == r.lps[p].processed[f + i]
      && !u.lps[p].processed[i].ev.ts.Lt(gvt)
    ensures forall i, k :: AntiAt(r, p, i, k) && !r.lps[p].processed[i].ev.ts.Lt(gvt) ==>
      AntiAt(u, p, i - f, k) && u.lps[p].processed[i - f] == r.lps[p].processed[i]
  {
    hide SortedRecords, Fossils;
    FossilsDivide(r.lps[p].processed, gvt);
    f := Fossils(r.lps[p].processed, gvt);
  }

  ghost predicate Pruned(r: Rank, gvt: TimeStamp, u: Rank) {
    && u.lps.Keys == r.lps.Keys
    && (forall p :: p in r.lps ==>
          SortedRecords(r.lps[p].processed)
          && u.lps[p].processed == r.lps[p].processed[Fossils(r.lps[p].processed, gvt)..])
    && u.cancelled == map k | k in r.cancelled && !r.cancelled[k].Lt(gvt) :: r.cancelled[k]
  }

  lemma PruneTombsHaveAntis(r: Rank, gvt: TimeStamp, u: Rank)
    requires TombsHaveAntis(r) && Pruned(r, gvt, u)
    ensures TombsHaveAntis(u)
  {
    hide SortedRecords, Fossils;
    forall key | key in u.cancelled
      ensures exists p, i :: AntiAt(u, p, i, key) && u.lps[p].processed[i].ev.ts == u.cancelled[key]
    {
      var p, i :| AntiAt(r, p, i, key) && r.lps[p].processed[i].ev.ts == r.cancelled[key];
      var f := AntiAtShifted(r, u, p, gvt);
      assert AntiAt(u, p, i - f, key);
    }
  }

  lemma PruneAntisHaveTombs(r: Rank, gvt: TimeStamp, u: Rank)
    requires AntisHaveTombs(r) && Pruned(r, gvt, u)
    ensures AntisHaveTombs(u)
  {
    hide SortedRecords, Fossils;
    forall p, i, key | AntiAt(u, p, i, key)
      ensures key in u.cancelled && u.cancelled[key] == u.lps[p].processed[i].ev.ts
      ensures !u.lps[p].processed[i].cancelHadEntry
    {
      var f := AntiAtShifted(r, u, p, gvt);
      assert AntiAt(r, p, f + i, key);
    }
  }

  /** Pruning drops a tombstone just when it drops the record of its anti-message. */
  lemma PruneKeepsTombs(r: Rank, gvt: TimeStamp, u: Rank)
    requires TombsOk(r) && Pruned(r, gvt, u)
    ensures TombsOk(u)
  {
    PruneTombsHaveAntis(r, gvt, u);
    PruneAntisHaveTombs(r, gvt, u);
  }
}
