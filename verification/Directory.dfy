/** The directory's ownership timeline (src/directory_lp.hpp): who owns an entity at a time, how
    updates and pruning change that, and how the whole is saved and loaded. */
module Directory {
  import opened Stamps
  import opened Events
  import opened Wire

  type Timeline = map<TimeStamp, LPId>
  type History = map<EntityId, Timeline>

  datatype Update = Update(entity: EntityId, newOwner: LPId, sendInstall: bool, installPayload: Payload)

  datatype DirectoryConfig = DirectoryConfig(
    id: LPId,
    stateEntityId: EntityId,
    updateOwnerKind: u32,
    decodeUpdate: Option<Event -> Update>,
    logsMigrations: bool,
    fossilCollectKind: u32,
    decodeFossilCollect: Option<Event -> TimeStamp>,
    defaultOwner: (EntityId, TimeStamp) -> LPId)

  /** What handling an event leads to, besides the change of the timeline. */
  datatype Reaction =
    | Threw
    | Pruned
    | Updated(install: Option<Event>, log: Option<(EntityId, LPId, LPId, bool)>)
    | Forwarded(ev: Event)

  /* ---- Who owns an entity ---- */

  /** The last entry not after a time. */
  ghost predicate IsFloor(t: Timeline, ts: TimeStamp, k: TimeStamp) {
    k in t && k.Le(ts) && forall j :: j in t && j.Le(ts) ==> j.Le(k)
  }

  ghost predicate FloorAt(h: History, e: EntityId, ts: TimeStamp, k: TimeStamp) {
    e in h && IsFloor(h[e], ts, k)
  }

  ghost function OwnerAt(defaultOwner: (EntityId, TimeStamp) -> LPId, h: History, e: EntityId, ts: TimeStamp): LPId {
    if k :| FloorAt(h, e, ts, k) then h[e][k] else defaultOwner(e, ts)
  }

  lemma FloorIsUnique(t: Timeline, ts: TimeStamp, j: TimeStamp, k: TimeStamp)
    requires IsFloor(t, ts, j) && IsFloor(t, ts, k)
    ensures j == k
  {
  }

  lemma {:induction false} FloorExists(t: Timeline, ts: TimeStamp, j: TimeStamp) returns (k: TimeStamp)
    requires j in t && j.Le(ts)
    ensures IsFloor(t, ts, k)
    decreases |t|
  {
    if i :| i in t && i.Le(ts) && j.Lt(i) {
      var rest := t - {j};
      assert rest.Keys == t.Keys - {j};
      assert |rest.Keys| == |rest| && |t.Keys| == |t|;
      k := FloorExists(rest, ts, i);
      assert forall x :: x in t && x.Le(ts) ==> x == j || x in rest;
    } else {
      k := j;
    }
  }

  /* ---- Updates and pruning ---- */

  function SetOwner(h: History, e: EntityId, ts: TimeStamp, owner: LPId): History {
    h[e := (if e in h then h[e] else map[])[ts := owner]]
  }

  /** At most one entry before the GVT is kept: the one still in force there. */
  ghost function PruneTimeline(t: Timeline, gvt: TimeStamp): Timeline {
    map k | k in t && !(exists f :: IsFloor(t, gvt, f) && k.Lt(f)) :: t[k]
  }

  ghost function PruneHistory(h: History, gvt: TimeStamp): History {
    map e | e in h && h[e] != map[] :: PruneTimeline(h[e], gvt)
  }

  datatype Op = SetAt(entity: EntityId, ts: TimeStamp, owner: LPId) | PruneAt(gvt: TimeStamp)

  /** The timeline of a directory that prunes when told to. */
  ghost function Pruning(ops: seq<Op>): History
    decreases |ops|
  {
    if |ops| == 0 then map[]
    else
      var before := Pruning(ops[..|ops| - 1]);
      match ops[|ops| - 1]
      case SetAt(e, ts, owner) => SetOwner(before, e, ts, owner)
      case PruneAt(gvt) => PruneHistory(before, gvt)
  }

  /** The timeline of a directory that never prunes. */
  ghost function Keeping(ops: seq<Op>): History
    decreases |ops|
  {
    if |ops| == 0 then map[]
    else
      var before := Keeping(ops[..|ops| - 1]);
      match ops[|ops| - 1]
      case SetAt(e, ts, owner) => SetOwner(before, e, ts, owner)
      case PruneAt(_) => before
  }

  /** Not before any GVT pruned to so far. */
  ghost predicate AfterPrunes(ops: seq<Op>, ts: TimeStamp) {
    forall i :: 0 <= i < |ops| && ops[i].PruneAt? ==> ops[i].gvt.Le(ts)
  }

  /** Two timelines with the same entries in force at a time. */
  ghost predicate SameAt(h: History, H: History, e: EntityId, ts: TimeStamp) {
    forall k :: FloorAt(h, e, ts, k) || FloorAt(H, e, ts, k) ==>
      FloorAt(h, e, ts, k) && FloorAt(H, e, ts, k) && h[e][k] == H[e][k]
  }

  lemma PruneKeepsFloor(h: History, gvt: TimeStamp, e: EntityId, ts: TimeStamp)
    requires gvt.Le(ts)
    ensures SameAt(PruneHistory(h, gvt), h, e, ts)
  {
    var u := PruneHistory(h, gvt);
    forall k | FloorAt(h, e, ts, k) ensures FloorAt(u, e, ts, k) && u[e][k] == h[e][k] {
      assert k in PruneTimeline(h[e], gvt);
    }
    forall k | FloorAt(u, e, ts, k) ensures FloorAt(h, e, ts, k) && u[e][k] == h[e][k] {
      var f := FloorExists(h[e], ts, k);
      assert FloorAt(h, e, ts, f);
      assert f in PruneTimeline(h[e], gvt);
    }
  }

  lemma SetFloor(h: History, e: EntityId, at: TimeStamp, owner: LPId, ts: TimeStamp, k: TimeStamp)
    ensures FloorAt(SetOwner(h, e, at, owner), e, ts, k) <==>
      if at.Le(ts) && (forall f :: FloorAt(h, e, ts, f) ==> f.Le(at)) then k == at else FloorAt(h, e, ts, k)
  {
    var t := if e in h then h[e] else map[];
    if at.Le(ts) && forall f :: FloorAt(h, e, ts, f) ==> f.Le(at) {
      forall j | j in t && j.Le(ts) ensures j.Le(at) {
        var f := FloorExists(t, ts, j);
        assert FloorAt(h, e, ts, f);
      }
    } else if at.Le(ts) {
      var f :| FloorAt(h, e, ts, f) && !f.Le(at);
    }
  }

  /** No entry of an entity is after `at` and not after `ts`. */
  ghost predicate NoneBetween(h: History, e: EntityId, at: TimeStamp, ts: TimeStamp) {
    e in h ==> forall j :: j in h[e] && at.Lt(j) ==> ts.Lt(j)
  }

  /** What an update does to the answers: from its time on, up to the entity's next later entry, the
      owner is the new one; every other question, of this or another entity, is answered as before. */
  lemma UpdateDecides(defaultOwner: (EntityId, TimeStamp) -> LPId, h: History, e: EntityId, at: TimeStamp, owner: LPId,
                      p: EntityId, ts: TimeStamp)
    ensures OwnerAt(defaultOwner, SetOwner(h, e, at, owner), p, ts)
         == if p == e && at.Le(ts) && NoneBetween(h, e, at, ts) then owner else OwnerAt(defaultOwner, h, p, ts)
  {
    hide OwnerAt;
    var u := SetOwner(h, e, at, owner);
    if p == e && at.Le(ts) && NoneBetween(h, e, at, ts) {
      assert FloorAt(u, e, ts, at);
      OwnerIs(defaultOwner, u, e, ts, at);
    } else {
      OthersKeepFloor(h, e, at, owner, p, ts);
      SameOwner(defaultOwner, u, h, p, ts);
    }
  }

  /** The new owner answers from the time of an update up to the entity's next later entry, and nothing
      else has changed. */
  ghost predicate TakesOver(defaultOwner: (EntityId, TimeStamp) -> LPId, h: History, H: History, e: EntityId, at: TimeStamp, owner: LPId) {
    forall p, ts :: OwnerAt(defaultOwner, H, p, ts)
      == if p == e && at.Le(ts) && NoneBetween(h, e, at, ts) then owner else OwnerAt(defaultOwner, h, p, ts)
  }

  lemma UpdateTakesOver(defaultOwner: (EntityId, TimeStamp) -> LPId, h: History, e: EntityId, at: TimeStamp, owner: LPId)
    ensures TakesOver(defaultOwner, h, SetOwner(h, e, at, owner), e, at, owner)
  {
    hide OwnerAt, SetOwner, NoneBetween;
    forall p, ts
      ensures OwnerAt(defaultOwner, SetOwner(h, e, at, owner), p, ts)
           == if p == e && at.Le(ts) && NoneBetween(h, e, at, ts) then owner else OwnerAt(defaultOwner, h, p, ts)
    {
      UpdateDecides(defaultOwner, h, e, at, owner, p, ts);
    }
  }

  lemma OthersKeepFloor(h: History, e: EntityId, at: TimeStamp, owner: LPId, p: EntityId, ts: TimeStamp)
    requires p != e || ts.Lt(at) || !NoneBetween(h, e, at, ts)
    ensures SameAt(SetOwner(h, e, at, owner), h, p, ts)
  {
    var u := SetOwner(h, e, at, owner);
    if p != e {
      assert forall k :: FloorAt(u, p, ts, k) <==> FloorAt(h, p, ts, k);
    } else if at.Le(ts) {
      var j :| j in h[e] && at.Lt(j) && j.Le(ts);
      var f := FloorExists(h[e], ts, j);
      forall k | FloorAt(u, e, ts, k) || FloorAt(h, e, ts, k)
        ensures FloorAt(u, e, ts, k) && FloorAt(h, e, ts, k) && u[e][k] == h[e][k]
      {
        SetFloor(h, e, at, owner, ts, k);
        assert FloorAt(h, e, ts, f) && at.Lt(f);
      }
    }
  }

  lemma SetKeepsSame(h: History, H: History, e: EntityId, at: TimeStamp, owner: LPId, p: EntityId, ts: TimeStamp)
    requires SameAt(h, H, p, ts)
    ensures SameAt(SetOwner(h, e, at, owner), SetOwner(H, e, at, owner), p, ts)
  {
    var u, U := SetOwner(h, e, at, owner), SetOwner(H, e, at, owner);
    if p == e {
      forall k | FloorAt(u, e, ts, k) || FloorAt(U, e, ts, k)
        ensures FloorAt(u, e, ts, k) && FloorAt(U, e, ts, k) && u[e][k] == U[e][k]
      {
        SetFloor(h, e, at, owner, ts, k);
        SetFloor(H, e, at, owner, ts, k);
      }
    } else {
      assert forall k :: FloorAt(u, p, ts, k) <==> FloorAt(h, p, ts, k);
      assert forall k :: FloorAt(U, p, ts, k) <==> FloorAt(H, p, ts, k);
    }
  }

  lemma SameTwice(h: History, u: History, H: History, e: EntityId, ts: TimeStamp)
    requires SameAt(u, h, e, ts) && SameAt(h, H, e, ts)
    ensures SameAt(u, H, e, ts)
  {
  }

  lemma {:induction false} PruningKeepsFloors(ops: seq<Op>, e: EntityId, ts: TimeStamp)
    requires AfterPrunes(ops, ts)
    ensures SameAt(Pruning(ops), Keeping(ops), e, ts)
    decreases |ops|
  {
    hide SameAt;
    if |ops| == 0 {
      NothingSame(e, ts);
    } else {
      var n := |ops| - 1;
      var h, H := Pruning(ops[..n]), Keeping(ops[..n]);
      PruningKeepsFloors(ops[..n], e, ts);
      match ops[n] {
        case SetAt(p, at, owner) => SetKeepsSame(h, H, p, at, owner, e, ts);
        case PruneAt(gvt) =>
          PruneKeepsFloor(h, gvt, e, ts);
          SameTwice(h, PruneHistory(h, gvt), H, e, ts);
      }
    }
  }

  lemma NothingSame(e: EntityId, ts: TimeStamp)
    ensures SameAt(map[], map[], e, ts)
  {
  }

  lemma SameOwner(defaultOwner: (EntityId, TimeStamp) -> LPId, h: History, H: History, e: EntityId, ts: TimeStamp)
    requires SameAt(h, H, e, ts)
    ensures OwnerAt(defaultOwner, h, e, ts) == OwnerAt(defaultOwner, H, e, ts)
  {
    if k :| FloorAt(h, e, ts, k) {
      OwnerIs(defaultOwner, h, e, ts, k);
      OwnerIs(defaultOwner, H, e, ts, k);
    } else {
      assert forall k :: !FloorAt(H, e, ts, k);
    }
  }

  lemma OwnerIs(defaultOwner: (EntityId, TimeStamp) -> LPId, h: History, e: EntityId, ts: TimeStamp, k: TimeStamp)
    requires FloorAt(h, e, ts, k)
    ensures OwnerAt(defaultOwner, h, e, ts) == h[e][k]
  {
    forall j | FloorAt(h, e, ts, j) ensures j == k { FloorIsUnique(h[e], ts, j, k); }
  }

  /** Pruning is invisible: however updates and prunes are interleaved, a query at or after every GVT
      pruned to is answered as by a directory that never prunes. */
  lemma PruningIsInvisible(defaultOwner: (EntityId, TimeStamp) -> LPId, ops: seq<Op>, e: EntityId, ts: TimeStamp)
    requires AfterPrunes(ops, ts)
    ensures OwnerAt(defaultOwner, Pruning(ops), e, ts) == OwnerAt(defaultOwner, Keeping(ops), e, ts)
  {
    PruningKeepsFloors(ops, e, ts);
    SameOwner(defaultOwner, Pruning(ops), Keeping(ops), e, ts);
  }

  /** The update that decides a question: of those to the entity and not after the time asked for, one
      of the greatest time, and of several of that time the last made. */
  ghost predicate Decides(ops: seq<Op>, i: nat, e: EntityId, ts: TimeStamp) {
    && i < |ops| && ops[i].SetAt? && ops[i].entity == e && ops[i].ts.Le(ts)
    && forall j :: 0 <= j < |ops| && ops[j].SetAt? && ops[j].entity == e && ops[j].ts.Le(ts) ==>
         ops[j].ts.Lt(ops[i].ts) || (ops[j].ts == ops[i].ts && j <= i)
  }

  /** The answer the whole history of updates calls for. */
  ghost predicate Answers(defaultOwner: (EntityId, TimeStamp) -> LPId, ops: seq<Op>, e: EntityId, ts: TimeStamp, owner: LPId) {
    || (exists i: nat :: Decides(ops, i, e, ts) && owner == ops[i].owner)
    || ((forall i :: 0 <= i < |ops| && ops[i].SetAt? && ops[i].entity == e ==> ts.Lt(ops[i].ts)) && owner == defaultOwner(e, ts))
  }

  /** The entries of a directory that never prunes are the times of its updates. */
  lemma {:induction false} EntriesAreUpdates(ops: seq<Op>, e: EntityId, k: TimeStamp)
    ensures e in Keeping(ops) && k in Keeping(ops)[e] <==> exists i :: 0 <= i < |ops| && ops[i].SetAt? && ops[i].entity == e && ops[i].ts == k
    decreases |ops|
  {
    if |ops| > 0 {
      var front := ops[..|ops| - 1];
      EntriesAreUpdates(front, e, k);
      if i :| 0 <= i < |front| && front[i].SetAt? && front[i].entity == e && front[i].ts == k {
        assert ops[i] == front[i];
      }
      if i :| 0 <= i < |ops| && ops[i].SetAt? && ops[i].entity == e && ops[i].ts == k && i < |front| {
        assert front[i] == ops[i];
      }
    }
  }

  lemma {:induction false} KeepingAnswers(defaultOwner: (EntityId, TimeStamp) -> LPId, ops: seq<Op>, e: EntityId, ts: TimeStamp)
    ensures Answers(defaultOwner, ops, e, ts, OwnerAt(defaultOwner, Keeping(ops), e, ts))
    decreases |ops|
  {
    hide OwnerAt, SetOwner;
    if |ops| == 0 {
      NoEntriesYet(defaultOwner, e, ts);
    } else {
      var n := |ops| - 1;
      var front, op := ops[..n], ops[n];
      KeepingAnswers(defaultOwner, front, e, ts);
      if op.PruneAt? || op.entity != e || ts.Lt(op.ts) {
        if op.SetAt? { UpdateDecides(defaultOwner, Keeping(front), op.entity, op.ts, op.owner, e, ts); }
        AnswersStand(defaultOwner, ops, e, ts, OwnerAt(defaultOwner, Keeping(front), e, ts));
      } else {
        UpdateDecides(defaultOwner, Keeping(front), e, op.ts, op.owner, e, ts);
        NewestAnswers(defaultOwner, ops, e, ts);
      }
    }
  }

  lemma NoEntriesYet(defaultOwner: (EntityId, TimeStamp) -> LPId, e: EntityId, ts: TimeStamp)
    ensures OwnerAt(defaultOwner, map[], e, ts) == defaultOwner(e, ts)
  {
    assert forall k :: !FloorAt(map[], e, ts, k);
  }

  /** An operation that does not bear on a question leaves its answer. */
  lemma AnswersStand(defaultOwner: (EntityId, TimeStamp) -> LPId, ops: seq<Op>, e: EntityId, ts: TimeStamp, owner: LPId)
    requires |ops| > 0 && Answers(defaultOwner, ops[..|ops| - 1], e, ts, owner)
    requires
      var op := ops[|ops| - 1];
      op.PruneAt? || op.entity != e || ts.Lt(op.ts)
    ensures Answers(defaultOwner, ops, e, ts, owner)
  {
    var front := ops[..|ops| - 1];
    if i: nat :| Decides(front, i, e, ts) && owner == front[i].owner {
      assert Decides(ops, i, e, ts) by {
        forall j | 0 <= j < |ops| && ops[j].SetAt? && ops[j].entity == e && ops[j].ts.Le(ts)
          ensures ops[j].ts.Lt(ops[i].ts) || (ops[j].ts == ops[i].ts && j <= i)
        {
          assert front[j] == ops[j];
        }
      }
    } else {
      forall i | 0 <= i < |ops| && ops[i].SetAt? && ops[i].entity == e ensures ts.Lt(ops[i].ts) {
        if i < |front| { assert front[i] == ops[i]; }
      }
    }
  }

  /** A new update decides unless an earlier made one has a later time. */
  lemma NewestAnswers(defaultOwner: (EntityId, TimeStamp) -> LPId, ops: seq<Op>, e: EntityId, ts: TimeStamp)
    requires |ops| > 0
    requires
      var front, op := ops[..|ops| - 1], ops[|ops| - 1];
      op.SetAt? && op.entity == e && op.ts.Le(ts) && Answers(defaultOwner, front, e, ts, OwnerAt(defaultOwner, Keeping(front), e, ts))
    ensures
      var front, op := ops[..|ops| - 1], ops[|ops| - 1];
      Answers(defaultOwner, ops, e, ts,
        if NoneBetween(Keeping(front), e, op.ts, ts) then op.owner else OwnerAt(defaultOwner, Keeping(front), e, ts))
  {
    hide OwnerAt, Keeping;
    var n := |ops| - 1;
    var front, op := ops[..n], ops[n];
    var h := Keeping(front);
    if NoneBetween(h, e, op.ts, ts) {
      assert Decides(ops, n, e, ts) by {
        forall j | 0 <= j < |ops| && ops[j].SetAt? && ops[j].entity == e && ops[j].ts.Le(ts)
          ensures ops[j].ts.Lt(op.ts) || (ops[j].ts == op.ts && j <= n)
        {
          if j < n {
            assert front[j] == ops[j];
            EntriesAreUpdates(front, e, ops[j].ts);
          }
        }
      }
    } else {
      var k :| k in h[e] && op.ts.Lt(k) && k.Le(ts);
      EntriesAreUpdates(front, e, k);
      var j :| 0 <= j < |front| && front[j].SetAt? && front[j].entity == e && front[j].ts == k;
      var i: nat :| Decides(front, i, e, ts) && OwnerAt(defaultOwner, h, e, ts) == front[i].owner;
      assert front[i] == ops[i] && k.Le(front[i].ts);
      assert Decides(ops, i, e, ts) by {
        forall j | 0 <= j < |ops| && ops[j].SetAt? && ops[j].entity == e && ops[j].ts.Le(ts)
          ensures ops[j].ts.Lt(ops[i].ts) || (ops[j].ts == ops[i].ts && j <= i)
        {
          if j < n { assert front[j] == ops[j]; }
        }
      }
    }
  }

  /** A directory answers by its updates: however updates and prunes are interleaved, a query at or after
      every GVT pruned to names the new owner of the entity's last update not after the time asked
      for, by time and then by order of arrival, or the default owner if there is none. */
  lemma AnswersByLastUpdate(defaultOwner: (EntityId, TimeStamp) -> LPId, ops: seq<Op>, e: EntityId, ts: TimeStamp)
    requires AfterPrunes(ops, ts)
    ensures Answers(defaultOwner, ops, e, ts, OwnerAt(defaultOwner, Pruning(ops), e, ts))
  {
    hide OwnerAt;
    KeepingAnswers(defaultOwner, ops, e, ts);
    PruningIsInvisible(defaultOwner, ops, e, ts);
  }

  lemma OneMoreOp(ops: seq<Op>, op: Op)
    ensures Pruning(ops + [op])
         == if op.SetAt? then SetOwner(Pruning(ops), op.entity, op.ts, op.owner) else PruneHistory(Pruning(ops), op.gvt)
    ensures Keeping(ops + [op]) == if op.SetAt? then SetOwner(Keeping(ops), op.entity, op.ts, op.owner) else Keeping(ops)
  {
    assert (ops + [op])[..|ops|] == ops;
  }

  /** Exactly which answers a prune changes: of a query before the entry in force at the GVT, that
      had an entry to go by, and now goes by the default, where that is another owner. */
  lemma PruneChangesAnswerJustIf(defaultOwner: (EntityId, TimeStamp) -> LPId, h: History, gvt: TimeStamp, e: EntityId, ts: TimeStamp)
    ensures OwnerAt(defaultOwner, PruneHistory(h, gvt), e, ts) != OwnerAt(defaultOwner, h, e, ts) <==>
      exists k, f :: FloorAt(h, e, ts, k) && FloorAt(h, e, gvt, f) && k.Lt(f) && h[e][k] != defaultOwner(e, ts)
  {
    hide OwnerAt, PruneTimeline;
    if k, f :| FloorAt(h, e, ts, k) && FloorAt(h, e, gvt, f) && k.Lt(f) {
      OwnerIs(defaultOwner, h, e, ts, k);
      NothingLeftBefore(defaultOwner, h, gvt, e, ts, k, f);
      forall j | FloorAt(h, e, ts, j) ensures j == k { FloorIsUnique(h[e], ts, j, k); }
    } else {
      OtherAnswersStay(h, gvt, e, ts);
      SameOwner(defaultOwner, PruneHistory(h, gvt), h, e, ts);
    }
  }

  lemma NothingLeftBefore(defaultOwner: (EntityId, TimeStamp) -> LPId, h: History, gvt: TimeStamp, e: EntityId, ts: TimeStamp,
                          k: TimeStamp, f: TimeStamp)
    requires FloorAt(h, e, ts, k) && FloorAt(h, e, gvt, f) && k.Lt(f)
    ensures OwnerAt(defaultOwner, PruneHistory(h, gvt), e, ts) == defaultOwner(e, ts)
  {
    var u := PruneHistory(h, gvt);
    forall j | j in h[e] && j.Le(ts) ensures j !in u[e] { assert j.Le(k) && j.Lt(f) && IsFloor(h[e], gvt, f); }
    assert forall j :: !FloorAt(u, e, ts, j);
  }

  lemma OtherAnswersStay(h: History, gvt: TimeStamp, e: EntityId, ts: TimeStamp)
    requires forall k, f :: FloorAt(h, e, ts, k) && FloorAt(h, e, gvt, f) ==> f.Le(k)
    ensures SameAt(PruneHistory(h, gvt), h, e, ts)
  {
    var u := PruneHistory(h, gvt);
    forall k | FloorAt(h, e, ts, k) ensures FloorAt(u, e, ts, k) && u[e][k] == h[e][k] {
      forall f | IsFloor(h[e], gvt, f) ensures !k.Lt(f) { assert FloorAt(h, e, gvt, f); }
      assert k in PruneTimeline(h[e], gvt);
    }
    forall k | FloorAt(u, e, ts, k) ensures FloorAt(h, e, ts, k) && u[e][k] == h[e][k] {
      var f := FloorExists(h[e], ts, k);
      assert FloorAt(h, e, ts, f) && FloorAt(u, e, ts, f);
    }
  }

  /** Before a GVT pruned to the answers may differ: an entry that was in force there is gone. */
  lemma EarlierQueriesMayDiffer() returns (ops: seq<Op>, ts: TimeStamp)
    ensures !AfterPrunes(ops, ts)
    ensures OwnerAt((e, t) => 0, Pruning(ops), 1, ts) != OwnerAt((e, t) => 0, Keeping(ops), 1, ts)
  {
    var a, b := TimeStamp(1, 1), TimeStamp(2, 1);
    var first, second := SetAt(1, a, 7), SetAt(1, b, 8);
    ops := [first, second, PruneAt(b)];
    ts := a;
    assert ops[2].PruneAt?;
    var one: History := map[1 := map[a := 7]];
    var h: History := map[1 := map[a := 7, b := 8]];
    OneMoreOp([], first);
    OneMoreOp([first], second);
    OneMoreOp([first, second], PruneAt(b));
    assert [] + [first] == [first] && [first] + [second] == [first, second] && [first, second] + [PruneAt(b)] == ops;
    assert SetOwner(map[], 1, a, 7) == one && SetOwner(one, 1, b, 8) == h;
    assert FloorAt(h, 1, a, a);
    OwnerIs((e, t) => 0, h, 1, a, a);
    assert IsFloor(h[1], b, b);
    assert a !in PruneHistory(h, b)[1];
    assert forall k :: !FloorAt(PruneHistory(h, b), 1, a, k);
  }

  /* ---- The directory ---- */

  class DirectoryLP {
    const cfg: DirectoryConfig
    var ownerHistory: History

    constructor (cfg: DirectoryConfig)
      requires cfg.id != 0
      ensures this.cfg == cfg && ownerHistory == map[]
    {
      this.cfg := cfg;
      ownerHistory := map[];
    }

    /** The last entry of a timeline not after a time, if there is one. */
    method Floor(t: Timeline, ts: TimeStamp) returns (k: Option<TimeStamp>)
      ensures k.Some? ==> IsFloor(t, ts, k.value)
      ensures k.None? ==> forall j :: j in t ==> ts.Lt(j)
    {
      k := None;
      var rest := t.Keys;
      while rest != {}
        invariant rest <= t.Keys
        invariant k.None? ==> forall j :: j in t && j !in rest ==> ts.Lt(j)
        invariant k.Some? ==> k.value in t && k.value.Le(ts)
                              && forall j :: j in t && j !in rest && j.Le(ts) ==> j.Le(k.value)
      {
        var j :| j in rest;
        rest := rest - {j};
        if !ts.Lt(j) && (k.None? || k.value.Lt(j)) { k := Some(j); }
      }
    }

    method OwnerOf(e: EntityId, ts: TimeStamp) returns (owner: LPId)
      ensures owner == OwnerAt(cfg.defaultOwner, ownerHistory, e, ts)
    {
      if e !in ownerHistory { return cfg.defaultOwner(e, ts); }
      var k := Floor(ownerHistory[e], ts);
      if k.None? {
        assert forall j :: !FloorAt(ownerHistory, e, ts, j);
        return cfg.defaultOwner(e, ts);
      }
      OwnerIs(cfg.defaultOwner, ownerHistory, e, ts, k.value);
      owner := ownerHistory[e][k.value];
    }

    /** One timeline without its entries before the one in force at the GVT. */
    method Trim(t: Timeline, gvt: TimeStamp) returns (u: Timeline)
      ensures u == PruneTimeline(t, gvt)
    {
      var keep := Floor(t, gvt);
      if keep.None? {
        assert forall f :: !IsFloor(t, gvt, f);
        return t;
      }
      u := map k | k in t && !k.Lt(keep.value) :: t[k];
      forall f | IsFloor(t, gvt, f) ensures f == keep.value { FloorIsUnique(t, gvt, f, keep.value); }
    }

    /** Trims every timeline and forgets entities without entries. */
    method Prune(gvt: TimeStamp)
      modifies this
      ensures ownerHistory == PruneHistory(old(ownerHistory), gvt)
    {
      ghost var all := ownerHistory;
      var todo := ownerHistory.Keys;
      while todo != {}
        invariant todo <= all.Keys
        invariant ownerHistory == map e | e in all && (e in todo || all[e] != map[])
                                  :: if e in todo then all[e] else PruneTimeline(all[e], gvt)
      {
        var e :| e in todo;
        todo := todo - {e};
        if ownerHistory[e] == map[] {
          ownerHistory := ownerHistory - {e};
        } else {
          var trimmed := Trim(ownerHistory[e], gvt);
          ownerHistory := ownerHistory[e := trimmed];
        }
      }
    }

    /** A prune request, an ownership update, or a targeted event to forward to its owner. */
    method OnEvent(ev: Event) returns (reaction: Reaction)
      modifies this
      ensures
        var prunes := cfg.fossilCollectKind != 0 && ev.payload.kind == cfg.fossilCollectKind;
        var updates := !prunes && cfg.updateOwnerKind != 0 && ev.payload.kind == cfg.updateOwnerKind;
        && (prunes ==>
              if cfg.decodeFossilCollect.None? || cfg.stateEntityId == 0 then reaction == Threw && ownerHistory == old(ownerHistory)
              else reaction == Pruned && ownerHistory == PruneHistory(old(ownerHistory), cfg.decodeFossilCollect.value(ev)))
        && (updates ==>
              if cfg.decodeUpdate.None? || cfg.stateEntityId == 0 then reaction == Threw && ownerHistory == old(ownerHistory)
              else
                var u := cfg.decodeUpdate.value(ev);
                var previous := OwnerAt(cfg.defaultOwner, old(ownerHistory), u.entity, ev.ts);
                && ownerHistory == SetOwner(old(ownerHistory), u.entity, ev.ts, u.newOwner)
                && TakesOver(cfg.defaultOwner, old(ownerHistory), ownerHistory, u.entity, ev.ts, u.newOwner)
                && reaction == Updated(
                     if u.sendInstall then Some(Event(ev.ts, cfg.id, u.newOwner, u.entity, 0, u.installPayload, 0, false)) else None,
                     if cfg.logsMigrations then Some((u.entity, previous, u.newOwner, u.sendInstall)) else None))
        && (!prunes && !updates ==>
              && ownerHistory == old(ownerHistory)
              && reaction == if ev.target == 0 then Threw
                             else Forwarded(ev.(src := cfg.id, dst := OwnerAt(cfg.defaultOwner, ownerHistory, ev.target, ev.ts),
                                                uid := 0, ts := TimeStamp(ev.ts.time, 0))))
    {
      hide TakesOver, OwnerAt, PruneHistory;
      if cfg.fossilCollectKind != 0 && ev.payload.kind == cfg.fossilCollectKind {
        if cfg.decodeFossilCollect.None? || cfg.stateEntityId == 0 { return Threw; }
        var gvt := cfg.decodeFossilCollect.value(ev);
        Prune(gvt);
        return Pruned;
      }
      if cfg.updateOwnerKind != 0 && ev.payload.kind == cfg.updateOwnerKind {
        if cfg.decodeUpdate.None? || cfg.stateEntityId == 0 { return Threw; }
        var u := cfg.decodeUpdate.value(ev);
        var previous := OwnerOf(u.entity, ev.ts);
        var t := if u.entity in ownerHistory then ownerHistory[u.entity] else map[];
        UpdateTakesOver(cfg.defaultOwner, ownerHistory, u.entity, ev.ts, u.newOwner);
        ownerHistory := ownerHistory[u.entity := t[ev.ts := u.newOwner]];
        var install := if u.sendInstall then Some(Event(ev.ts, cfg.id, u.newOwner, u.entity, 0, u.installPayload, 0, false)) else None;
        var log := if cfg.logsMigrations then Some((u.entity, previous, u.newOwner, u.sendInstall)) else None;
        return Updated(install, log);
      }
      if ev.target == 0 { return Threw; }
      var owner := OwnerOf(ev.target, ev.ts);
      reaction := Forwarded(ev.(src := cfg.id, dst := owner, uid := 0, ts := ev.ts.(sequence := 0)));
    }
  }

  /** An ownership update, then a question: from the time of the update on, up to the entity's next later
      entry, the answer is the new owner; otherwise it is what it was before. */
  method AskAfterUpdate(d: DirectoryLP, ev: Event, e: EntityId, ts: TimeStamp) returns (owner: LPId)
    requires d.cfg.fossilCollectKind == 0 || ev.payload.kind != d.cfg.fossilCollectKind
    requires d.cfg.updateOwnerKind != 0 && ev.payload.kind == d.cfg.updateOwnerKind
    requires d.cfg.decodeUpdate.Some? && d.cfg.stateEntityId != 0
    modifies d
    ensures
      var u := d.cfg.decodeUpdate.value(ev);
      owner == if e == u.entity && ev.ts.Le(ts) && NoneBetween(old(d.ownerHistory), e, ev.ts, ts) then u.newOwner
               else OwnerAt(d.cfg.defaultOwner, old(d.ownerHistory), e, ts)
  {
    hide OwnerAt, NoneBetween;
    var reaction := d.OnEvent(ev);
    owner := d.OwnerOf(e, ts);
  }
}
