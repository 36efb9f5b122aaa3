/** The life of messages, apart from ranks and protocols.

    A ledger lists, for each LP, every event it ever sent and every anti-message it ever sent, the
    sends it still stands by (its log), and the messages it has taken up (its history), together
    with the bag of messages that are on their way or waiting.  The kernel moves messages between
    these places; the invariant says that each message ever sent is always in exactly one. */
module Ledgers {
  import opened Stamps
  import opened Events
  import opened Kernel

  datatype Account = Account(
    hist: seq<Event>,
    log: seq<SentRecord>,
    sent: seq<Event>,
    antis: map<Uid, Event>)

  datatype Ledger = Ledger(
    bag: multiset<Event>,
    dropped: multiset<Event>,
    accts: map<LPId, Account>)

  ghost predicate IsAntiOf(a: Event, e: Event) {
    a.isAnti && !e.isAnti && a.src == e.src && a.uid == e.uid && a.dst == e.dst && a.ts == e.ts
  }

  /* ---- The invariant ---- */

  ghost predicate SentOk(l: LPId, a: Account) {
    forall i :: 0 <= i < |a.sent| ==>
      a.sent[i].src == l && a.sent[i].uid == i + 1 && !a.sent[i].isAnti && a.sent[i].ts.sequence != 0
  }

  ghost predicate AntisOk(a: Account) {
    forall u :: u in a.antis ==> 1 <= u <= |a.sent| && IsAntiOf(a.antis[u], a.sent[u - 1])
  }

  ghost predicate EntryOk(a: Account, entry: SentRecord) {
    && 1 <= entry.uid <= |a.sent|
    && entry.uid !in a.antis
    && entry.msgTime == a.sent[entry.uid - 1].ts
    && entry.dst == a.sent[entry.uid - 1].dst
  }

  ghost predicate Increasing(log: seq<SentRecord>) {
    forall i, j :: 0 <= i < j < |log| ==> log[i].uid < log[j].uid
  }

  ghost predicate HasUid(log: seq<SentRecord>, u: int) {
    exists j :: 0 <= j < |log| && log[j].uid == u
  }

  /** The log lists exactly the events that have not been cancelled, in the order they were sent. */
  ghost predicate LogListsLive(a: Account) {
    && (forall i :: 0 <= i < |a.log| ==> EntryOk(a, a.log[i]))
    && Increasing(a.log)
    && (forall u :: 1 <= u <= |a.sent| && u !in a.antis ==> HasUid(a.log, u))
  }

  ghost predicate AccountOk(l: LPId, a: Account) {
    SentOk(l, a) && AntisOk(a) && LogListsLive(a)
  }

  /** A message that was sent: the event or the anti-message of its source and uid. */
  ghost predicate Known(L: Ledger, e: Event) {
    && e.src in L.accts
    && 1 <= e.uid <= |L.accts[e.src].sent|
    && if e.isAnti then e.uid in L.accts[e.src].antis && L.accts[e.src].antis[e.uid] == e
       else L.accts[e.src].sent[e.uid - 1] == e
  }

  ghost predicate Cancelled(L: Ledger, e: Event) {
    e.src in L.accts && e.uid in L.accts[e.src].antis
  }

  ghost function Hist(L: Ledger, l: LPId): seq<Event> {
    if l in L.accts then L.accts[l].hist else []
  }

  /** In how many places a message is. */
  ghost function Places(L: Ledger, e: Event): nat {
    L.bag[e] + L.dropped[e] + multiset(Hist(L, e.dst))[e]
  }

  ghost predicate AccountsOk(L: Ledger) {
    forall l :: l in L.accts ==> AccountOk(l, L.accts[l])
  }

  ghost predicate BagOk(L: Ledger) {
    && (forall e :: e in L.bag ==> Known(L, e))
    && (forall e :: e in L.dropped ==> Known(L, e) && !e.isAnti && Cancelled(L, e))
  }

  ghost predicate HistOk(L: Ledger) {
    forall l, e :: l in L.accts && e in L.accts[l].hist ==> e.dst == l && Known(L, e)
  }

  ghost predicate OnePlace(L: Ledger) {
    forall e :: Known(L, e) ==> Places(L, e) == 1
  }

  /** No history holds both an event and its anti-message. */
  ghost predicate Unopposed(hist: seq<Event>) {
    forall a, e :: a in hist && e in hist ==> !IsAntiOf(a, e)
  }

  ghost predicate NoneOpposed(L: Ledger) {
    forall l :: l in L.accts ==> Unopposed(L.accts[l].hist)
  }

  ghost predicate LedgerOk(L: Ledger) {
    AccountsOk(L) && BagOk(L) && HistOk(L) && OnePlace(L) && NoneOpposed(L)
  }

  /* ---- The moves ---- */

  /** A waiting event is thrown away. */
  ghost function Drop(L: Ledger, e: Event): Ledger {
    L.(bag := L.bag - multiset{e}, dropped := L.dropped + multiset{e})
  }

  /** A waiting message is taken up by its destination. */
  ghost function TakeUp(L: Ledger, e: Event): Ledger
    requires e.dst in L.accts
  {
    var a := L.accts[e.dst];
    L.(bag := L.bag - multiset{e}, accts := L.accts[e.dst := a.(hist := a.hist + [e])])
  }

  /** The end of a history goes back to waiting. */
  ghost function PutBack(L: Ledger, l: LPId, k: nat): Ledger
    requires l in L.accts && k <= |L.accts[l].hist|
  {
    var a := L.accts[l];
    L.(bag := L.bag + multiset(a.hist[k..]), accts := L.accts[l := a.(hist := a.hist[..k])])
  }

  /** An LP sends an event and logs it. */
  ghost function Issue(L: Ledger, l: LPId, e: Event, entry: SentRecord): Ledger
    requires l in L.accts
  {
    var a := L.accts[l];
    L.(bag := L.bag + multiset{e},
       accts := L.accts[l := a.(sent := a.sent + [e], log := a.log + [entry])])
  }

  /** An LP takes back its newest send with an anti-message. */
  ghost function Revoke(L: Ledger, l: LPId, anti: Event): Ledger
    requires l in L.accts && |L.accts[l].log| > 0
  {
    var a := L.accts[l];
    L.(bag := L.bag + multiset{anti},
       accts := L.accts[l := a.(antis := a.antis[anti.uid := anti], log := a.log[..|a.log| - 1])])
  }

  /* ---- Moves that leave what was sent alone ---- */

  /** Same sent events, anti-messages and logs. */
  ghost predicate SameBooks(L: Ledger, M: Ledger) {
    && M.accts.Keys == L.accts.Keys
    && forall l :: l in L.accts ==> M.accts[l] == L.accts[l].(hist := M.accts[l].hist)
  }

  lemma SameBooksKnown(L: Ledger, M: Ledger)
    requires SameBooks(L, M)
    ensures forall e :: Known(M, e) <==> Known(L, e)
    ensures forall e :: Cancelled(M, e) <==> Cancelled(L, e)
  {
  }

  lemma SameBooksAccounts(L: Ledger, M: Ledger)
    requires SameBooks(L, M) && AccountsOk(L)
    ensures AccountsOk(M)
  {
    forall l | l in M.accts ensures AccountOk(l, M.accts[l]) {
      var a := L.accts[l];
      assert AccountOk(l, a);
      AccountIgnoresHist(l, a, M.accts[l].hist);
    }
  }

  lemma AccountIgnoresHist(l: LPId, a: Account, hist: seq<Event>)
    requires AccountOk(l, a)
    ensures AccountOk(l, a.(hist := hist))
  {
    var b := a.(hist := hist);
    forall i | 0 <= i < |b.log| ensures EntryOk(b, b.log[i]) { assert EntryOk(a, a.log[i]); }
  }

  ghost predicate SamePlaces(L: Ledger, M: Ledger) {
    forall e :: Places(M, e) == Places(L, e)
  }

  /** A move that only shifts messages between places: what is where adds up to the same. */
  lemma ShiftKeeps(L: Ledger, M: Ledger)
    requires AccountsOk(L) && OnePlace(L)
    requires SameBooks(L, M) && SamePlaces(L, M)
    requires BagOk(M) && HistOk(M) && NoneOpposed(M)
    ensures LedgerOk(M)
  {
    hide Known, Places, Unopposed, AccountOk, BagOk, HistOk;
    SameBooksKnown(L, M);
    SameBooksAccounts(L, M);
  }

  /* Throwing away. */

  lemma DropPlaces(L: Ledger, e: Event)
    requires e in L.bag
    ensures SamePlaces(L, Drop(L, e))
  {
  }

  lemma DropBag(L: Ledger, e: Event)
    requires BagOk(L) && HistOk(L) && e in L.bag && !e.isAnti && Cancelled(L, e)
    ensures BagOk(Drop(L, e)) && HistOk(Drop(L, e))
  {
    hide Known, Cancelled;
    SameBooksKnown(L, Drop(L, e));
  }

  lemma DropKeeps(L: Ledger, e: Event)
    requires LedgerOk(L) && e in L.bag && !e.isAnti && Cancelled(L, e)
    ensures LedgerOk(Drop(L, e))
  {
    hide Known, Places, Unopposed, AccountsOk, BagOk, HistOk, OnePlace;
    DropPlaces(L, e);
    DropBag(L, e);
    ShiftKeeps(L, Drop(L, e));
  }

  /* Taking up. */

  lemma TakeUpPlaces(L: Ledger, e: Event)
    requires e in L.bag && e.dst in L.accts
    ensures SamePlaces(L, TakeUp(L, e))
  {
  }

  lemma TakeUpBag(L: Ledger, e: Event)
    requires BagOk(L) && HistOk(L) && e in L.bag && e.dst in L.accts
    ensures BagOk(TakeUp(L, e)) && HistOk(TakeUp(L, e))
  {
    hide Known, Cancelled;
    var M := TakeUp(L, e);
    SameBooksKnown(L, M);
    forall l, x | l in M.accts && x in M.accts[l].hist ensures x.dst == l && Known(M, x) {
      assert x in L.accts[l].hist || x == e;
    }
  }

  lemma UnopposedSnoc(hist: seq<Event>, e: Event)
    requires Unopposed(hist)
    requires forall x :: x in hist ==> !IsAntiOf(e, x) && !IsAntiOf(x, e)
    ensures Unopposed(hist + [e])
  {
  }

  lemma TakeUpKeeps(L: Ledger, e: Event)
    requires LedgerOk(L) && e in L.bag && e.dst in L.accts
    requires forall x :: x in L.accts[e.dst].hist ==> !IsAntiOf(e, x) && !IsAntiOf(x, e)
    ensures LedgerOk(TakeUp(L, e))
  {
    hide Known, Places, Unopposed, AccountsOk, BagOk, HistOk, OnePlace;
    TakeUpPlaces(L, e);
    TakeUpBag(L, e);
    UnopposedSnoc(L.accts[e.dst].hist, e);
    ShiftKeeps(L, TakeUp(L, e));
  }

  /* Putting back. */

  lemma SplitCount(h: seq<Event>, k: nat)
    requires k <= |h|
    ensures multiset(h) == multiset(h[..k]) + multiset(h[k..])
  {
    assert h == h[..k] + h[k..];
  }

  lemma PutBackPlaces(L: Ledger, l: LPId, k: nat)
    requires HistOk(L) && l in L.accts && k <= |L.accts[l].hist|
    ensures SamePlaces(L, PutBack(L, l, k))
  {
    hide Known;
    var h := L.accts[l].hist;
    SplitCount(h, k);
    forall x ensures Places(PutBack(L, l, k), x) == Places(L, x) {
      assert x in h ==> x.dst == l;
      assert multiset(h[k..])[x] > 0 ==> x in h;
    }
  }

  lemma PutBackBag(L: Ledger, l: LPId, k: nat)
    requires BagOk(L) && HistOk(L) && l in L.accts && k <= |L.accts[l].hist|
    ensures BagOk(PutBack(L, l, k)) && HistOk(PutBack(L, l, k))
  {
    hide Known, Cancelled;
    var M := PutBack(L, l, k);
    SameBooksKnown(L, M);
    forall x | x in M.bag ensures Known(M, x) {
      assert x in L.bag || x in L.accts[l].hist;
    }
    forall p, x | p in M.accts && x in M.accts[p].hist ensures x.dst == p && Known(M, x) {
      assert x in L.accts[p].hist;
    }
  }

  lemma PutBackKeeps(L: Ledger, l: LPId, k: nat)
    requires LedgerOk(L) && l in L.accts && k <= |L.accts[l].hist|
    ensures LedgerOk(PutBack(L, l, k))
  {
    hide Known, Places, AccountsOk, BagOk, HistOk, OnePlace;
    PutBackPlaces(L, l, k);
    PutBackBag(L, l, k);
    ShiftKeeps(L, PutBack(L, l, k));
  }

  /* ---- Sending an event ---- */

  lemma IssueAccount(l: LPId, a: Account, e: Event, entry: SentRecord)
    requires AccountOk(l, a)
    requires e.src == l && e.uid == |a.sent| + 1 && !e.isAnti && e.ts.sequence != 0
    requires entry.uid == e.uid && entry.msgTime == e.ts && entry.dst == e.dst
    ensures AccountOk(l, a.(sent := a.sent + [e], log := a.log + [entry]))
  {
    var b := a.(sent := a.sent + [e], log := a.log + [entry]);
    forall i | 0 <= i < |b.log| ensures EntryOk(b, b.log[i]) {
      if i < |a.log| { assert EntryOk(a, a.log[i]); }
    }
    forall i, j | 0 <= i < j < |b.log| ensures b.log[i].uid < b.log[j].uid {
      assert EntryOk(a, a.log[i]);
    }
    forall u | 1 <= u <= |b.sent| && u !in b.antis ensures HasUid(b.log, u) {
      if u <= |a.sent| {
        assert HasUid(a.log, u);
        var j :| 0 <= j < |a.log| && a.log[j].uid == u;
        assert b.log[j].uid == u;
      } else {
        assert b.log[|a.log|].uid == u;
      }
    }
  }

  /** Sending makes exactly one message known. */
  lemma IssueKnown(L: Ledger, l: LPId, e: Event, entry: SentRecord)
    requires l in L.accts && AntisOk(L.accts[l])
    requires e.src == l && e.uid == |L.accts[l].sent| + 1 && !e.isAnti
    ensures !Known(L, e)
    ensures forall x :: Known(Issue(L, l, e, entry), x) <==> Known(L, x) || x == e
    ensures forall x :: Cancelled(Issue(L, l, e, entry), x) <==> Cancelled(L, x)
  {
    var sent := L.accts[l].sent;
    var M := Issue(L, l, e, entry);
    forall x ensures Known(M, x) <==> Known(L, x) || x == e {
      if x.src == l && 1 <= x.uid <= |sent| + 1 {
        assert x.uid <= |sent| ==> M.accts[l].sent[x.uid - 1] == sent[x.uid - 1];
        assert x.uid == |sent| + 1 ==> M.accts[l].sent[x.uid - 1] == e;
      }
    }
  }

  /** A message that is not known is nowhere. */
  lemma UnknownIsNowhere(L: Ledger, e: Event)
    requires BagOk(L) && HistOk(L) && !Known(L, e)
    ensures Places(L, e) == 0
  {
    hide Known, Cancelled;
    assert e in Hist(L, e.dst) ==> Known(L, e);
  }

  lemma AddPlaces(L: Ledger, M: Ledger, e: Event)
    requires OnePlace(L) && Places(L, e) == 0
    requires M.bag == L.bag + multiset{e} && M.dropped == L.dropped
    requires forall l :: Hist(M, l) == Hist(L, l)
    requires forall x :: Known(M, x) ==> Known(L, x) || x == e
    ensures OnePlace(M)
  {
    hide Known, Hist;
    forall x | Known(M, x) ensures Places(M, x) == 1 {
      assert Places(M, x) == Places(L, x) + if x == e then 1 else 0;
    }
  }

  lemma IssueBag(L: Ledger, l: LPId, e: Event, entry: SentRecord)
    requires BagOk(L) && HistOk(L) && l in L.accts && AntisOk(L.accts[l])
    requires e.src == l && e.uid == |L.accts[l].sent| + 1 && !e.isAnti
    ensures BagOk(Issue(L, l, e, entry)) && HistOk(Issue(L, l, e, entry))
  {
    hide Known, Cancelled;
    IssueKnown(L, l, e, entry);
  }

  lemma IssueKeeps(L: Ledger, l: LPId, e: Event, entry: SentRecord)
    requires LedgerOk(L) && l in L.accts
    requires e.src == l && e.uid == |L.accts[l].sent| + 1 && !e.isAnti && e.ts.sequence != 0
    requires entry.uid == e.uid && entry.msgTime == e.ts && entry.dst == e.dst
    ensures LedgerOk(Issue(L, l, e, entry))
  {
    hide Known, Places, BagOk, HistOk, OnePlace, Unopposed, SentOk, AntisOk, LogListsLive, Cancelled;
    IssueKnown(L, l, e, entry);
    IssueBag(L, l, e, entry);
    UnknownIsNowhere(L, e);
    AddPlaces(L, Issue(L, l, e, entry), e);
    IssueAccount(l, L.accts[l], e, entry);
  }

  /* ---- Sending an anti-message ---- */

  lemma RevokeAccount(l: LPId, a: Account, anti: Event)
    requires AccountOk(l, a) && |a.log| > 0
    requires
      var last := a.log[|a.log| - 1];
      anti.isAnti && anti.src == l && anti.uid == last.uid && anti.dst == last.dst && anti.ts == last.msgTime
    ensures anti.uid !in a.antis && 1 <= anti.uid <= |a.sent|
    ensures AccountOk(l, a.(antis := a.antis[anti.uid := anti], log := a.log[..|a.log| - 1]))
  {
    var n := |a.log| - 1;
    var b := a.(antis := a.antis[anti.uid := anti], log := a.log[..n]);
    assert EntryOk(a, a.log[n]);
    forall i | 0 <= i < |b.log| ensures EntryOk(b, b.log[i]) {
      assert EntryOk(a, a.log[i]);
      assert a.log[i].uid < a.log[n].uid;
    }
    forall u | 1 <= u <= |b.sent| && u !in b.antis ensures HasUid(b.log, u) {
      assert HasUid(a.log, u);
      var j :| 0 <= j < |a.log| && a.log[j].uid == u;
      assert b.log[j].uid == u;
    }
  }

  lemma RevokeKnown(L: Ledger, l: LPId, anti: Event)
    requires l in L.accts && |L.accts[l].log| > 0
    requires anti.isAnti && anti.src == l && 1 <= anti.uid <= |L.accts[l].sent| && anti.uid !in L.accts[l].antis
    ensures !Known(L, anti)
    ensures forall x :: Known(Revoke(L, l, anti), x) <==> Known(L, x) || x == anti
    ensures forall x :: Cancelled(L, x) ==> Cancelled(Revoke(L, l, anti), x)
  {
  }

  lemma RevokeBag(L: Ledger, l: LPId, anti: Event)
    requires BagOk(L) && HistOk(L) && l in L.accts && |L.accts[l].log| > 0
    requires anti.isAnti && anti.src == l && 1 <= anti.uid <= |L.accts[l].sent| && anti.uid !in L.accts[l].antis
    ensures BagOk(Revoke(L, l, anti)) && HistOk(Revoke(L, l, anti))
  {
    hide Known, Cancelled;
    RevokeKnown(L, l, anti);
  }

  lemma RevokeKeeps(L: Ledger, l: LPId, anti: Event)
    requires LedgerOk(L) && l in L.accts && |L.accts[l].log| > 0
    requires
      var last := L.accts[l].log[|L.accts[l].log| - 1];
      anti.isAnti && anti.src == l && anti.uid == last.uid && anti.dst == last.dst && anti.ts == last.msgTime
    ensures LedgerOk(Revoke(L, l, anti))
  {
    hide Known, Places, BagOk, HistOk, OnePlace, Unopposed, AccountOk, Cancelled;
    RevokeAccount(l, L.accts[l], anti);
    RevokeKnown(L, l, anti);
    RevokeBag(L, l, anti);
    UnknownIsNowhere(L, anti);
    AddPlaces(L, Revoke(L, l, anti), anti);
  }
}
