/** Events of equal stamps, in the order in which they were sent.

    Where stamps are not distinct, what settles the outcome is the order in which each LP takes up the
    events of one stamp.  A history is in send order when it goes by source and takes the events of
    one source in the order they were sent; the queue's order (stamp, source, uid) implies it.  There
    is at most one closed history in send order. */
module SendOrder {
  import opened Stamps
  import opened Events
  import opened Models
  import opened Kernel
  import opened LpInvariant
  import opened Ledgers
  import opened Books
  import opened Handling
  import opened Worlds
  import opened Gvt
  import opened Runs
  import opened Outputs
  import opened Closed
  import opened Sequential
  import opened Invisible
  import opened Equivalence

  /* ---- Messages at a stamp, and messages of a source ---- */

  function At(cs: seq<Content>, k: nat, l: LPId): (at: seq<Content>)
    ensures forall c :: c in at ==> c in cs && Ord(c.ts) == k && c.dst == l
    decreases |cs|
  {
    if |cs| == 0 then []
    else
      var n := |cs| - 1;
      At(cs[..n], k, l) + if Ord(cs[n].ts) == k && cs[n].dst == l then [cs[n]] else []
  }

  function From(cs: seq<Content>, p: LPId): (mine: seq<Content>)
    ensures forall c :: c in mine <==> c in cs && c.src == p
  {
    if |cs| == 0 then [] else (if cs[0].src == p then [cs[0]] else []) + From(cs[1..], p)
  }

  ghost predicate SourcesRise(cs: seq<Content>) {
    forall i, j :: 0 <= i < j < |cs| ==> cs[i].src <= cs[j].src
  }

  /** The messages an LP's history asks for that are for `l` at one stamp, in the order of sending. */
  function SentAt(cfg: Config, m: Model, H: Histories, p: LPId, k: nat, l: LPId): seq<Content>
    requires p in H
  {
    At(RequestContents(cfg, RequestsOf(m, p, true, H[p])), k, l)
  }

  function TakenAt(H: Histories, l: LPId, k: nat): seq<Content>
    requires l in H
  {
    ContentsOf(Closed.At(H[l], k))
  }

  /** An LP took up the events of each stamp by source, and those of one source as they were sent. */
  ghost predicate InSendOrder(cfg: Config, m: Model, H: Histories, l: LPId)
    requires l in H
  {
    && (forall k: nat :: SourcesRise(TakenAt(H, l, k)))
    && (forall k: nat, p: LPId :: p in H ==> From(TakenAt(H, l, k), p) == SentAt(cfg, m, H, p, k, l))
  }

  ghost predicate AllInSendOrder(cfg: Config, m: Model, H: Histories) {
    forall l :: l in H ==> InSendOrder(cfg, m, H, l)
  }

  /* ---- What is sent at a stamp is asked for before it ---- */

  lemma AtSnoc(cs: seq<Content>, c: Content, k: nat, l: LPId)
    ensures At(cs + [c], k, l) == if Ord(c.ts) == k && c.dst == l then At(cs, k, l) + [c] else At(cs, k, l)
  {
    hide Ord;
    assert (cs + [c])[..|cs|] == cs && (cs + [c])[|cs|] == c;
  }

  lemma AtEmpty(k: nat, l: LPId)
    ensures At([], k, l) == []
  {
  }

  lemma {:induction false} AtConcat(a: seq<Content>, b: seq<Content>, k: nat, l: LPId)
    ensures At(a + b, k, l) == At(a, k, l) + At(b, k, l)
    decreases |b|
  {
    hide Ord, At;
    if |b| == 0 {
      AtEmpty(k, l);
      assert a + b == a && b == [];
    } else {
      var n := |b| - 1;
      AtConcat(a, b[..n], k, l);
      AtSnoc(a + b[..n], b[n], k, l);
      AtSnoc(b[..n], b[n], k, l);
      assert a + b == a + b[..n] + [b[n]] && b == b[..n] + [b[n]];
    }
  }

  lemma {:induction false} AtNone(cs: seq<Content>, k: nat, l: LPId)
    requires forall c :: c in cs ==> Ord(c.ts) != k
    ensures At(cs, k, l) == []
    decreases |cs|
  {
    hide Ord;
    if |cs| > 0 {
      assert cs[|cs| - 1] in cs;
      AtNone(cs[..|cs| - 1], k, l);
    }
  }

  lemma SentSnoc(cfg: Config, m: Model, p: LPId, evs: seq<Event>, ev: Event, k: nat, l: LPId)
    requires StrictModel(m) && k <= Ord(ev.ts)
    ensures At(RequestContents(cfg, RequestsOf(m, p, true, evs + [ev])), k, l) == At(RequestContents(cfg, RequestsOf(m, p, true, evs)), k, l)
  {
    var s := StateAfter(m, p, evs);
    ReplaySnoc(m, p, true, evs, ev);
    hide StrictModel, Ord, RequestsOf, StateAfter, RequestsOfEvent, At;
    var before, more := RequestsOf(m, p, true, evs), RequestsOfEvent(m, p, s, ev);
    RequestContentsConcat(cfg, before, more);
    AtConcat(RequestContents(cfg, before), RequestContents(cfg, more), k, l);
    forall c | c in RequestContents(cfg, more) ensures Ord(c.ts) != k {
      if Ord(c.ts) == k { NotAskedLater(cfg, m, p, s, ev, c); }
    }
    AtNone(RequestContents(cfg, more), k, l);
  }

  lemma {:induction false} SentByTheEarlier(cfg: Config, m: Model, p: LPId, evs: seq<Event>, k: nat, l: LPId)
    requires StrictModel(m) && SortedEvents(evs)
    ensures At(RequestContents(cfg, RequestsOf(m, p, true, evs)), k, l) == At(RequestContents(cfg, RequestsOf(m, p, true, Upto(evs, k))), k, l)
    decreases |evs|
  {
    hide StrictModel, SortedEvents, Upto, Ord, At, RequestsOf;
    if |evs| == 0 {
      UptoNothing(k);
      assert evs == [];
    } else {
      var n := |evs| - 1;
      UptoShorter(evs, k);
      if k <= Ord(evs[n].ts) {
        SortedPrefix(evs, n);
        SentByTheEarlier(cfg, m, p, evs[..n], k, l);
        assert evs == evs[..n] + [evs[n]];
        SentSnoc(cfg, m, p, evs[..n], evs[n], k, l);
      }
    }
  }

  lemma SameSent(cfg: Config, m: Model, H: Histories, K: Histories, p: LPId, k: nat, l: LPId)
    requires StrictModel(m) && IdentityBlind(m) && p in H && AgreeUpto(H, K, k)
    requires PlainHistory(p, H[p]) && PlainHistory(p, K[p])
    ensures SentAt(cfg, m, H, p, k, l) == SentAt(cfg, m, K, p, k, l)
  {
    hide StrictModel, IdentityBlind, Ord, At, RequestsOf, Upto;
    SentByTheEarlier(cfg, m, p, H[p], k, l);
    SentByTheEarlier(cfg, m, p, K[p], k, l);
    UptoIsPlain(H[p], k);
    UptoIsPlain(K[p], k);
    SameContentsSameReplay(m, p, Upto(H[p], k), Upto(K[p], k));
  }

  /* ---- Order by source and within each source decides the whole ---- */

  lemma HeadOfSource(a: seq<Content>, b: seq<Content>)
    requires |a| > 0 && SourcesRise(a) && SourcesRise(b)
    requires forall p: LPId :: From(a, p) == From(b, p)
    ensures |b| > 0 && b[0].src <= a[0].src
  {
    assert a[0] in From(a, a[0].src);
    assert a[0] in From(b, a[0].src);
    assert a[0] in b;
  }

  lemma {:induction false} RiseDecides(a: seq<Content>, b: seq<Content>)
    requires SourcesRise(a) && SourcesRise(b) && forall p: LPId :: From(a, p) == From(b, p)
    ensures a == b
    decreases |a|
  {
    if |a| == 0 {
      if |b| > 0 { HeadOfSource(b, a); }
    } else {
      HeadOfSource(a, b);
      HeadOfSource(b, a);
      var p := a[0].src;
      assert From(a, p)[0] == a[0] && From(b, p)[0] == b[0];
      forall q: LPId ensures From(a[1..], q) == From(b[1..], q) {
        TailFrom(a, q);
        TailFrom(b, q);
      }
      RiseDecides(a[1..], b[1..]);
      assert a == [a[0]] + a[1..] && b == [b[0]] + b[1..];
    }
  }

  lemma TailFrom(cs: seq<Content>, q: LPId)
    requires |cs| > 0
    ensures From(cs[1..], q) == if cs[0].src == q then From(cs, q)[1..] else From(cs, q)
  {
  }

  lemma NoStrangers(cfg: Config, m: Model, H: Histories, n: nat, l: LPId, k: nat, p: LPId)
    requires ClosedBelow(cfg, m, H, n) && l in H && k < n && p !in H
    ensures From(TakenAt(H, l, k), p) == []
  {
    hide Taken, Asked, Ord, SortedEvents, Closed.At, From;
    var mine := From(TakenAt(H, l, k), p);
    AtOnly(H[l], k, l);
    if |mine| > 0 {
      var c := mine[0];
      assert c in mine && c in ContentsOf(Closed.At(H[l], k)) && c.src == p;
      Closed.TakenAt(H[l], c);
      TakenIsCount(Closed.At(H[l], k), c);
      assert false;
    }
  }

  lemma NextStampInOrder(cfg: Config, m: Model, H: Histories, K: Histories, k: nat, l: LPId)
    requires StrictModel(m) && IdentityBlind(m)
    requires ClosedBelow(cfg, m, H, k + 1) && ClosedBelow(cfg, m, K, k + 1)
    requires AgreeUpto(H, K, k) && l in H && InSendOrder(cfg, m, H, l) && InSendOrder(cfg, m, K, l)
    ensures ContentsOf(Upto(H[l], k + 1)) == ContentsOf(Upto(K[l], k + 1))
  {
    hide StrictModel, IdentityBlind, Taken, Asked, Upto, Ord, PlainHistory, From, SourcesRise, Closed.At, SentAt;
    var a, b := TakenAt(H, l, k), TakenAt(K, l, k);
    forall p: LPId ensures From(a, p) == From(b, p) {
      if p in H {
        assert PlainHistory(p, H[p]) && PlainHistory(p, K[p]);
        SameSent(cfg, m, H, K, p, k, l);
      } else {
        NoStrangers(cfg, m, H, k + 1, l, k, p);
        NoStrangers(cfg, m, K, k + 1, l, k, p);
      }
    }
    RiseDecides(a, b);
    UptoGrows(H[l], k);
    UptoGrows(K[l], k);
    ContentsConcat(Upto(H[l], k), Closed.At(H[l], k));
    ContentsConcat(Upto(K[l], k), Closed.At(K[l], k));
  }

  /** At most one closed history in send order. */
  lemma {:induction false} ClosedInOrderIsUnique(cfg: Config, m: Model, H: Histories, K: Histories, n: nat)
    requires StrictModel(m) && IdentityBlind(m) && H.Keys == K.Keys
    requires ClosedBelow(cfg, m, H, n) && ClosedBelow(cfg, m, K, n)
    requires AllInSendOrder(cfg, m, H) && AllInSendOrder(cfg, m, K)
    ensures AgreeUpto(H, K, n)
    decreases n
  {
    hide StrictModel, IdentityBlind, InSendOrder, ClosedBelow;
    if n > 0 {
      LessClosed(cfg, m, H, n);
      LessClosed(cfg, m, K, n);
      ClosedInOrderIsUnique(cfg, m, H, K, n - 1);
      forall l | l in H ensures ContentsOf(Upto(H[l], n)) == ContentsOf(Upto(K[l], n)) {
        NextStampInOrder(cfg, m, H, K, n - 1, l);
      }
    }
  }

  /* ---- The queue's order is send order ---- */

  /** A history in the order of the queue: stamp, source, uid. */
  ghost predicate QueueOrdered(evs: seq<Event>) {
    forall i, j :: 0 <= i < j < |evs| ==> !Before(evs[j], evs[i])
  }

  ghost predicate UidsRise(evs: seq<Event>) {
    forall i, j :: 0 <= i < j < |evs| ==> evs[i].uid < evs[j].uid
  }

  lemma SomeEvent(b: seq<Event>)
    ensures |b| > 0 ==> exists e :: e in b
  {
    if |b| > 0 { assert b[0] in b; }
  }

  lemma LeastUid(a: seq<Event>, b: seq<Event>)
    requires |a| > 0 && UidsRise(b) && forall e :: e in a <==> e in b
    ensures |b| > 0 && b[0].uid <= a[0].uid
  {
    assert a[0] in a && a[0] in b;
  }

  lemma {:induction false} UidsDecide(a: seq<Event>, b: seq<Event>)
    requires UidsRise(a) && UidsRise(b) && forall e :: e in a <==> e in b
    ensures a == b
    decreases |a|
  {
    if |a| == 0 {
      SomeEvent(b);
    } else {
      LeastUid(a, b);
      LeastUid(b, a);
      assert a[0] in a && a[0] in b;
      var i :| 0 <= i < |b| && b[i] == a[0];
      assert i == 0;
      forall e ensures e in a[1..] <==> e in b[1..] {
        InTail(a, e);
        InTail(b, e);
      }
      UidsDecide(a[1..], b[1..]);
      assert a == [a[0]] + a[1..] && b == [b[0]] + b[1..];
    }
  }

  lemma InTail(a: seq<Event>, e: Event)
    requires |a| > 0 && UidsRise(a)
    ensures e in a[1..] <==> e in a && e != a[0]
  {
    if e in a && e != a[0] {
      var k :| 0 <= k < |a| && a[k] == e;
      assert a[1..][k - 1] == e;
    }
  }

  function EventsFrom(evs: seq<Event>, p: LPId): (mine: seq<Event>)
    ensures forall e :: e in mine <==> e in evs && e.src == p
    ensures ContentsOf(mine) == From(ContentsOf(evs), p)
  {
    if |evs| == 0 then []
    else
      assert ContentsOf(evs)[1..] == ContentsOf(evs[1..]) && ContentsOf(evs)[0] == ContentOf(evs[0]);
      var head := if evs[0].src == p then [evs[0]] else [];
      var rest := EventsFrom(evs[1..], p);
      ContentsConcat(head, rest);
      assert ContentsOf(head) == if evs[0].src == p then [ContentOf(evs[0])] else [];
      head + rest
  }

  /** The events of one source rise in uid. */
  ghost predicate RiseFrom(evs: seq<Event>, p: LPId) {
    forall i, j :: 0 <= i < j < |evs| && evs[i].src == p && evs[j].src == p ==> evs[i].uid < evs[j].uid
  }

  lemma RestRises(evs: seq<Event>, p: LPId)
    requires RiseFrom(evs, p) && |evs| > 0
    ensures RiseFrom(evs[1..], p)
    ensures evs[0].src == p ==> forall e :: e in evs[1..] && e.src == p ==> evs[0].uid < e.uid
  {
    var rest := evs[1..];
    forall i | 0 <= i < |rest| ensures rest[i] == evs[i + 1] {}
  }

  lemma HeadBelow(x: Event, rest: seq<Event>)
    requires UidsRise(rest) && forall e :: e in rest ==> x.uid < e.uid
    ensures UidsRise([x] + rest)
  {
    forall j | 0 <= j < |rest| ensures x.uid < rest[j].uid { assert rest[j] in rest; }
  }

  lemma {:induction false} FromRises(evs: seq<Event>, p: LPId)
    requires RiseFrom(evs, p)
    ensures UidsRise(EventsFrom(evs, p))
    decreases |evs|
  {
    hide RiseFrom, From, UidsRise;
    if |evs| == 0 {
      assert UidsRise([]) by { NoneRise(); }
    } else {
      RestRises(evs, p);
      FromRises(evs[1..], p);
      var rest := EventsFrom(evs[1..], p);
      if evs[0].src == p { HeadBelow(evs[0], rest); } else { assert [] + rest == rest; }
    }
  }

  lemma NoneRise()
    ensures UidsRise([])
  {
  }

  function EventsAt(evs: seq<Event>, k: nat, l: LPId): (at: seq<Event>)
    ensures forall e :: e in at <==> e in evs && Ord(e.ts) == k && e.dst == l
    ensures ContentsOf(at) == At(ContentsOf(evs), k, l)
    decreases |evs|
  {
    if |evs| == 0 then []
    else
      var n := |evs| - 1;
      assert evs == evs[..n] + [evs[n]];
      assert ContentsOf(evs)[..n] == ContentsOf(evs[..n]) && ContentsOf(evs)[n] == ContentOf(evs[n]);
      var last := if Ord(evs[n].ts) == k && evs[n].dst == l then [evs[n]] else [];
      var front := EventsAt(evs[..n], k, l);
      ContentsConcat(front, last);
      assert ContentsOf(last) == if Ord(evs[n].ts) == k && evs[n].dst == l then [ContentOf(evs[n])] else [];
      front + last
  }

  lemma {:induction false} EventsAtRise(evs: seq<Event>, k: nat, l: LPId)
    requires UidsRise(evs)
    ensures UidsRise(EventsAt(evs, k, l))
    decreases |evs|
  {
    hide Ord;
    if |evs| > 0 {
      var n := |evs| - 1;
      EventsAtRise(evs[..n], k, l);
      var front := EventsAt(evs[..n], k, l);
      forall j | 0 <= j < |front| ensures front[j].uid < evs[n].uid {
        assert front[j] in evs[..n];
      }
    }
  }

  /* ---- An ended run ---- */

  lemma AtHas(evs: seq<Event>, k: nat, e: Event)
    requires SortedEvents(evs)
    ensures e in Closed.At(evs, k) <==> e in evs && Ord(e.ts) == k
  {
    hide Ord, Closed.At, SortedEvents;
    var at := Closed.At(evs, k);
    if e in at {
      var i :| 0 <= i < |at| && at[i] == e;
      AtIsAt(evs, k, i);
    }
    var front, back := SplitAt(evs, k);
    if e in evs && Ord(e.ts) == k {
      assert e in front || e in at || e in back;
    }
  }

  /** The events at a stamp are a stretch of the history. */
  lemma AtIsStretch(evs: seq<Event>, k: nat, i: nat, j: nat)
    requires SortedEvents(evs) && i < j < |Closed.At(evs, k)|
    ensures Closed.At(evs, k)[i].ts == Closed.At(evs, k)[j].ts
    ensures
      var n := |Upto(evs, k)|;
      n + j < |evs| && evs[n + i] == Closed.At(evs, k)[i] && evs[n + j] == Closed.At(evs, k)[j]
  {
    hide Ord, Closed.At, SortedEvents, Upto;
    AtIsAt(evs, k, i);
    AtIsAt(evs, k, j);
    OrdIsOrder(Closed.At(evs, k)[i].ts, Closed.At(evs, k)[j].ts);
  }

  lemma QueueOrderRises(l: LPId, evs: seq<Event>, k: nat)
    requires SortedEvents(evs) && QueueOrdered(evs)
    ensures SourcesRise(ContentsOf(Closed.At(evs, k)))
  {
    hide Closed.At, SortedEvents, Upto;
    var at := Closed.At(evs, k);
    forall i, j | 0 <= i < j < |at| ensures at[i].src <= at[j].src { AtIsStretch(evs, k, i, j); }
  }

  ghost predicate UniqueKeys(evs: seq<Event>) {
    forall i, j :: 0 <= i < j < |evs| ==> KeyOf(evs[i]) != KeyOf(evs[j])
  }

  lemma TakenFromRises(evs: seq<Event>, k: nat, p: LPId)
    requires SortedEvents(evs) && QueueOrdered(evs) && UniqueKeys(evs)
    ensures UidsRise(EventsFrom(Closed.At(evs, k), p))
  {
    hide Closed.At, SortedEvents, Upto;
    var at := Closed.At(evs, k);
    forall i, j | 0 <= i < j < |at| && at[i].src == p && at[j].src == p ensures at[i].uid < at[j].uid {
      AtIsStretch(evs, k, i, j);
      var n := |Upto(evs, k)|;
      assert !Before(evs[n + j], evs[n + i]) && KeyOf(evs[n + i]) != KeyOf(evs[n + j]);
    }
    FromRises(at, p);
  }

  lemma LiveRises(l: LPId, a: Account)
    requires AccountOk(l, a)
    ensures UidsRise(Live(a))
  {
    var evs := Live(a);
    forall i | 0 <= i < |evs| ensures evs[i].uid == a.log[i].uid { assert EntryOk(a, a.log[i]); }
  }

  lemma HistoryKeys(cfg: Config, m: Model, w: World, l: LPId)
    requires WorldOk(cfg, m, w) && l in cfg.lps
    ensures UniqueKeys(HistoriesOf(cfg, w)[l])
    ensures forall e :: e in HistoriesOf(cfg, w)[l] <==> e in AccountAt(cfg, w, l).hist && !e.isAnti
  {
    hide NetsOk, LedgerOk, LedgerOf, AllOk, Known, AccountAt, Positive, NoDup;
    var h := AccountAt(cfg, w, l).hist;
    var L := LedgerOf(cfg, w, multiset{});
    WorldLedger(cfg, m, w);
    HistKnown(cfg, m, w, l);
    Invisible.HistNoDup(L, l);
    Outputs.WorldAccountIs(cfg, w, l);
    PositiveNoDup(h);
    var ps := Positive(h);
    forall i, j | 0 <= i < j < |ps| ensures KeyOf(ps[i]) != KeyOf(ps[j]) {
      assert ps[i] in ps && ps[j] in ps;
      TwoAlike(ps, i, j);
      if KeyOf(ps[i]) == KeyOf(ps[j]) { KnownAntisAgree(L, ps[i], ps[j]); }
    }
  }

  lemma TwoAlike(s: seq<Event>, i: nat, j: nat)
    requires NoDup(s) && i < j < |s|
    ensures s[i] != s[j]
  {
  }

  /** What an LP stands by, for one LP at one stamp, is what its history asks for there. */
  lemma LiveIsSent(cfg: Config, m: Model, w: World, p: LPId, k: nat, l: LPId)
    requires GoodModel(m) && StrictModel(m) && WorldOk(cfg, m, w) && AllStarted(w) && p in cfg.lps
    ensures AccountOk(p, AccountAt(cfg, w, p)) && LogListsLive(AccountAt(cfg, w, p))
    ensures ContentsOf(EventsAt(Live(AccountAt(cfg, w, p)), k, l)) == SentAt(cfg, m, HistoriesOf(cfg, w), p, k, l)
  {
    hide GoodModel, NetsOk, InTime, Replays, AllOk, StrictModel, LedgerOk, LedgerOf, Positive, At, EventsAt, Ord;
    LpAt(cfg, m, w, p);
    var a := AccountAt(cfg, w, p);
    assert Ready(w[cfg.rankOf(p)]);
    WorldAccount(cfg, m, w, p);
    LiveHaveSrc(p, a);
    LiveAreAsked(cfg, m, p, a);
    PositiveReplay(m, p, true, a.hist);
  }

  /** In an ended run what one LP has taken from another at a stamp is what the other stands by. */
  lemma TakenIsSent(cfg: Config, m: Model, w: World, l: LPId, p: LPId, k: nat)
    requires GoodModel(m) && StrictModel(m) && WorldOk(cfg, m, w) && AllStarted(w) && AllTraffic(w) == multiset{}
    requires l in cfg.lps && p in cfg.lps && QueueOrdered(HistoriesOf(cfg, w)[l])
    ensures From(TakenAt(HistoriesOf(cfg, w), l, k), p) == SentAt(cfg, m, HistoriesOf(cfg, w), p, k, l)
  {
    hide GoodModel, StrictModel, WorldOk, AllStarted, Positive, At, EventsAt, EventsFrom, From, Closed.At, SentAt, QueueOrdered, UniqueKeys,
         UidsRise, AccountOk, LedgerOk, LogListsLive, AccountAt, PlainHistory, Ord;
    var evs := HistoriesOf(cfg, w)[l];
    var a := AccountAt(cfg, w, p);
    WorldHistory(cfg, m, w, l);
    HistoryKeys(cfg, m, w, l);
    LiveIsSent(cfg, m, w, p, k, l);
    assert SortedEvents(evs) by { PlainIsSorted(l, evs); }
    TakenFromRises(evs, k, p);
    LiveRises(p, a);
    EventsAtRise(Live(a), k, l);
    var mine, sent := EventsFrom(Closed.At(evs, k), p), EventsAt(Live(a), k, l);
    forall e ensures e in mine <==> e in sent {
      AtHas(evs, k, e);
      TakenIsStoodBy(cfg, m, w, l, p, e);
    }
    UidsDecide(mine, sent);
  }

  lemma PlainIsSorted(l: LPId, evs: seq<Event>)
    requires PlainHistory(l, evs)
    ensures SortedEvents(evs)
  {
  }

  lemma TakenIsStoodBy(cfg: Config, m: Model, w: World, l: LPId, p: LPId, e: Event)
    requires WorldOk(cfg, m, w) && AllTraffic(w) == multiset{} && l in cfg.lps && p in cfg.lps
    requires LogListsLive(AccountAt(cfg, w, p)) && AccountOk(p, AccountAt(cfg, w, p))
    ensures e in HistoriesOf(cfg, w)[l] && e.src == p <==> e in Live(AccountAt(cfg, w, p)) && e.dst == l
  {
    hide WorldOk, Positive, LedgerOk, LedgerOf, AccountAt, LogListsLive, AccountOk, PlainHistory;
    var L := LedgerOf(cfg, w, multiset{});
    WorldLedger(cfg, m, w);
    NothingLeft(w);
    Outputs.WorldAccountIs(cfg, w, l);
    Outputs.WorldAccountIs(cfg, w, p);
    HistoryKeys(cfg, m, w, l);
    WorldHistory(cfg, m, w, l);
    LiveHaveSrc(p, AccountAt(cfg, w, p));
    LiveArePlain(p, AccountAt(cfg, w, p));
    if e in HistoriesOf(cfg, w)[l] { assert e.dst == l && !e.isAnti by { PlainIsOwn(l, HistoriesOf(cfg, w)[l], e); } }
    if e.dst == l && !e.isAnti && e.src == p {
      assert Ord(e.ts) < END;
      TakenIsLive(L, e, END);
    }
  }

  lemma PlainIsOwn(l: LPId, evs: seq<Event>, e: Event)
    requires PlainHistory(l, evs) && e in evs
    ensures e.dst == l && !e.isAnti
  {
  }

  /** In an ended run, an LP that took up its events in the order of the queue took them up in send
      order. */
  lemma QueueOrderIsSendOrder(cfg: Config, m: Model, w: World, l: LPId)
    requires GoodModel(m) && StrictModel(m) && Reachable(cfg, m, w) && AllStarted(w) && AllTraffic(w) == multiset{}
    requires l in cfg.lps && QueueOrdered(HistoriesOf(cfg, w)[l])
    ensures InSendOrder(cfg, m, HistoriesOf(cfg, w), l)
  {
    hide GoodModel, StrictModel, Reachable, WorldOk, AllStarted, QueueOrdered, From, SentAt, SourcesRise, Closed.At, Positive, AccountAt;
    ReachableOk(cfg, m, w);
    var H := HistoriesOf(cfg, w);
    WorldHistory(cfg, m, w, l);
    forall k: nat ensures SourcesRise(TakenAt(H, l, k)) { QueueOrderRises(l, H[l], k); }
    forall k: nat, p: LPId | p in H ensures From(TakenAt(H, l, k), p) == SentAt(cfg, m, H, p, k, l) {
      TakenIsSent(cfg, m, w, l, p, k);
    }
  }

  /* ---- The outcome ---- */

  lemma SameAt(a: seq<Event>, b: seq<Event>, k: nat)
    requires ContentsOf(a) == ContentsOf(b)
    ensures ContentsOf(Closed.At(a, k)) == ContentsOf(Closed.At(b, k))
  {
    hide Ord, Upto;
    SameUpto(a, b, k);
    SameUpto(a, b, k + 1);
    UptoGrows(a, k);
    UptoGrows(b, k);
    ContentsConcat(Upto(a, k), Closed.At(a, k));
    ContentsConcat(Upto(b, k), Closed.At(b, k));
    SameBack(ContentsOf(Upto(a, k)), ContentsOf(Closed.At(a, k)), ContentsOf(Closed.At(b, k)));
  }

  lemma SameBack(x: seq<Content>, a: seq<Content>, b: seq<Content>)
    requires x + a == x + b
    ensures a == b
  {
    assert (x + a)[|x|..] == a && (x + b)[|x|..] == b;
  }

  /** Send order is a matter of contents. */
  lemma SameSendOrder(cfg: Config, m: Model, H: Histories, K: Histories, l: LPId)
    requires IdentityBlind(m) && H.Keys == K.Keys && l in H
    requires forall p :: p in H ==> Plain(H[p]) && Plain(K[p]) && ContentsOf(H[p]) == ContentsOf(K[p])
    requires InSendOrder(cfg, m, K, l)
    ensures InSendOrder(cfg, m, H, l)
  {
    hide IdentityBlind, Plain, Closed.At, At, From, SourcesRise, RequestsOf;
    forall k: nat ensures TakenAt(H, l, k) == TakenAt(K, l, k) { SameAt(H[l], K[l], k); }
    forall k: nat, p: LPId | p in H ensures SentAt(cfg, m, H, p, k, l) == SentAt(cfg, m, K, p, k, l) {
      SameContentsSameReplay(m, p, H[p], K[p]);
    }
  }

  /** An ended run is the sequential run that goes by send order exactly when each LP happened to take
      up its events in that order. */
  lemma SequentialJustIfInSendOrder(cfg: Config, m: Model, w: World, s: Simulator)
    requires DeterministicModel(m) && Reachable(cfg, m, w) && AllStarted(w) && AllTraffic(w) == multiset{}
    requires SeqReachable(cfg, m, s) && s.started == cfg.lps && s.queue == multiset{} && AllInSendOrder(cfg, m, s.hist)
    ensures HistoriesOf(cfg, w).Keys == cfg.lps == s.hist.Keys
    ensures (forall l :: l in cfg.lps ==> ContentsOf(HistoriesOf(cfg, w)[l]) == ContentsOf(s.hist[l]))
       <==> AllInSendOrder(cfg, m, HistoriesOf(cfg, w))
  {
    hide GoodModel, StrictModel, IdentityBlind, Reachable, SeqReachable, ClosedBelow, InSendOrder, AllStarted, Upto, Plain;
    var H := HistoriesOf(cfg, w);
    GoodIsCausal(m);
    NothingLeft(w);
    WorldIsClosed(cfg, m, w, END);
    SequentialIsClosed(cfg, m, s, END);
    if AllInSendOrder(cfg, m, H) {
      ClosedInOrderIsUnique(cfg, m, H, s.hist, END);
      forall l | l in cfg.lps ensures ContentsOf(H[l]) == ContentsOf(s.hist[l]) {
        UptoEnd(H[l]);
        UptoEnd(s.hist[l]);
      }
    }
    if forall l :: l in cfg.lps ==> ContentsOf(H[l]) == ContentsOf(s.hist[l]) {
      forall p | p in H ensures Plain(H[p]) && Plain(s.hist[p]) {
        ClosedIsOwn(cfg, m, H, END, p);
        ClosedIsOwn(cfg, m, s.hist, END, p);
      }
      forall l | l in H ensures InSendOrder(cfg, m, H, l) { SameSendOrder(cfg, m, H, s.hist, l); }
    }
  }

  lemma ClosedIsOwn(cfg: Config, m: Model, H: Histories, n: nat, l: LPId)
    requires ClosedBelow(cfg, m, H, n) && l in H
    ensures Plain(H[l])
  {
    assert PlainHistory(l, H[l]);
  }

  /** The promise that equal stamps go by source and uid, met at every dispatch, makes the run the
      sequential one. */
  lemma QueueOrderIsSequential(cfg: Config, m: Model, w: World, s: Simulator, l: LPId)
    requires DeterministicModel(m) && Reachable(cfg, m, w) && AllStarted(w) && AllTraffic(w) == multiset{}
    requires SeqReachable(cfg, m, s) && s.started == cfg.lps && s.queue == multiset{} && AllInSendOrder(cfg, m, s.hist)
    requires forall p :: p in cfg.lps ==> QueueOrdered(HistoriesOf(cfg, w)[p])
    requires l in cfg.lps
    ensures l in s.hist && ContentsOf(HistoriesOf(cfg, w)[l]) == ContentsOf(s.hist[l])
  {
    hide GoodModel, StrictModel, IdentityBlind, Reachable, SeqReachable, InSendOrder, AllStarted, QueueOrdered;
    SequentialJustIfInSendOrder(cfg, m, w, s);
    forall p | p in HistoriesOf(cfg, w) ensures InSendOrder(cfg, m, HistoriesOf(cfg, w), p) { QueueOrderIsSendOrder(cfg, m, w, p); }
  }
}
