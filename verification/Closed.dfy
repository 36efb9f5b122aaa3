/** Closed histories.

    A history per LP is closed below a bound when, below it, every LP has taken up exactly the
    messages that the replay of all histories asks for.  For a model that only sends into the
    future there is at most one closed history with distinct stamps per LP: whatever produced it,
    the events up to the bound, and so the states, are the same. */
module Closed {
  import opened Stamps
  import opened Events
  import opened Models
  import opened Kernel

  type Histories = map<LPId, seq<Event>>

  function ContentsOf(evs: seq<Event>): (cs: seq<Content>)
    ensures |cs| == |evs|
    ensures forall i :: 0 <= i < |evs| ==> cs[i] == ContentOf(evs[i])
  {
    seq(|evs|, i requires 0 <= i < |evs| => ContentOf(evs[i]))
  }

  /** A message as its destination sees it, once routed. */
  function SentContent(cfg: Config, t: Event): Content {
    var dst := match Route(cfg, t) case Some(d) => d case None => t.dst;
    Content(t.ts, t.src, dst, t.target, t.payload)
  }

  function RequestContents(cfg: Config, reqs: seq<Request>): (cs: seq<Content>)
    ensures |cs| == |reqs|
    ensures forall i :: 0 <= i < |reqs| ==> cs[i] == SentContent(cfg, reqs[i].msg)
  {
    seq(|reqs|, i requires 0 <= i < |reqs| => SentContent(cfg, reqs[i].msg))
  }

  ghost predicate SortedEvents(evs: seq<Event>) {
    forall i, j :: 0 <= i < j < |evs| ==> evs[i].ts.Le(evs[j].ts)
  }

  /** The events of a sorted history below a bound. */
  function Upto(evs: seq<Event>, n: nat): (front: seq<Event>)
    ensures front <= evs
    ensures forall i :: 0 <= i < |front| ==> Ord(front[i].ts) < n
    ensures |front| < |evs| ==> n <= Ord(evs[|front|].ts)
    decreases |evs|
  {
    if |evs| == 0 || Ord(evs[0].ts) >= n then [] else [evs[0]] + Upto(evs[1..], n)
  }

  ghost predicate PlainHistory(l: LPId, evs: seq<Event>) {
    SortedEvents(evs) && forall i :: 0 <= i < |evs| ==> !evs[i].isAnti && evs[i].dst == l
  }

  /** How often a history has taken up a message. */
  ghost function Taken(evs: seq<Event>, c: Content): nat {
    multiset(ContentsOf(evs))[c]
  }

  /** How often the replay of a history asks for a message. */
  ghost function Asked(cfg: Config, m: Model, l: LPId, evs: seq<Event>, c: Content): nat {
    multiset(RequestContents(cfg, RequestsOf(m, l, true, evs)))[c]
  }

  ghost predicate ClosedBelow(cfg: Config, m: Model, H: Histories, n: nat) {
    && (forall l :: l in H ==> PlainHistory(l, H[l]))
    && (forall c: Content :: c.dst in H && Ord(c.ts) < n ==>
          Taken(H[c.dst], c) == if c.src in H then Asked(cfg, m, c.src, H[c.src], c) else 0)
  }

  ghost predicate DistinctStamps(evs: seq<Event>) {
    forall i, j :: 0 <= i < j < |evs| ==> evs[i].ts != evs[j].ts
  }

  ghost predicate AgreeUpto(H: Histories, K: Histories, n: nat) {
    H.Keys == K.Keys && forall l :: l in H ==> ContentsOf(Upto(H[l], n)) == ContentsOf(Upto(K[l], n))
  }

  /* ---- Replays see contents only ---- */

  ghost predicate Plain(evs: seq<Event>) {
    forall i :: 0 <= i < |evs| ==> !evs[i].isAnti
  }

  lemma {:induction false} SameContentsSameReplay(m: Model, l: LPId, a: seq<Event>, b: seq<Event>)
    requires IdentityBlind(m) && Plain(a) && Plain(b) && ContentsOf(a) == ContentsOf(b)
    ensures StateAfter(m, l, a) == StateAfter(m, l, b)
    ensures RequestsOf(m, l, true, a) == RequestsOf(m, l, true, b)
    decreases |a|
  {
    assert |ContentsOf(a)| == |a| && |ContentsOf(b)| == |b|;
    if |a| > 0 {
      var n := |a| - 1;
      assert ContentsOf(a)[n] == ContentsOf(b)[n];
      assert ContentsOf(a[..n]) == ContentsOf(a)[..n] && ContentsOf(b[..n]) == ContentsOf(b)[..n];
      SameContentsSameReplay(m, l, a[..n], b[..n]);
      assert m.handle(l, StateAfter(m, l, a[..n]), a[n]) == m.handle(l, StateAfter(m, l, b[..n]), b[n]);
    }
  }

  /* ---- Only what came before a stamp asks for messages at it ---- */

  lemma CountConcat(a: seq<Content>, b: seq<Content>, c: Content)
    ensures multiset(a + b)[c] == multiset(a)[c] + multiset(b)[c]
  {
  }

  lemma RequestContentsConcat(cfg: Config, a: seq<Request>, b: seq<Request>)
    ensures RequestContents(cfg, a + b) == RequestContents(cfg, a) + RequestContents(cfg, b)
  {
  }

  lemma NotAskedLater(cfg: Config, m: Model, l: LPId, s: LpState, ev: Event, c: Content)
    requires StrictModel(m) && Ord(c.ts) <= Ord(ev.ts)
    ensures multiset(RequestContents(cfg, RequestsOfEvent(m, l, s, ev)))[c] == 0
  {
    var msgs := SendsOf(m.handle(l, s, ev));
    var cs := RequestContents(cfg, RequestsOfEvent(m, l, s, ev));
    forall i | 0 <= i < |cs| ensures cs[i] != c {
      assert msgs[i] in msgs;
      OrdIsOrder(ev.ts, msgs[i].ts);
    }
    assert c !in cs;
  }

  lemma {:induction false} UptoIs(evs: seq<Event>, n: nat, k: nat)
    requires k <= |evs| && forall i :: 0 <= i < k ==> Ord(evs[i].ts) < n
    requires k < |evs| ==> n <= Ord(evs[k].ts)
    ensures Upto(evs, n) == evs[..k]
    decreases |evs|
  {
    if k > 0 {
      UptoIs(evs[1..], n, k - 1);
      assert evs[..k] == [evs[0]] + evs[1..][..k - 1];
    }
  }

  lemma UptoWithoutLast(evs: seq<Event>, n: nat)
    requires |evs| > 0 && n <= Ord(evs[|evs| - 1].ts)
    ensures Upto(evs, n) == Upto(evs[..|evs| - 1], n)
  {
    hide Ord;
    var v := Upto(evs[..|evs| - 1], n);
    var k := |v|;
    assert v == evs[..k];
    forall i | 0 <= i < k ensures Ord(evs[i].ts) < n { assert evs[i] == v[i]; }
    UptoIs(evs, n, k);
  }

  lemma UptoAll(evs: seq<Event>, n: nat)
    requires SortedEvents(evs) && |evs| > 0 && Ord(evs[|evs| - 1].ts) < n
    ensures Upto(evs, n) == evs
  {
    hide Ord;
    var last := |evs| - 1;
    forall i | 0 <= i < |evs| ensures Ord(evs[i].ts) < n { OrdIsOrder(evs[last].ts, evs[i].ts); }
    UptoIs(evs, n, |evs|);
  }

  /** In a sorted history an event at or beyond the bound can be left out, and if the last is below
      it, all are. */
  lemma UptoShorter(evs: seq<Event>, n: nat)
    requires SortedEvents(evs) && |evs| > 0
    ensures n <= Ord(evs[|evs| - 1].ts) ==> Upto(evs, n) == Upto(evs[..|evs| - 1], n)
    ensures Ord(evs[|evs| - 1].ts) < n ==> Upto(evs, n) == evs
  {
    hide Ord, SortedEvents, Upto;
    if n <= Ord(evs[|evs| - 1].ts) { UptoWithoutLast(evs, n); } else { UptoAll(evs, n); }
  }

  lemma AskedSnoc(cfg: Config, m: Model, l: LPId, evs: seq<Event>, ev: Event, c: Content)
    requires StrictModel(m) && Ord(c.ts) <= Ord(ev.ts)
    ensures Asked(cfg, m, l, evs + [ev], c) == Asked(cfg, m, l, evs, c)
  {
    var s := StateAfter(m, l, evs);
    ReplaySnoc(m, l, true, evs, ev);
    hide StrictModel, Ord, RequestsOf, StateAfter, RequestsOfEvent;
    var before := RequestsOf(m, l, true, evs);
    var more := RequestsOfEvent(m, l, s, ev);
    NotAskedLater(cfg, m, l, s, ev, c);
    RequestContentsConcat(cfg, before, more);
    CountConcat(RequestContents(cfg, before), RequestContents(cfg, more), c);
  }

  lemma SortedPrefix(evs: seq<Event>, n: nat)
    requires SortedEvents(evs) && n <= |evs|
    ensures SortedEvents(evs[..n])
  {
  }

  lemma UptoNothing(n: nat)
    ensures Upto([], n) == []
  {
  }

  lemma {:induction false} AskedByTheEarlier(cfg: Config, m: Model, l: LPId, evs: seq<Event>, c: Content)
    requires StrictModel(m) && SortedEvents(evs)
    ensures Asked(cfg, m, l, evs, c) == Asked(cfg, m, l, Upto(evs, Ord(c.ts)), c)
    decreases |evs|
  {
    hide StrictModel, SortedEvents, Asked, Upto, Ord;
    if |evs| == 0 {
      UptoNothing(Ord(c.ts));
      assert evs == [];
    } else {
      var n := |evs| - 1;
      UptoShorter(evs, Ord(c.ts));
      if Ord(c.ts) <= Ord(evs[n].ts) {
        SortedPrefix(evs, n);
        AskedByTheEarlier(cfg, m, l, evs[..n], c);
        assert evs == evs[..n] + [evs[n]];
        AskedSnoc(cfg, m, l, evs[..n], evs[n], c);
      }
    }
  }

  /* ---- One stamp more ---- */

  /** The events of a history at exactly one stamp. */
  function At(evs: seq<Event>, k: nat): seq<Event> {
    Upto(evs, k + 1)[|Upto(evs, k)|..]
  }

  lemma {:induction false} UptoGrows(evs: seq<Event>, k: nat)
    ensures |Upto(evs, k)| <= |Upto(evs, k + 1)|
    ensures Upto(evs, k + 1) == Upto(evs, k) + At(evs, k)
    decreases |evs|
  {
    hide Ord;
    if |evs| > 0 { UptoGrows(evs[1..], k); }
    assert Upto(evs, k + 1)[..|Upto(evs, k)|] == Upto(evs, k);
  }

  lemma AtIsInside(evs: seq<Event>, k: nat, i: nat)
    requires i < |At(evs, k)|
    ensures |Upto(evs, k)| + i < |Upto(evs, k + 1)| <= |evs|
    ensures At(evs, k)[i] == evs[|Upto(evs, k)| + i]
    ensures Ord(At(evs, k)[i].ts) <= k
  {
    hide Ord;
    UptoGrows(evs, k);
    var b := Upto(evs, k + 1);
    assert b == evs[..|b|];
    assert At(evs, k)[i] == b[|Upto(evs, k)| + i];
  }

  lemma OrdGrows(evs: seq<Event>, i: nat, j: nat)
    requires SortedEvents(evs) && i <= j < |evs|
    ensures Ord(evs[i].ts) <= Ord(evs[j].ts)
  {
    hide Ord;
    OrdIsOrder(evs[j].ts, evs[i].ts);
  }

  lemma UptoStops(evs: seq<Event>, k: nat)
    ensures |Upto(evs, k)| < |evs| ==> k <= Ord(evs[|Upto(evs, k)|].ts)
  {
  }

  /** An event at a stamp, and its place in the history. */
  lemma AtIsAt(evs: seq<Event>, k: nat, i: nat)
    requires SortedEvents(evs) && i < |At(evs, k)|
    ensures Ord(At(evs, k)[i].ts) == k
    ensures |Upto(evs, k)| + i < |evs| && evs[|Upto(evs, k)| + i] == At(evs, k)[i]
  {
    hide Ord, At, SortedEvents, Upto;
    AtIsInside(evs, k, i);
    UptoStops(evs, k);
    OrdGrows(evs, |Upto(evs, k)|, |Upto(evs, k)| + i);
  }

  lemma BackIsLater(evs: seq<Event>, k: nat)
    requires SortedEvents(evs)
    ensures forall i :: |Upto(evs, k + 1)| <= i < |evs| ==> k < Ord(evs[i].ts)
  {
    hide Ord;
    var b := |Upto(evs, k + 1)|;
    forall i | b <= i < |evs| ensures k < Ord(evs[i].ts) { OrdIsOrder(evs[i].ts, evs[b].ts); }
  }

  lemma NotTaken(evs: seq<Event>, c: Content)
    requires forall i :: 0 <= i < |evs| ==> Ord(evs[i].ts) != Ord(c.ts)
    ensures Taken(evs, c) == 0
  {
    var cs := ContentsOf(evs);
    assert forall i :: 0 <= i < |cs| ==> cs[i] != c;
    assert c !in cs;
  }

  lemma TakenConcat(a: seq<Event>, b: seq<Event>, c: Content)
    ensures Taken(a + b, c) == Taken(a, c) + Taken(b, c)
  {
    ContentsConcat(a, b);
    CountConcat(ContentsOf(a), ContentsOf(b), c);
  }

  /** A sorted history falls into what is before a stamp, at it, and after it. */
  lemma SplitAt(evs: seq<Event>, k: nat) returns (front: seq<Event>, back: seq<Event>)
    requires SortedEvents(evs)
    ensures evs == (front + At(evs, k)) + back
    ensures forall i :: 0 <= i < |front| ==> Ord(front[i].ts) != k
    ensures forall i :: 0 <= i < |back| ==> Ord(back[i].ts) != k
  {
    hide Ord;
    UptoGrows(evs, k);
    BackIsLater(evs, k);
    front := Upto(evs, k);
    back := evs[|Upto(evs, k + 1)|..];
  }

  /** All of a history's events with the contents `c` are at its stamp. */
  lemma TakenAt(evs: seq<Event>, c: Content)
    requires SortedEvents(evs)
    ensures Taken(evs, c) == Taken(At(evs, Ord(c.ts)), c)
  {
    hide Taken, SortedEvents, At, Upto, Ord;
    var mid := At(evs, Ord(c.ts));
    var front, back := SplitAt(evs, Ord(c.ts));
    TakenConcat(front + mid, back, c);
    TakenConcat(front, mid, c);
    NotTaken(front, c);
    NotTaken(back, c);
  }

  lemma AtMostOne(evs: seq<Event>, k: nat)
    requires SortedEvents(evs) && DistinctStamps(evs)
    ensures |At(evs, k)| <= 1
  {
    hide At, Ord, SortedEvents;
    if |At(evs, k)| > 1 {
      AtIsAt(evs, k, 0);
      AtIsAt(evs, k, 1);
      OrdIsOrder(At(evs, k)[0].ts, At(evs, k)[1].ts);
      assert false;
    }
  }

  lemma SameCountsSameSeq(a: seq<Content>, b: seq<Content>)
    requires |b| <= 1 && multiset(a) == multiset(b)
    ensures a == b
  {
    assert |multiset(a)| == |a| && |multiset(b)| == |b|;
    if |a| == 1 {
      assert a[0] in multiset(a) && a[0] in multiset(b);
    }
  }

  /** At the next stamp both histories have taken up the same messages. */
  lemma NextStampCounts(cfg: Config, m: Model, H: Histories, K: Histories, k: nat, l: LPId, c: Content)
    requires StrictModel(m) && IdentityBlind(m)
    requires ClosedBelow(cfg, m, H, k + 1) && ClosedBelow(cfg, m, K, k + 1)
    requires AgreeUpto(H, K, k) && l in H && Ord(c.ts) == k && c.dst == l
    ensures Taken(At(H[l], k), c) == Taken(At(K[l], k), c)
  {
    hide StrictModel, IdentityBlind, Taken, Asked, Ord;
    assert PlainHistory(l, H[l]) && PlainHistory(l, K[l]);
    SameAsked(cfg, m, H, K, c);
    TakenAt(H[l], c);
    TakenAt(K[l], c);
  }

  lemma NextStampAgrees(cfg: Config, m: Model, H: Histories, K: Histories, k: nat, l: LPId)
    requires StrictModel(m) && IdentityBlind(m)
    requires ClosedBelow(cfg, m, H, k + 1) && ClosedBelow(cfg, m, K, k + 1)
    requires AgreeUpto(H, K, k) && l in H && DistinctStamps(K[l])
    ensures ContentsOf(Upto(H[l], k + 1)) == ContentsOf(Upto(K[l], k + 1))
  {
    hide StrictModel, IdentityBlind, Taken, Asked, Upto, Ord, DistinctStamps;
    assert PlainHistory(l, H[l]) && PlainHistory(l, K[l]);
    var a := ContentsOf(At(H[l], k));
    var b := ContentsOf(At(K[l], k));
    AtOnly(H[l], k, l);
    AtOnly(K[l], k, l);
    forall c: Content ensures multiset(a)[c] == multiset(b)[c] {
      if Ord(c.ts) == k && c.dst == l {
        NextStampCounts(cfg, m, H, K, k, l, c);
        TakenIsCount(At(H[l], k), c);
        TakenIsCount(At(K[l], k), c);
      } else {
        assert c !in a && c !in b;
      }
    }
    assert multiset(a) == multiset(b);
    AtMostOne(K[l], k);
    SameCountsSameSeq(a, b);
    UptoGrows(H[l], k);
    UptoGrows(K[l], k);
    ContentsConcat(Upto(H[l], k), At(H[l], k));
    ContentsConcat(Upto(K[l], k), At(K[l], k));
  }

  lemma AtOnly(evs: seq<Event>, k: nat, l: LPId)
    requires PlainHistory(l, evs)
    ensures forall c :: c in ContentsOf(At(evs, k)) ==> Ord(c.ts) == k && c.dst == l
  {
    hide At, Ord;
    var at := At(evs, k);
    forall i | 0 <= i < |at| ensures Ord(at[i].ts) == k && at[i].dst == l { AtIsAt(evs, k, i); }
  }

  lemma TakenIsCount(evs: seq<Event>, c: Content)
    ensures Taken(evs, c) == multiset(ContentsOf(evs))[c]
  {
  }

  lemma ContentsConcat(a: seq<Event>, b: seq<Event>)
    ensures ContentsOf(a + b) == ContentsOf(a) + ContentsOf(b)
  {
  }

  /** Histories of the same contents have the same contents below any stamp. */
  lemma {:induction false} SameUpto(a: seq<Event>, b: seq<Event>, n: nat)
    requires ContentsOf(a) == ContentsOf(b)
    ensures ContentsOf(Upto(a, n)) == ContentsOf(Upto(b, n))
    decreases |a|
  {
    hide Ord;
    assert |ContentsOf(a)| == |a| && |ContentsOf(b)| == |b|;
    if |a| > 0 {
      assert ContentsOf(a)[0] == ContentsOf(b)[0];
      assert ContentsOf(a[1..]) == ContentsOf(a)[1..] && ContentsOf(b[1..]) == ContentsOf(b)[1..];
      SameUpto(a[1..], b[1..], n);
      if Ord(a[0].ts) < n {
        ContentsConcat([a[0]], Upto(a[1..], n));
        ContentsConcat([b[0]], Upto(b[1..], n));
        assert ContentsOf([a[0]]) == ContentsOf([b[0]]);
      }
    }
  }

  /** Histories that agree below a stamp ask for the same messages at it. */
  lemma SameAsked(cfg: Config, m: Model, H: Histories, K: Histories, c: Content)
    requires StrictModel(m) && IdentityBlind(m)
    requires forall l :: l in H ==> PlainHistory(l, H[l])
    requires forall l :: l in K ==> PlainHistory(l, K[l])
    requires AgreeUpto(H, K, Ord(c.ts))
    ensures (if c.src in H then Asked(cfg, m, c.src, H[c.src], c) else 0)
         == (if c.src in K then Asked(cfg, m, c.src, K[c.src], c) else 0)
  {
    hide StrictModel, IdentityBlind, Ord;
    var l := c.src;
    if l in H {
      var k := Ord(c.ts);
      AskedByTheEarlier(cfg, m, l, H[l], c);
      AskedByTheEarlier(cfg, m, l, K[l], c);
      UptoIsPlain(H[l], k);
      UptoIsPlain(K[l], k);
      SameContentsSameReplay(m, l, Upto(H[l], k), Upto(K[l], k));
    }
  }

  lemma UptoIsPlain(evs: seq<Event>, k: nat)
    requires Plain(evs)
    ensures Plain(Upto(evs, k))
  {
    var u := Upto(evs, k);
    forall i | 0 <= i < |u| ensures !u[i].isAnti { assert u[i] == evs[i]; }
  }

  /** At most one closed history with distinct stamps: two histories closed below a bound, one of
      them with distinct stamps per LP, agree below it. */
  lemma {:induction false} ClosedIsUnique(cfg: Config, m: Model, H: Histories, K: Histories, n: nat)
    requires StrictModel(m) && IdentityBlind(m) && H.Keys == K.Keys
    requires ClosedBelow(cfg, m, H, n) && ClosedBelow(cfg, m, K, n)
    requires forall l :: l in K ==> DistinctStamps(K[l])
    ensures AgreeUpto(H, K, n)
    decreases n
  {
    hide StrictModel, IdentityBlind, DistinctStamps, ClosedBelow;
    if n > 0 {
      LessClosed(cfg, m, H, n);
      LessClosed(cfg, m, K, n);
      ClosedIsUnique(cfg, m, H, K, n - 1);
      forall l | l in H ensures ContentsOf(Upto(H[l], n)) == ContentsOf(Upto(K[l], n)) {
        NextStampAgrees(cfg, m, H, K, n - 1, l);
      }
    }
  }

  lemma LessClosed(cfg: Config, m: Model, H: Histories, n: nat)
    requires ClosedBelow(cfg, m, H, n) && n > 0
    ensures ClosedBelow(cfg, m, H, n - 1)
  {
    hide PlainHistory, Taken, Asked;
  }

  /** Every stamp is below the end of time. */
  const END: nat := TWO64 * TWO64

  lemma UptoEnd(evs: seq<Event>)
    ensures Upto(evs, END) == evs
  {
    UptoIs(evs, END, |evs|);
  }
}
