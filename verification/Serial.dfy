/** Every optimistic run is a sequential run.

    Whatever the stamps, ties included: below anything still on its way, the histories of a reachable
    state are those of some run of one queue in stamp order.  The run is built stamp by stamp, taking
    up the messages at each stamp as the histories do. */
module Serial {
  import opened Stamps
  import opened Events
  import opened Models
  import opened Kernel
  import opened Ledgers
  import opened Books
  import opened Handling
  import opened Worlds
  import opened Gvt
  import opened Runs
  import opened Closed
  import opened Sequential
  import opened Invisible
  import opened Equivalence

  /* ---- Steps of the sequential run ---- */

  ghost predicate OwnLps(cfg: Config, s: Simulator) {
    s.hist.Keys == cfg.lps && s.state.Keys == cfg.lps && s.started <= cfg.lps
  }

  lemma FirstIsReachable(cfg: Config, m: Model) returns (s: Simulator)
    ensures SeqReachable(cfg, m, s) && OwnLps(cfg, s) && forall l :: l in s.hist ==> s.hist[l] == []
  {
    s := Simulator({}, multiset{}, map l | l in cfg.lps :: [], map l | l in cfg.lps :: m.init(l));
    assert SeqRun(cfg, m, [s]) && [s][|[s]| - 1] == s;
  }

  lemma OneFurther(cfg: Config, m: Model, s: Simulator, t: Simulator)
    requires SeqReachable(cfg, m, s) && SeqStep(cfg, m, s, t)
    ensures SeqReachable(cfg, m, t)
  {
    hide SeqInit, SeqStep;
    var trace :| SeqRun(cfg, m, trace) && trace[|trace| - 1] == s;
    var more := trace + [t];
    forall i | 0 <= i < |more| - 1 ensures SeqStep(cfg, m, more[i], more[i + 1]) {
      if i < |trace| - 1 { assert more[i] == trace[i] && more[i + 1] == trace[i + 1]; }
    }
    assert more[0] == trace[0] && SeqRun(cfg, m, more) && more[|more| - 1] == t;
  }

  /** Every LP can start. */
  lemma {:induction false} StartAll(cfg: Config, m: Model, s: Simulator) returns (t: Simulator)
    requires SeqReachable(cfg, m, s) && OwnLps(cfg, s)
    ensures SeqReachable(cfg, m, t) && OwnLps(cfg, t) && t.started == cfg.lps && t.hist == s.hist
    decreases |cfg.lps - s.started|
  {
    hide SeqReachable, SentContents;
    if s.started == cfg.lps {
      t := s;
    } else {
      assert exists l :: l in cfg.lps && l !in s.started;
      var l :| l in cfg.lps && l !in s.started;
      var u := s.(started := s.started + {l}, queue := s.queue + multiset(SentContents(cfg, m.start(l))));
      assert SeqBegins(cfg, m, s, l, u);
      OneFurther(cfg, m, s, u);
      assert cfg.lps - u.started == cfg.lps - s.started - {l};
      t := StartAll(cfg, m, u);
    }
  }

  /** The messages at one stamp, and the later ones. */
  ghost predicate SplitsAt(queue: multiset<Content>, now: multiset<Content>, later: multiset<Content>, n: nat) {
    queue == now + later && (forall c :: c in now ==> Ord(c.ts) == n) && (forall c :: c in later ==> n < Ord(c.ts))
  }

  lemma PutBack(queue: multiset<Content>, now: multiset<Content>, later: multiset<Content>, n: nat, c: Content)
    requires c in queue && SplitsAt(queue - multiset{c}, now, later, n) && n <= Ord(c.ts)
    ensures if Ord(c.ts) == n then SplitsAt(queue, now + multiset{c}, later, n) else SplitsAt(queue, now, later + multiset{c}, n)
  {
    hide Ord;
    assert queue == queue - multiset{c} + multiset{c};
  }

  lemma NothingSplits(n: nat)
    ensures SplitsAt(multiset{}, multiset{}, multiset{}, n)
  {
  }

  lemma {:induction false} QueueSplits(queue: multiset<Content>, n: nat) returns (now: multiset<Content>, later: multiset<Content>)
    requires forall c :: c in queue ==> n <= Ord(c.ts)
    ensures SplitsAt(queue, now, later, n)
    decreases |queue|
  {
    hide Ord, SplitsAt;
    if queue == multiset{} {
      now, later := multiset{}, multiset{};
      NothingSplits(n);
    } else {
      var c :| c in queue;
      now, later := QueueSplits(queue - multiset{c}, n);
      PutBack(queue, now, later, n, c);
      if Ord(c.ts) == n { now := now + multiset{c}; } else { later := later + multiset{c}; }
    }
  }

  /** A message at the least stamp is taken up. */
  lemma HandleOne(cfg: Config, m: Model, s: Simulator, c: Content, n: nat) returns (t: Simulator)
    requires StrictModel(m) && SeqReachable(cfg, m, s) && OwnLps(cfg, s) && s.started == cfg.lps
    requires c in s.queue && c.dst in cfg.lps && Ord(c.ts) == n && forall d :: d in s.queue ==> n <= Ord(d.ts)
    ensures SeqReachable(cfg, m, t) && OwnLps(cfg, t) && t.started == cfg.lps
    ensures t.hist == s.hist[c.dst := s.hist[c.dst] + [AsEvent(c)]]
    ensures t.queue == s.queue - multiset{c} + multiset(NewlyAsked(cfg, m, s, c))
    ensures forall d :: d in multiset(NewlyAsked(cfg, m, s, c)) ==> n < Ord(d.ts)
  {
    hide SeqReachable, SentContents, Ord, StrictModel, AfterEvent, SendsOf;
    var msgs := SendsOf(m.handle(c.dst, s.state[c.dst], AsEvent(c)));
    t := s.(queue := s.queue - multiset{c} + multiset(SentContents(cfg, msgs)),
            hist := s.hist[c.dst := s.hist[c.dst] + [AsEvent(c)]],
            state := s.state[c.dst := AfterEvent(m, c.dst, s.state[c.dst], AsEvent(c))]);
    forall d | d in s.queue ensures c.ts.Le(d.ts) { OrdIsOrder(d.ts, c.ts); }
    assert SeqHandles(cfg, m, s, c, t);
    OneFurther(cfg, m, s, t);
    forall d | d in multiset(NewlyAsked(cfg, m, s, c)) ensures n < Ord(d.ts) {
      NewIsLater(cfg, m, s, c, d);
      OrdIsOrder(c.ts, d.ts);
    }
  }

  function ForLp(cs: seq<Content>, l: LPId): (mine: seq<Content>)
    ensures forall c :: c in mine ==> c in cs && c.dst == l
  {
    if |cs| == 0 then [] else (if cs[0].dst == l then [cs[0]] else []) + ForLp(cs[1..], l)
  }

  lemma NewQueue(queue: multiset<Content>, todo: seq<Content>, later: multiset<Content>, n: nat, added: multiset<Content>)
    requires |todo| > 0 && SplitsAt(queue, multiset(todo), later, n) && forall d :: d in added ==> n < Ord(d.ts)
    ensures SplitsAt(queue - multiset{todo[0]} + added, multiset(todo[1..]), later + added, n)
    ensures todo[0] in queue && Ord(todo[0].ts) == n && forall d :: d in queue ==> n <= Ord(d.ts)
  {
    hide Ord;
    assert todo == [todo[0]] + todo[1..];
    assert multiset(todo) == multiset{todo[0]} + multiset(todo[1..]);
  }

  lemma HistSnoc(evs: seq<Event>, c: Content)
    ensures ContentsOf(evs + [AsEvent(c)]) == ContentsOf(evs) + [c]
  {
  }

  /** All messages at the least stamp are taken up, in any order one likes; what comes of them is later. */
  lemma {:induction false} HandleInOrder(cfg: Config, m: Model, s: Simulator, todo: seq<Content>, later: multiset<Content>, n: nat)
    returns (t: Simulator)
    requires StrictModel(m) && SeqReachable(cfg, m, s) && OwnLps(cfg, s) && s.started == cfg.lps
    requires SplitsAt(s.queue, multiset(todo), later, n) && forall c :: c in todo ==> c.dst in cfg.lps
    ensures SeqReachable(cfg, m, t) && OwnLps(cfg, t) && t.started == cfg.lps
    ensures forall l :: l in cfg.lps ==> ContentsOf(t.hist[l]) == ContentsOf(s.hist[l]) + ForLp(todo, l)
    ensures forall c :: c in t.queue ==> n + 1 <= Ord(c.ts)
    decreases |todo|
  {
    hide SeqReachable, StrictModel, Ord, NewlyAsked, OwnLps, SplitsAt, ForLp, AsEvent;
    if |todo| == 0 {
      t := s;
      DoneAt(cfg, s, todo, later, n);
    } else {
      var c := todo[0];
      var none: multiset<Content> := multiset{};
      NewQueue(s.queue, todo, later, n, none);
      assert c in todo;
      OwnKeys(cfg, s);
      var u := HandleOne(cfg, m, s, c, n);
      var added := multiset(NewlyAsked(cfg, m, s, c));
      NewQueue(s.queue, todo, later, n, added);
      t := HandleInOrder(cfg, m, u, todo[1..], later + added, n);
      OwnKeys(cfg, u);
      OwnKeys(cfg, t);
      forall l | l in cfg.lps ensures ContentsOf(t.hist[l]) == ContentsOf(s.hist[l]) + ForLp(todo, l) {
        OneTaken(s.hist[l], u.hist[l], todo, l);
      }
    }
  }

  lemma OwnKeys(cfg: Config, s: Simulator)
    requires OwnLps(cfg, s)
    ensures s.hist.Keys == cfg.lps && s.state.Keys == cfg.lps
  {
  }

  lemma DoneAt(cfg: Config, s: Simulator, todo: seq<Content>, later: multiset<Content>, n: nat)
    requires |todo| == 0 && SplitsAt(s.queue, multiset(todo), later, n) && OwnLps(cfg, s)
    ensures forall c :: c in s.queue ==> n + 1 <= Ord(c.ts)
    ensures s.hist.Keys == cfg.lps && forall l :: l in cfg.lps ==> ContentsOf(s.hist[l]) == ContentsOf(s.hist[l]) + ForLp(todo, l)
  {
    hide Ord;
    assert todo == [];
  }

  /** An LP's history after one message more. */
  lemma OneTaken(before: seq<Event>, after: seq<Event>, todo: seq<Content>, l: LPId)
    requires |todo| > 0 && after == if l == todo[0].dst then before + [AsEvent(todo[0])] else before
    ensures ContentsOf(after) + ForLp(todo[1..], l) == ContentsOf(before) + ForLp(todo, l)
  {
    var c := todo[0];
    HistSnoc(before, c);
    if l == c.dst {
      assert ContentsOf(before) + [c] + ForLp(todo[1..], l) == ContentsOf(before) + ([c] + ForLp(todo[1..], l));
    } else {
      assert [] + ForLp(todo[1..], l) == ForLp(todo[1..], l);
    }
  }

  /* ---- What there is to take up at a stamp ---- */

  lemma {:induction false} Listing(s: set<LPId>) returns (ls: seq<LPId>)
    ensures forall l :: l in ls <==> l in s
    ensures forall i, j :: 0 <= i < j < |ls| ==> ls[i] != ls[j]
    decreases |s|
  {
    if s == {} {
      ls := [];
    } else {
      var l :| l in s;
      var rest := Listing(s - {l});
      ls := [l] + rest;
    }
  }

  /** The messages that the listed LPs' histories take up at a stamp, LP by LP. */
  function Todo(H: Histories, ls: seq<LPId>, k: nat): seq<Content>
    requires forall l :: l in ls ==> l in H
  {
    if |ls| == 0 then [] else ContentsOf(At(H[ls[0]], k)) + Todo(H, ls[1..], k)
  }

  lemma {:induction false} ForLpConcat(a: seq<Content>, b: seq<Content>, l: LPId)
    ensures ForLp(a + b, l) == ForLp(a, l) + ForLp(b, l)
    decreases |a|
  {
    if |a| == 0 {
      assert a + b == b;
    } else {
      assert (a + b)[0] == a[0] && (a + b)[1..] == a[1..] + b;
      ForLpConcat(a[1..], b, l);
      var head := if a[0].dst == l then [a[0]] else [];
      assert head + (ForLp(a[1..], l) + ForLp(b, l)) == head + ForLp(a[1..], l) + ForLp(b, l);
    }
  }

  lemma {:induction false} ForLpAll(cs: seq<Content>, p: LPId, l: LPId)
    requires forall c :: c in cs ==> c.dst == p
    ensures ForLp(cs, l) == if l == p then cs else []
    decreases |cs|
  {
    if |cs| > 0 {
      assert cs[0] in cs;
      ForLpAll(cs[1..], p, l);
      assert cs == [cs[0]] + cs[1..];
    }
  }

  ghost predicate EachOnce(ls: seq<LPId>) {
    forall i, j :: 0 <= i < j < |ls| ==> ls[i] != ls[j]
  }

  lemma HeadOrTail(ls: seq<LPId>, l: LPId)
    requires |ls| > 0 && EachOnce(ls)
    ensures EachOnce(ls[1..]) && (l in ls <==> l == ls[0] || l in ls[1..]) && !(l == ls[0] && l in ls[1..])
  {
  }

  lemma {:induction false} TodoFor(H: Histories, ls: seq<LPId>, k: nat, l: LPId)
    requires (forall p :: p in ls ==> p in H && PlainHistory(p, H[p])) && EachOnce(ls)
    ensures ForLp(Todo(H, ls, k), l) == if l in ls then ContentsOf(At(H[l], k)) else []
    decreases |ls|
  {
    hide PlainHistory, At, EachOnce;
    if |ls| > 0 {
      var p := ls[0];
      HeadOrTail(ls, l);
      AtOnly(H[p], k, p);
      ForLpAll(ContentsOf(At(H[p], k)), p, l);
      ForLpConcat(ContentsOf(At(H[p], k)), Todo(H, ls[1..], k), l);
      TodoFor(H, ls[1..], k, l);
    }
  }

  lemma {:induction false} TodoCount(H: Histories, ls: seq<LPId>, k: nat, c: Content)
    requires (forall p :: p in ls ==> p in H && PlainHistory(p, H[p])) && EachOnce(ls)
    ensures multiset(Todo(H, ls, k))[c] == if c.dst in ls && Ord(c.ts) == k then Taken(H[c.dst], c) else 0
    ensures c in Todo(H, ls, k) ==> c.dst in ls
    decreases |ls|
  {
    hide PlainHistory, At, EachOnce, Ord, Taken;
    if |ls| > 0 {
      var p := ls[0];
      HeadOrTail(ls, c.dst);
      AtOnly(H[p], k, p);
      TodoCount(H, ls[1..], k, c);
      CountConcat(ContentsOf(At(H[p], k)), Todo(H, ls[1..], k), c);
      TakenIsCount(At(H[p], k), c);
      if c.dst == p && Ord(c.ts) == k { TakenAtStamp(p, H[p], c); }
    }
  }

  lemma TakenAtStamp(l: LPId, evs: seq<Event>, c: Content)
    requires PlainHistory(l, evs)
    ensures Taken(evs, c) == Taken(At(evs, Ord(c.ts)), c)
  {
    hide Taken, At;
    TakenAt(evs, c);
  }

  /* ---- The run follows the histories ---- */

  /** No message below `n` is asked for that would go to an LP there is not. */
  ghost predicate NoStrays(cfg: Config, m: Model, H: Histories, n: nat) {
    forall c: Content :: c.src in H && c.dst !in H && Ord(c.ts) < n ==> Asked(cfg, m, c.src, H[c.src], c) == 0
  }

  /** A sequential run that has done exactly what the histories say below `n`. */
  ghost predicate Follows(cfg: Config, m: Model, H: Histories, s: Simulator, n: nat) {
    && SeqReachable(cfg, m, s) && OwnLps(cfg, s) && s.started == cfg.lps == H.Keys
    && (forall l :: l in H ==> l in s.hist && ContentsOf(s.hist[l]) == ContentsOf(Upto(H[l], n)))
    && (forall c :: c in s.queue ==> n <= Ord(c.ts))
  }

  lemma NothingTakenYet(evs: seq<Event>, hist: seq<Event>, n: nat, c: Content)
    requires ContentsOf(hist) == ContentsOf(Upto(evs, n)) && Ord(c.ts) == n
    ensures Taken(hist, c) == 0
  {
    hide Ord;
    var u := Upto(evs, n);
    assert |ContentsOf(hist)| == |hist| && |ContentsOf(u)| == |u|;
    forall i | 0 <= i < |hist| ensures Ord(hist[i].ts) != Ord(c.ts) { assert ContentsOf(hist)[i] == ContentsOf(u)[i]; }
    NotTaken(hist, c);
  }

  lemma SameAskedSoFar(cfg: Config, m: Model, l: LPId, evs: seq<Event>, hist: seq<Event>, c: Content)
    requires StrictModel(m) && IdentityBlind(m) && PlainHistory(l, evs) && PlainHistory(l, hist)
    requires ContentsOf(hist) == ContentsOf(Upto(evs, Ord(c.ts)))
    ensures Asked(cfg, m, l, hist, c) == Asked(cfg, m, l, evs, c)
  {
    hide StrictModel, IdentityBlind, Ord, RequestsOf, Upto;
    AskedByTheEarlier(cfg, m, l, evs, c);
    UptoIsPlain(evs, Ord(c.ts));
    SameContentsSameReplay(m, l, hist, Upto(evs, Ord(c.ts)));
  }

  /** What is in the queue at the next stamp is what the histories take up there. */
  lemma QueueIsTodo(cfg: Config, m: Model, H: Histories, s: Simulator, n: nat, N: nat, c: Content)
    requires CausalModel(m) && StrictModel(m) && IdentityBlind(m) && ClosedBelow(cfg, m, H, N) && NoStrays(cfg, m, H, N) && n < N
    requires Follows(cfg, m, H, s, n) && Ord(c.ts) == n
    ensures s.queue[c] == if c.dst in H then Taken(H[c.dst], c) else 0
  {
    hide CausalModel, StrictModel, IdentityBlind, SeqReachable, Ord, Upto, Taken, Asked, StateAfter, RequestsOf;
    SeqReachableOk(cfg, m, s);
    assert s.queue[c] + TakenSoFar(s, c) == AskedSoFar(cfg, m, s, c);
    if c.dst in H { NothingTakenYet(H[c.dst], s.hist[c.dst], n, c); }
    assert TakenSoFar(s, c) == 0;
    if c.src in H {
      assert PlainHistory(c.src, H[c.src]) && PlainHistory(c.src, s.hist[c.src]);
      SameAskedSoFar(cfg, m, c.src, H[c.src], s.hist[c.src], c);
      AskedSoFarIs(cfg, m, s, c);
    }
  }

  lemma AskedSoFarIs(cfg: Config, m: Model, s: Simulator, c: Content)
    requires c.src in s.hist && c.src in s.started
    ensures AskedSoFar(cfg, m, s, c) == Asked(cfg, m, c.src, s.hist[c.src], c)
  {
  }

  lemma FirstFollows(cfg: Config, m: Model, H: Histories) returns (s: Simulator)
    requires H.Keys == cfg.lps
    ensures Follows(cfg, m, H, s, 0)
  {
    hide SeqReachable;
    var first := FirstIsReachable(cfg, m);
    s := StartAll(cfg, m, first);
    forall l | l in H ensures ContentsOf(s.hist[l]) == ContentsOf(Upto(H[l], 0)) { UptoIs(H[l], 0, 0); }
  }

  lemma QueueAtStamp(cfg: Config, m: Model, H: Histories, s: Simulator, n: nat, N: nat, ls: seq<LPId>)
    returns (later: multiset<Content>)
    requires CausalModel(m) && StrictModel(m) && IdentityBlind(m) && ClosedBelow(cfg, m, H, N) && NoStrays(cfg, m, H, N) && n < N
    requires Follows(cfg, m, H, s, n) && EachOnce(ls) && forall l :: l in ls <==> l in H
    ensures SplitsAt(s.queue, multiset(Todo(H, ls, n)), later, n)
  {
    hide CausalModel, StrictModel, IdentityBlind, SeqReachable, Ord, Upto, Taken, Asked, NoStrays, Todo, EachOnce, PlainHistory;
    var now;
    now, later := QueueSplits(s.queue, n);
    var todo := Todo(H, ls, n);
    forall c ensures now[c] == multiset(todo)[c] {
      TodoCount(H, ls, n, c);
      if Ord(c.ts) == n {
        QueueIsTodo(cfg, m, H, s, n, N, c);
        assert c !in later;
      } else {
        assert c !in now;
      }
    }
    assert now == multiset(todo);
  }

  lemma NextFollows(cfg: Config, m: Model, H: Histories, s: Simulator, n: nat, N: nat) returns (t: Simulator)
    requires CausalModel(m) && StrictModel(m) && IdentityBlind(m) && ClosedBelow(cfg, m, H, N) && NoStrays(cfg, m, H, N) && n < N
    requires Follows(cfg, m, H, s, n)
    ensures Follows(cfg, m, H, t, n + 1)
  {
    hide CausalModel, StrictModel, IdentityBlind, SeqReachable, Ord, Upto, Taken, Asked, NoStrays, Todo, At, PlainHistory, ForLp;
    var ls := Listing(cfg.lps);
    var later := QueueAtStamp(cfg, m, H, s, n, N, ls);
    forall c | c in Todo(H, ls, n) ensures c.dst in cfg.lps { TodoCount(H, ls, n, c); }
    t := HandleInOrder(cfg, m, s, Todo(H, ls, n), later, n);
    forall l | l in H ensures ContentsOf(t.hist[l]) == ContentsOf(Upto(H[l], n + 1)) {
      TodoFor(H, ls, n, l);
      UptoGrows(H[l], n);
      ContentsConcat(Upto(H[l], n), At(H[l], n));
    }
  }

  /** Histories closed below a bound are those of a sequential run up to it. */
  lemma {:induction false} ClosedIsFollowed(cfg: Config, m: Model, H: Histories, n: nat, N: nat) returns (s: Simulator)
    requires CausalModel(m) && StrictModel(m) && IdentityBlind(m) && ClosedBelow(cfg, m, H, N) && NoStrays(cfg, m, H, N) && n <= N
    requires H.Keys == cfg.lps
    ensures Follows(cfg, m, H, s, n)
    decreases n
  {
    hide CausalModel, StrictModel, IdentityBlind, ClosedBelow, NoStrays, Follows;
    if n == 0 {
      s := FirstFollows(cfg, m, H);
    } else {
      var before := ClosedIsFollowed(cfg, m, H, n - 1, N);
      s := NextFollows(cfg, m, H, before, n - 1, N);
    }
  }

  /* ---- Reachable states ---- */

  lemma LiveGoesToLps(L: Ledger, e: Event, p: LPId, n: nat)
    requires LedgerOk(L) && QuietBelow(L.bag, n) && p in L.accts && LogListsLive(L.accts[p]) && e in Live(L.accts[p]) && Ord(e.ts) < n
    ensures e.dst in L.accts
  {
    hide BagOk, HistOk, OnePlace, NoneOpposed, QuietBelow, LogListsLive, AntisOk, LedgerOk, Ord;
    AccountInLedger(L, p);
    LiveIs(p, L.accts[p], e);
    LiveHaveSrc(p, L.accts[p]);
    LiveArePlain(p, L.accts[p]);
    KnownIsSomewhere(L, e, n);
  }

  lemma {:induction false} TakenSome(evs: seq<Event>, c: Content)
    requires Taken(evs, c) > 0
    ensures exists e :: e in evs && ContentOf(e) == c
  {
    var cs := ContentsOf(evs);
    assert c in multiset(cs) && c in cs;
    var i :| 0 <= i < |cs| && cs[i] == c;
    assert evs[i] in evs;
  }

  lemma WorldHasNoStrays(cfg: Config, m: Model, w: World, n: nat)
    requires StrictModel(m) && WorldOk(cfg, m, w) && AllStarted(w) && QuietBelow(AllTraffic(w), n)
    ensures NoStrays(cfg, m, HistoriesOf(cfg, w), n)
  {
    hide StrictModel, WorldOk, AllStarted, Taken, Asked, AccountAt, LogListsLive, LedgerOk, Positive, QuietBelow, Ord, LedgerOf;
    var H := HistoriesOf(cfg, w);
    var L := LedgerOf(cfg, w, multiset{});
    WorldLedger(cfg, m, w);
    forall c: Content | c.src in H && c.dst !in H && Ord(c.ts) < n ensures Asked(cfg, m, c.src, H[c.src], c) == 0 {
      WorldAsks(cfg, m, w, c);
      AccountIs(cfg, w, c.src);
      if Asked(cfg, m, c.src, H[c.src], c) > 0 {
        TakenSome(Live(AccountAt(cfg, w, c.src)), c);
        var e :| e in Live(AccountAt(cfg, w, c.src)) && ContentOf(e) == c;
        LiveGoesToLps(L, e, c.src, n);
      }
    }
  }

  lemma AccountIs(cfg: Config, w: World, l: LPId)
    requires l in cfg.lps
    ensures l in LedgerOf(cfg, w, multiset{}).accts && LedgerOf(cfg, w, multiset{}).accts[l] == AccountAt(cfg, w, l)
    ensures LedgerOf(cfg, w, multiset{}).accts.Keys == cfg.lps
  {
    hide AccountAt;
  }

  /** Below anything still on its way, the histories of a reachable state are those of a sequential
      run, whatever stamps events share. */
  lemma HistoriesAreSequential(cfg: Config, m: Model, w: World, n: nat) returns (s: Simulator)
    requires DeterministicModel(m) && Reachable(cfg, m, w) && AllStarted(w) && QuietBelow(AllTraffic(w), n)
    ensures SeqReachable(cfg, m, s) && s.started == cfg.lps && (forall c :: c in s.queue ==> n <= Ord(c.ts))
    ensures s.hist.Keys == HistoriesOf(cfg, w).Keys == cfg.lps
    ensures forall l :: l in cfg.lps ==> ContentsOf(s.hist[l]) == ContentsOf(Upto(HistoriesOf(cfg, w)[l], n))
  {
    hide GoodModel, StrictModel, IdentityBlind, Reachable, SeqReachable, ClosedBelow, AllStarted, Upto, WorldOk, QuietBelow, NoStrays, Ord;
    GoodIsCausal(m);
    ReachableOk(cfg, m, w);
    WorldIsClosed(cfg, m, w, n);
    WorldHasNoStrays(cfg, m, w, n);
    s := ClosedIsFollowed(cfg, m, HistoriesOf(cfg, w), n, n);
  }

  lemma NothingAtTheEnd(s: Simulator)
    requires forall c :: c in s.queue ==> END <= Ord(c.ts)
    ensures s.queue == multiset{}
  {
    forall c ensures c !in s.queue { assert Ord(c.ts) < END; }
  }

  /** Every ended run is a sequential run: one queue, in stamp order, with the same events and the same
      states.  Only the order of events of one stamp is left to the optimistic run. */
  lemma EndedRunIsSequential(cfg: Config, m: Model, w: World) returns (s: Simulator)
    requires DeterministicModel(m) && Reachable(cfg, m, w) && AllStarted(w) && AllTraffic(w) == multiset{}
    ensures SeqReachable(cfg, m, s) && s.started == cfg.lps && s.queue == multiset{} && s.hist.Keys == s.state.Keys == cfg.lps
    ensures forall l :: l in cfg.lps ==> ContentsOf(HistoriesOf(cfg, w)[l]) == ContentsOf(s.hist[l])
    ensures forall l :: l in cfg.lps ==> Hosted(cfg, w, l) && StateOf(cfg, w, l) == s.state[l]
  {
    hide GoodModel, StrictModel, IdentityBlind, Reachable, SeqReachable, AllStarted, Upto, StateAfter, StateOf, ClosedBelow, Ord, PlainHistory,
         HistoriesOf;
    GoodIsCausal(m);
    NothingLeft(w);
    s := HistoriesAreSequential(cfg, m, w, END);
    NothingAtTheEnd(s);
    SequentialIsClosed(cfg, m, s, END);
    forall l | l in cfg.lps
      ensures Hosted(cfg, w, l) && ContentsOf(HistoriesOf(cfg, w)[l]) == ContentsOf(s.hist[l]) && StateOf(cfg, w, l) == s.state[l]
    {
      UptoEnd(HistoriesOf(cfg, w)[l]);
      WorldState(cfg, m, w, l);
      ClosedIsPlain(cfg, m, s.hist, END, l);
      PlainAlike(m, l, HistoriesOf(cfg, w)[l], s.hist[l]);
    }
  }

  lemma ClosedIsPlain(cfg: Config, m: Model, H: Histories, n: nat, l: LPId)
    requires ClosedBelow(cfg, m, H, n) && l in H
    ensures PlainHistory(l, H[l])
  {
    hide PlainHistory;
  }

  lemma PlainAlike(m: Model, l: LPId, a: seq<Event>, b: seq<Event>)
    requires IdentityBlind(m) && PlainHistory(l, a) && PlainHistory(l, b) && ContentsOf(a) == ContentsOf(b)
    ensures StateAfter(m, l, a) == StateAfter(m, l, b)
  {
    hide IdentityBlind;
    SameContentsSameReplay(m, l, a, b);
  }

  /** At every moment, what all LPs have committed is what a sequential run has done by the GVT. */
  lemma CommittedRunIsSequential(cfg: Config, m: Model, w: World, me: RankId) returns (s: Simulator)
    requires DeterministicModel(m) && Reachable(cfg, m, w) && AllStarted(w) && me < |w|
    ensures SeqReachable(cfg, m, s) && s.started == cfg.lps && s.hist.Keys == cfg.lps
    ensures forall c :: c in s.queue ==> w[me].lastGvt.Le(c.ts)
    ensures forall l :: l in cfg.lps ==> Hosted(cfg, w, l) && ContentsOf(CommittedOf(cfg, w, l)) == ContentsOf(s.hist[l])
  {
    hide GoodModel, StrictModel, IdentityBlind, Reachable, SeqReachable, AllStarted, Upto, Ord, HistoriesOf, CommittedOf, WorldOk;
    ReachableOk(cfg, m, w);
    QuietBelowGvt(cfg, m, w, me);
    s := HistoriesAreSequential(cfg, m, w, Ord(w[me].lastGvt));
    forall c | c in s.queue ensures w[me].lastGvt.Le(c.ts) { OrdIsOrder(c.ts, w[me].lastGvt); }
    forall l | l in cfg.lps ensures Hosted(cfg, w, l) && ContentsOf(CommittedOf(cfg, w, l)) == ContentsOf(s.hist[l]) {
      CommittedIsUptoGvt(cfg, m, w, l);
      SameGvt(cfg, m, w, me, cfg.rankOf(l));
    }
  }

  lemma SameGvt(cfg: Config, m: Model, w: World, me: RankId, q: RankId)
    requires WorldOk(cfg, m, w) && me < |w| && q < |w|
    ensures w[me].lastGvt == w[q].lastGvt
  {
    AllOkAgrees(cfg, w);
  }
}
