/** Each kernel operation is a sequence of ledger moves, so it keeps the ledger's invariant. */
module BookSteps {
  import opened Stamps
  import opened Events
  import opened Models
  import opened Kernel
  import opened Replay
  import opened LpInvariant
  import opened LpSteps
  import opened RankSteps
  import opened Ledgers
  import opened Books
  import opened Collections

  /** Posting adds one message to the traffic and does nothing else the ledger sees. */
  lemma PostTraffic(cfg: Config, me: RankId, r: Rank, ev: Event)
    ensures Traffic(Post(cfg, me, r, ev)) == Traffic(r) + multiset{ev}
  {
    if cfg.rankOf(ev.dst) == me {
    } else if cfg.mode.AckInflight? {
      assert TrackSend(r, ev).pending == r.pending;
    } else {
    }
  }

  /* ---- Sending ---- */

  lemma SendOwnBooks(cfg: Config, ranks: seq<Rank>, r: nat, l: LPId, t: Event, hand: multiset<Event>)
    requires Placed(cfg, ranks) && r < |ranks| && Hosts(ranks[r], l) && OwnMessage(l, t)
    requires UidsInStep(ranks[r].lps[l], ranks[r].past[l])
    requires !SendEvent(cfg, r, ranks[r], t).aborted
    requires LedgerOk(LedgerOf(cfg, ranks, hand))
    ensures Placed(cfg, ranks[r := SendEvent(cfg, r, ranks[r], t)])
    ensures LedgerOk(LedgerOf(cfg, ranks[r := SendEvent(cfg, r, ranks[r], t)], hand))
  {
    hide SendEvent, Placed, LedgerOk, Post;
    var R := ranks[r];
    var ctx, e := SendOwnShape(cfg, r, R, l, t);
    var u := SendEvent(cfg, r, R, t);
    var entry := SentRecord(SendTime(R.lps[l]), e.ts, e.dst, e.uid);
    PostTraffic(cfg, r, R, e);
    LedgerWith(cfg, ranks, r, l, u, hand, hand, multiset{e}, multiset{});
    ConcatAssoc(R.past[l].pruned, R.lps[l].sentLog, [entry]);
    var L := LedgerOf(cfg, ranks, hand);
    var M := LedgerOf(cfg, ranks[r := u], hand);
    assert M.bag == L.bag + multiset{e};
    assert AccountIn(u.lps[l], u.past[l]).hist == L.accts[l].hist;
    assert AccountIn(u.lps[l], u.past[l]).log == L.accts[l].log + [entry];
    assert M == Issue(L, l, e, entry);
    IssueKeeps(LedgerOf(cfg, ranks, hand), l, e, entry);
  }

  lemma {:induction false} SendAllBooks(cfg: Config, ranks: seq<Rank>, r: nat, l: LPId, msgs: seq<Event>,
                                        hand: multiset<Event>)
    requires Placed(cfg, ranks) && r < |ranks| && Hosts(ranks[r], l)
    requires forall i :: 0 <= i < |msgs| ==> OwnMessage(l, msgs[i])
    requires UidsInStep(ranks[r].lps[l], ranks[r].past[l])
    requires !SendAll(cfg, r, ranks[r], msgs).aborted
    requires LedgerOk(LedgerOf(cfg, ranks, hand))
    ensures Placed(cfg, ranks[r := SendAll(cfg, r, ranks[r], msgs)])
    ensures LedgerOk(LedgerOf(cfg, ranks[r := SendAll(cfg, r, ranks[r], msgs)], hand))
    decreases |msgs|
  {
    hide SendEvent, Placed, LedgerOk, Post, LedgerOf;
    if |msgs| == 0 {
      assert ranks[r := ranks[r]] == ranks;
    } else {
      var one := SendEvent(cfg, r, ranks[r], msgs[0]);
      AbortSticks(cfg, r, one, msgs[1..]);
      SendOwnBooks(cfg, ranks, r, l, msgs[0], hand);
      var ctx, e := SendOwnShape(cfg, r, ranks[r], l, msgs[0]);
      var next := ranks[r := one];
      SendAllBooks(cfg, next, r, l, msgs[1..], hand);
      assert next[r := SendAll(cfg, r, ranks[r], msgs)] == ranks[r := SendAll(cfg, r, ranks[r], msgs)];
    }
  }

  /* ---- Changes the ledger does not see ---- */

  lemma SameBooksStill(cfg: Config, ranks: seq<Rank>, r: nat, l: LPId, u: Rank,
                       hand: multiset<Event>, handAfter: multiset<Event>)
    requires Placed(cfg, ranks) && r < |ranks| && ChangesOnly(ranks[r], l, u)
    requires AccountIn(u.lps[l], u.past[l]) == AccountIn(ranks[r].lps[l], ranks[r].past[l])
    requires Traffic(u) + handAfter == Traffic(ranks[r]) + hand && u.dropped == ranks[r].dropped
    ensures Placed(cfg, ranks[r := u])
    ensures LedgerOf(cfg, ranks[r := u], handAfter) == LedgerOf(cfg, ranks, hand)
  {
    hide AccountIn, Traffic, AccountsOf, Placed, ChangesOnly;
    LedgerWith(cfg, ranks, r, l, u, hand, handAfter, multiset{}, multiset{});
    var L := LedgerOf(cfg, ranks, hand);
    var M := LedgerOf(cfg, ranks[r := u], handAfter);
    assert M.bag + multiset{} == M.bag && L.bag + multiset{} == L.bag;
    PutSame(L.accts, l);
  }

  /* ---- Taking up a message ---- */

  /** A record for the message in hand is logged. */
  lemma PushBooks(cfg: Config, ranks: seq<Rank>, r: nat, u: Rank, ev: Event)
    requires Placed(cfg, ranks) && r < |ranks| && ChangesOnly(ranks[r], ev.dst, u)
    requires EventsOf(u.lps[ev.dst].processed) == EventsOf(ranks[r].lps[ev.dst].processed) + [ev]
    requires u.lps[ev.dst].sentLog == ranks[r].lps[ev.dst].sentLog && u.past[ev.dst] == ranks[r].past[ev.dst]
    requires Traffic(u) == Traffic(ranks[r]) && u.dropped == ranks[r].dropped
    requires LedgerOk(LedgerOf(cfg, ranks, multiset{ev}))
    requires forall x :: x in AccountIn(ranks[r].lps[ev.dst], ranks[r].past[ev.dst]).hist ==> !IsAntiOf(ev, x) && !IsAntiOf(x, ev)
    ensures Placed(cfg, ranks[r := u])
    ensures LedgerOk(LedgerOf(cfg, ranks[r := u], multiset{}))
  {
    hide Traffic, Placed, LedgerOk;
    var l := ev.dst;
    LedgerWith(cfg, ranks, r, l, u, multiset{ev}, multiset{}, multiset{}, multiset{ev});
    var L := LedgerOf(cfg, ranks, multiset{ev});
    var M := LedgerOf(cfg, ranks[r := u], multiset{});
    TakeAway(M.bag, L.bag, multiset{ev});
    EventsOfConcat(ranks[r].past[l].committed, ranks[r].lps[l].processed);
    EventsOfConcat(u.past[l].committed, u.lps[l].processed);
    assert AccountIn(u.lps[l], u.past[l]).hist == L.accts[l].hist + [ev];
    assert M == TakeUp(L, ev);
    TakeUpKeeps(L, ev);
  }

  lemma EventsOfConcat(a: seq<Record>, b: seq<Record>)
    ensures EventsOf(a + b) == EventsOf(a) + EventsOf(b)
  {
  }

  lemma ExecuteBooks(cfg: Config, m: Model, ranks: seq<Rank>, r: nat, ev: Event)
    requires CausalModel(m) && Placed(cfg, ranks) && r < |ranks|
    requires Hosts(ranks[r], ev.dst) && !ev.isAnti
    requires UidsInStep(ranks[r].lps[ev.dst], ranks[r].past[ev.dst])
    requires !Execute(cfg, m, r, ranks[r], ev).aborted
    requires LedgerOk(LedgerOf(cfg, ranks, multiset{ev}))
    requires forall x :: x in AccountIn(ranks[r].lps[ev.dst], ranks[r].past[ev.dst]).hist ==> !IsAntiOf(x, ev)
    ensures Placed(cfg, ranks[r := Execute(cfg, m, r, ranks[r], ev)])
    ensures LedgerOk(LedgerOf(cfg, ranks[r := Execute(cfg, m, r, ranks[r], ev)], multiset{}))
  {
    hide Placed, LedgerOk, LedgerOf, SendEvent;
    var l := ev.dst;
    var R := ranks[r];
    var open := WithLp(R, l, OpenLp(R.lps[l], ev));
    var script := m.handle(l, R.lps[l].state, ev);
    SameBooksStill(cfg, ranks, r, l, open, multiset{ev}, multiset{ev}) by { PutSame(R.past, l); }
    forall i | 0 <= i < |SendsOf(script)|
      ensures OwnMessage(l, SendsOf(script)[i])
    {
      assert SendsOf(script)[i] in SendsOf(script);
    }
    SendAllBooks(cfg, ranks[r := open], r, l, SendsOf(script), multiset{ev});
    var ctx, log, more := SendAllShape(cfg, r, open, l, SendsOf(script));
    var sent := SendAll(cfg, r, open, SendsOf(script));
    var u := Execute(cfg, m, r, R, ev);
    var mid := ranks[r := open][r := sent];
    PutSame(sent.past, l);
    PushBooks(cfg, mid, r, u, ev);
    assert mid[r := u] == ranks[r := u];
  }

  /* ---- Rolling back ---- */

  lemma RewindLogs(ctx: LpContext, undone: seq<Record>, to: TimeStamp)
    ensures Rewind(ctx, undone, to).processed == ctx.processed
    ensures Rewind(ctx, undone, to).sentLog == ctx.sentLog
  {
  }

  lemma CutAccount(ctx: LpContext, past: LpPast, ctxAfter: LpContext, k: nat)
    requires k <= |ctx.processed|
    requires ctxAfter.processed == ctx.processed[..k] && ctxAfter.sentLog == ctx.sentLog
    ensures
      var a := AccountIn(ctx, past);
      var c := |past.committed| + k;
      && c <= |a.hist|
      && AccountIn(ctxAfter, past) == a.(hist := a.hist[..c])
      && a.hist[c..] == EventsOf(ctx.processed[k..])
  {
    RewoundHist(past.committed, ctx.processed, k);
  }

  lemma RewoundAccount(r: Rank, l: LPId, to: TimeStamp)
    requires Hosts(r, l)
    ensures
      var a := AccountIn(r.lps[l], r.past[l]);
      var c := |r.past[l].committed| + Cut(r.lps[l].processed, to);
      var u := Rewound(r, l, to);
      && ChangesOnly(r, l, u)
      && c <= |a.hist|
      && AccountIn(u.lps[l], u.past[l]) == a.(hist := a.hist[..c])
      && Traffic(u) == Traffic(r) + multiset(a.hist[c..])
      && u.dropped == r.dropped
  {
    hide Undo, Rewound, UndoCancels, Restore, Rewind, Cut, AccountIn;
    var u := Rewound(r, l, to);
    var k := Cut(r.lps[l].processed, to);
    RewoundShape(r, l, to);
    RewindLogs(r.lps[l], r.lps[l].processed[k..], to);
    PutSame(r.past, l);
    CutAccount(r.lps[l], r.past[l], u.lps[l], k);
    assert Traffic(u) == Traffic(r) + multiset(EventsOf(r.lps[l].processed[k..]));
  }

  /** Undone records put their events back. */
  lemma RewoundBooks(cfg: Config, ranks: seq<Rank>, r: nat, l: LPId, to: TimeStamp, hand: multiset<Event>)
    requires Placed(cfg, ranks) && r < |ranks| && Hosts(ranks[r], l)
    requires LedgerOk(LedgerOf(cfg, ranks, hand))
    ensures Placed(cfg, ranks[r := Rewound(ranks[r], l, to)])
    ensures LedgerOk(LedgerOf(cfg, ranks[r := Rewound(ranks[r], l, to)], hand))
  {
    hide Placed, LedgerOk, Rewound, AccountIn, Traffic, ChangesOnly;
    var R := ranks[r];
    var u := Rewound(R, l, to);
    var c := |R.past[l].committed| + Cut(R.lps[l].processed, to);
    RewoundAccount(R, l, to);
    var back := multiset(AccountIn(R.lps[l], R.past[l]).hist[c..]);
    assert Hosts(u, l) by { PlacedHosts(R, l, u); }
    LedgerWith(cfg, ranks, r, l, u, hand, hand, back, multiset{});
    var L := LedgerOf(cfg, ranks, hand);
    var M := LedgerOf(cfg, ranks[r := u], hand);
    assert M.bag == L.bag + back by { assert M.bag + multiset{} == M.bag; }
    assert M == PutBack(L, l, c);
    PutBackKeeps(L, l, c);
  }

  lemma PlacedHosts(r: Rank, l: LPId, u: Rank)
    requires ChangesOnly(r, l, u)
    ensures Hosts(u, l)
  {
  }

  lemma RewoundHist(committed: seq<Record>, processed: seq<Record>, k: nat)
    requires k <= |processed|
    ensures EventsOf(committed + processed[..k]) == EventsOf(committed + processed)[..|committed| + k]
    ensures EventsOf(processed[k..]) == EventsOf(committed + processed)[|committed| + k..]
  {
  }

  /** Sending an anti-message does not look at the log that is about to be cut. */
  lemma CutLogCommutes(cfg: Config, me: RankId, r: Rank, l: LPId, anti: Event, log: seq<SentRecord>)
    requires !r.aborted && Hosts(r, l) && CompleteAnti(l, anti)
    ensures Hosts(SendEvent(cfg, me, r, anti), l)
    ensures SendEvent(cfg, me, CutLog(r, l, log), anti) == CutLog(SendEvent(cfg, me, r, anti), l, log)
  {
    hide SendEvent, Post;
    var painted := Paint(cfg, r, anti);
    SendAntiShape(cfg, me, r, anti);
    SendAntiShape(cfg, me, CutLog(r, l, log), anti);
    PostIgnoresLps(cfg, me, r, l, r.lps[l].(sentLog := log), painted);
  }

  lemma {:induction false} CutLogCommutesAll(cfg: Config, me: RankId, r: Rank, l: LPId, antis: seq<Event>, log: seq<SentRecord>)
    requires !r.aborted && Hosts(r, l)
    requires forall i :: 0 <= i < |antis| ==> CompleteAnti(l, antis[i])
    ensures Hosts(SendAll(cfg, me, r, antis), l)
    ensures SendAll(cfg, me, CutLog(r, l, log), antis) == CutLog(SendAll(cfg, me, r, antis), l, log)
    decreases |antis|
  {
    hide SendEvent, Post, CutLog;
    if |antis| > 0 {
      CutLogCommutes(cfg, me, r, l, antis[0], log);
      SendAntisShape(cfg, me, r, l, antis[..1]);
      var one := SendEvent(cfg, me, r, antis[0]);
      assert SendAll(cfg, me, r, antis[..1]) == one by {
        assert antis[..1][1..] == [] && antis[..1][0] == antis[0];
        assert SendAll(cfg, me, one, []) == one;
      }
      CutLogCommutesAll(cfg, me, one, l, antis[1..], log);
    }
  }

  ghost predicate CompleteLog(l: LPId, log: seq<SentRecord>) {
    forall i :: 0 <= i < |log| ==> CompleteAnti(l, AntiFor(l, log[i]))
  }

  /** One anti-message sent and its log entry dropped. */
  function RetractLast(cfg: Config, me: RankId, r: Rank, l: LPId): Rank
    requires l in r.lps && |r.lps[l].sentLog| > 0
  {
    var log := r.lps[l].sentLog;
    var u := SendEvent(cfg, me, r, AntiFor(l, log[|log| - 1]));
    if l in u.lps then CutLog(u, l, log[..|log| - 1]) else u
  }

  lemma RetractLastShape(cfg: Config, me: RankId, r: Rank, l: LPId)
    requires !r.aborted && Hosts(r, l) && |r.lps[l].sentLog| > 0 && CompleteLog(l, r.lps[l].sentLog)
    ensures
      var n := |r.lps[l].sentLog| - 1;
      var anti := Paint(cfg, r, AntiFor(l, r.lps[l].sentLog[n]));
      var u := RetractLast(cfg, me, r, l);
      && !u.aborted && ChangesOnly(r, l, u)
      && u.lps[l] == r.lps[l].(sentLog := r.lps[l].sentLog[..n])
      && u.past[l] == r.past[l].(antis := r.past[l].antis[anti.uid := anti])
      && Traffic(u) == Traffic(r) + multiset{anti}
      && u.dropped == r.dropped
  {
    hide SendEvent;
    var n := |r.lps[l].sentLog| - 1;
    var anti := AntiFor(l, r.lps[l].sentLog[n]);
    SendAntiShape(cfg, me, r, anti);
    PostTraffic(cfg, me, r, Paint(cfg, r, anti));
  }

  lemma RetractLastBooks(cfg: Config, ranks: seq<Rank>, r: nat, l: LPId, hand: multiset<Event>)
    requires Placed(cfg, ranks) && r < |ranks| && Hosts(ranks[r], l) && !ranks[r].aborted
    requires |ranks[r].lps[l].sentLog| > 0 && CompleteLog(l, ranks[r].lps[l].sentLog)
    requires LedgerOk(LedgerOf(cfg, ranks, hand))
    ensures Placed(cfg, ranks[r := RetractLast(cfg, r, ranks[r], l)])
    ensures LedgerOk(LedgerOf(cfg, ranks[r := RetractLast(cfg, r, ranks[r], l)], hand))
  {
    hide Placed, LedgerOk, RetractLast, Traffic, ChangesOnly, CompleteLog;
    var R := ranks[r];
    var n := |R.lps[l].sentLog| - 1;
    var anti := Paint(cfg, R, AntiFor(l, R.lps[l].sentLog[n]));
    var u := RetractLast(cfg, r, R, l);
    RetractLastShape(cfg, r, R, l);
    PlacedHosts(R, l, u);
    LedgerWith(cfg, ranks, r, l, u, hand, hand, multiset{anti}, multiset{});
    var L := LedgerOf(cfg, ranks, hand);
    var M := LedgerOf(cfg, ranks[r := u], hand);
    var pruned := R.past[l].pruned;
    assert M.bag == L.bag + multiset{anti} by { assert M.bag + multiset{} == M.bag; }
    assert (pruned + R.lps[l].sentLog)[..|pruned| + n] == pruned + R.lps[l].sentLog[..n] by {
      CutBehind(pruned, R.lps[l].sentLog, n);
    }
    assert M == Revoke(L, l, anti);
    RevokeKeeps(L, l, anti);
  }

  lemma {:induction false} RetractBooks(cfg: Config, ranks: seq<Rank>, r: nat, l: LPId, j: nat, hand: multiset<Event>)
    requires Placed(cfg, ranks) && r < |ranks| && Hosts(ranks[r], l) && !ranks[r].aborted
    requires j <= |ranks[r].lps[l].sentLog| && CompleteLog(l, ranks[r].lps[l].sentLog)
    requires LedgerOk(LedgerOf(cfg, ranks, hand))
    ensures
      var log := ranks[r].lps[l].sentLog;
      var sent := SendAll(cfg, r, ranks[r], AntisFor(l, log[j..]));
      && l in sent.lps
      && Placed(cfg, ranks[r := CutLog(sent, l, log[..j])])
      && LedgerOk(LedgerOf(cfg, ranks[r := CutLog(sent, l, log[..j])], hand))
    decreases |ranks[r].lps[l].sentLog| - j
  {
    hide Placed, LedgerOk, LedgerOf, SendEvent;
    var R := ranks[r];
    var log := R.lps[l].sentLog;
    var n := |log|;
    if j == n {
      assert AntisFor(l, log[n..]) == [];
      TakeAll(log);
      PutSame(R.lps, l);
      assert ranks[r := R] == ranks;
    } else {
      var u := RetractLast(cfg, r, R, l);
      RetractLastBooks(cfg, ranks, r, l, hand);
      RetractLastShape(cfg, r, R, l);
      var next := ranks[r := u];
      RetractBooks(cfg, next, r, l, j, hand);
      RetractSplit(cfg, r, R, l, j);
      var done := CutLog(SendAll(cfg, r, R, AntisFor(l, log[j..])), l, log[..j]);
      assert next[r := done] == ranks[r := done];
    }
  }

  lemma RetractSplit(cfg: Config, me: RankId, r: Rank, l: LPId, j: nat)
    requires !r.aborted && Hosts(r, l) && j < |r.lps[l].sentLog| && CompleteLog(l, r.lps[l].sentLog)
    ensures
      var log := r.lps[l].sentLog;
      var n := |log| - 1;
      var u := RetractLast(cfg, me, r, l);
      && Hosts(u, l) && u.lps[l].sentLog == log[..n]
      && l in SendAll(cfg, me, r, AntisFor(l, log[j..])).lps
      && l in SendAll(cfg, me, u, AntisFor(l, log[..n][j..])).lps
      && CutLog(SendAll(cfg, me, r, AntisFor(l, log[j..])), l, log[..j])
         == CutLog(SendAll(cfg, me, u, AntisFor(l, log[..n][j..])), l, log[..n][..j])
  {
    hide SendEvent, RetractLast, CompleteAnti;
    var log := r.lps[l].sentLog;
    var n := |log| - 1;
    var anti := AntiFor(l, log[n]);
    var rest := AntisFor(l, log[..n][j..]);
    assert log[j..][..n - j] == log[..n][j..];
    assert AntisFor(l, log[j..]) == [anti] + rest;
    TakeTake(log, n, j);
    RetractLastShape(cfg, me, r, l);
    var one := SendEvent(cfg, me, r, anti);
    RetractLastIs(cfg, me, r, l, one);
    CutLogCommutesAll(cfg, me, one, l, rest, log[..n]);
    var sent := SendAll(cfg, me, one, rest);
    PutPut(sent.lps, l, sent.lps[l].(sentLog := log[..n]), sent.lps[l].(sentLog := log[..j]));
  }

  lemma RetractLastIs(cfg: Config, me: RankId, r: Rank, l: LPId, one: Rank)
    requires !r.aborted && Hosts(r, l) && |r.lps[l].sentLog| > 0 && CompleteLog(l, r.lps[l].sentLog)
    requires one == SendEvent(cfg, me, r, AntiFor(l, r.lps[l].sentLog[|r.lps[l].sentLog| - 1]))
    ensures !one.aborted && Hosts(one, l)
    ensures RetractLast(cfg, me, r, l) == CutLog(one, l, r.lps[l].sentLog[..|r.lps[l].sentLog| - 1])
  {
    hide SendEvent;
    var n := |r.lps[l].sentLog| - 1;
    SendAntiShape(cfg, me, r, AntiFor(l, r.lps[l].sentLog[n]));
  }

  lemma RollbackBooks(cfg: Config, m: Model, ranks: seq<Rank>, r: nat, l: LPId, to: TimeStamp, hand: multiset<Event>)
    requires Placed(cfg, ranks) && r < |ranks| && LpsOk(cfg, m, ranks[r])
    requires l in ranks[r].lps && !ranks[r].aborted
    requires LedgerOk(LedgerOf(cfg, ranks, hand))
    ensures Placed(cfg, ranks[r := Rollback(cfg, r, ranks[r], l, to)])
    ensures LedgerOk(LedgerOf(cfg, ranks[r := Rollback(cfg, r, ranks[r], l, to)], hand))
  {
    hide Placed, LedgerOk, LedgerOf, SendEvent, LpOk, Rewound, UndoCancels;
    var R := ranks[r];
    LoggedSendsAreComplete(cfg, m, l, R.lps[l], R.past[l]);
    RewoundBooks(cfg, ranks, r, l, to, hand);
    var base := Rewound(R, l, to);
    RewoundShape(R, l, to);
    RewindLogs(R.lps[l], R.lps[l].processed[Cut(R.lps[l].processed, to)..], to);
    var next := ranks[r := base];
    RetractBooks(cfg, next, r, l, SendCut(base.lps[l].sentLog, to), hand);
    var u := Rollback(cfg, r, R, l, to);
    assert next[r := u] == ranks[r := u];
  }
}
