/** The exchange's matching loop (examples/market_demo.cpp): the best bid meets the best ask until
    the book is uncrossed or enough trades have been made. */
module Market {
  import opened Stamps
  import opened Events

  datatype Order = Order(id: u64, trader: EntityId, qty: u32, price: u64)

  datatype Book = Book(bids: seq<Order>, asks: seq<Order>)

  datatype Trade = Trade(bid: Order, ask: Order, qty: u32)

  type int64 = x: int | -0x8000_0000_0000_0000 <= x < 0x8000_0000_0000_0000

  /** A number in 64 bits, as two's complement wraps it. */
  function Signed(x: int): (r: int64)
    ensures r % TWO64 == x % TWO64
  {
    var u := x % TWO64;
    if u < 0x8000_0000_0000_0000 then u else u - TWO64
  }

  function Unsigned(x: int): u64 { x % TWO64 }

  /** What a trader is told: a change of cash and a change of position. */
  datatype Fill = Fill(trader: EntityId, cash: int64, position: int64)

  datatype Account = Account(cash: u64, position: int64)

  datatype AuditEntry = AuditEntry(t: u64, msg: string, a: u64, b: u64)

  predicate BetterBid(a: Order, b: Order) {
    if a.price != b.price then a.price > b.price else a.id < b.id
  }

  predicate BetterAsk(a: Order, b: Order) {
    if a.price != b.price then a.price < b.price else a.id < b.id
  }

  /** The first of the best bids. */
  function BestBid(s: seq<Order>): (i: nat)
    requires |s| > 0
    ensures i < |s| && forall j :: 0 <= j < |s| ==> !BetterBid(s[j], s[i])
  {
    if |s| == 1 then 0
    else
      var i := BestBid(s[..|s| - 1]);
      assert forall j :: 0 <= j < |s| - 1 ==> s[..|s| - 1][j] == s[j];
      if BetterBid(s[|s| - 1], s[i]) then |s| - 1 else i
  }

  function BestAsk(s: seq<Order>): (i: nat)
    requires |s| > 0
    ensures i < |s| && forall j :: 0 <= j < |s| ==> !BetterAsk(s[j], s[i])
  {
    if |s| == 1 then 0
    else
      var i := BestAsk(s[..|s| - 1]);
      assert forall j :: 0 <= j < |s| - 1 ==> s[..|s| - 1][j] == s[j];
      if BetterAsk(s[|s| - 1], s[i]) then |s| - 1 else i
  }

  /** There is a bid, an ask, and the best bid reaches the best ask. */
  predicate Crossed(b: Book) {
    |b.bids| > 0 && |b.asks| > 0 && b.bids[BestBid(b.bids)].price >= b.asks[BestAsk(b.asks)].price
  }

  function Min(a: u32, b: u32): u32 { if a <= b then a else b }

  function NextTrade(b: Book): (t: Trade)
    requires Crossed(b)
    ensures t.qty <= t.bid.qty && t.qty <= t.ask.qty && (t.qty == t.bid.qty || t.qty == t.ask.qty)
  {
    var bid, ask := b.bids[BestBid(b.bids)], b.asks[BestAsk(b.asks)];
    Trade(bid, ask, Min(bid.qty, ask.qty))
  }

  /** An order that has lost some of its quantity, and goes when it has none left. */
  function Reduce(s: seq<Order>, i: nat, qty: nat): (r: seq<Order>)
    requires i < |s| && qty <= s[i].qty
    ensures |r| == if qty == s[i].qty then |s| - 1 else |s|
  {
    if qty == s[i].qty then s[..i] + s[i + 1..] else s[i := s[i].(qty := s[i].qty - qty)]
  }

  function AfterTrade(b: Book): (c: Book)
    requires Crossed(b)
    ensures |c.bids| + |c.asks| < |b.bids| + |b.asks|
  {
    var q := NextTrade(b).qty;
    Book(Reduce(b.bids, BestBid(b.bids), q), Reduce(b.asks, BestAsk(b.asks), q))
  }

  function Trades(b: Book, maxTrades: nat): (ts: seq<Trade>)
    ensures |ts| <= maxTrades
    decreases maxTrades
  {
    if maxTrades == 0 || !Crossed(b) then [] else [NextTrade(b)] + Trades(AfterTrade(b), maxTrades - 1)
  }

  function AfterMatch(b: Book, maxTrades: nat): Book
    decreases maxTrades
  {
    if maxTrades == 0 || !Crossed(b) then b else AfterMatch(AfterTrade(b), maxTrades - 1)
  }

  /** The buyer pays the ask price and gains the position; the seller the other way round. */
  function FillsOf(t: Trade): seq<Fill> {
    var cash := t.qty * Signed(t.ask.price);
    [Fill(t.bid.trader, Signed(-cash), t.qty), Fill(t.ask.trader, Signed(cash), -(t.qty as int))]
  }

  function AllFills(ts: seq<Trade>): seq<Fill> {
    if |ts| == 0 then [] else FillsOf(ts[0]) + AllFills(ts[1..])
  }

  function AuditOf(ts: seq<Trade>, now: u64): (es: seq<AuditEntry>)
    ensures |es| == |ts|
  {
    seq(|ts|, i requires 0 <= i < |ts| => AuditEntry(now, "trade", ts[i].ask.price, ts[i].qty))
  }

  class OrderBook {
    var nextOrderId: u64
    var bids: seq<Order>
    var asks: seq<Order>
    var lastTradePrice: u64
    var fills: seq<Fill>
    var audit: seq<AuditEntry>

    constructor ()
      ensures nextOrderId == 1 && bids == [] && asks == [] && lastTradePrice == 0 && fills == [] && audit == []
    {
      nextOrderId, bids, asks, lastTradePrice, fills, audit := 1, [], [], 0, [], [];
    }

    /** A new order under the next id; ids stay unique until the counter wraps. */
    method PlaceOrder(now: u64, trader: EntityId, side: u32, qty: u32, price: u64)
      modifies this
      ensures fills == old(fills) && lastTradePrice == old(lastTradePrice) && nextOrderId == Next64(old(nextOrderId))
      ensures Book(bids, asks) == Placed(Book(old(bids), old(asks)), side, Order(old(nextOrderId), trader, qty, price))
      ensures side == 0 ==> bids == old(bids) + [Order(old(nextOrderId), trader, qty, price)] && asks == old(asks)
      ensures side != 0 ==> asks == old(asks) + [Order(old(nextOrderId), trader, qty, price)] && bids == old(bids)
      ensures audit == old(audit) + [AuditEntry(now, "place", old(nextOrderId), price)]
    {
      var o := Order(nextOrderId, trader, qty, price);
      nextOrderId := Next64(nextOrderId);
      if side == 0 { bids := bids + [o]; } else { asks := asks + [o]; }
      audit := audit + [AuditEntry(now, "place", o.id, o.price)];
    }

    method MaxBid() returns (i: nat)
      requires |bids| > 0
      ensures i == BestBid(bids)
    {
      i := 0;
      for j := 1 to |bids|
        invariant i == BestBid(bids[..j]) && i < j
      {
        assert bids[..j + 1][..j] == bids[..j];
        if BetterBid(bids[j], bids[i]) { i := j; }
      }
      assert bids[..|bids|] == bids;
    }

    method MinAsk() returns (i: nat)
      requires |asks| > 0
      ensures i == BestAsk(asks)
    {
      i := 0;
      for j := 1 to |asks|
        invariant i == BestAsk(asks[..j]) && i < j
      {
        assert asks[..j + 1][..j] == asks[..j];
        if BetterAsk(asks[j], asks[i]) { i := j; }
      }
      assert asks[..|asks|] == asks;
    }

    /** One trade: fills for both sides, and both orders lose the traded quantity. */
    method TradeOnce(now: u64, i: nat, j: nat)
      requires Crossed(Book(bids, asks)) && i == BestBid(bids) && j == BestAsk(asks)
      modifies this
      ensures Book(bids, asks) == AfterTrade(Book(old(bids), old(asks)))
      ensures fills == old(fills) + FillsOf(NextTrade(Book(old(bids), old(asks))))
      ensures lastTradePrice == old(asks)[j].price && nextOrderId == old(nextOrderId)
      ensures audit == old(audit) + AuditOf([NextTrade(Book(old(bids), old(asks)))], now)
    {
      hide BestBid, BestAsk, FillsOf;
      var bid, ask := bids[i], asks[j];
      var qty := if bid.qty <= ask.qty then bid.qty else ask.qty;
      lastTradePrice := ask.price;
      fills := fills + FillsOf(Trade(bid, ask, qty));
      bids := if bid.qty == qty then bids[..i] + bids[i + 1..] else bids[i := bid.(qty := bid.qty - qty)];
      asks := if ask.qty == qty then asks[..j] + asks[j + 1..] else asks[j := ask.(qty := ask.qty - qty)];
      audit := audit + [AuditEntry(now, "trade", ask.price, qty)];
    }

    /** The matching loop. */
    method Match(now: u64, maxTrades: u32) returns (ghost made: seq<Trade>)
      modifies this
      ensures made == Trades(Book(old(bids), old(asks)), maxTrades)
      ensures Book(bids, asks) == AfterMatch(Book(old(bids), old(asks)), maxTrades)
      ensures fills == old(fills) + AllFills(made) && audit == old(audit) + AuditOf(made, now) && nextOrderId == old(nextOrderId)
      ensures lastTradePrice == if |made| == 0 then old(lastTradePrice) else made[|made| - 1].ask.price
      ensures |made| < maxTrades ==> forall x, y :: x in bids && y in asks ==> x.price < y.price
    {
      hide BestBid, BestAsk, Reduce, FillsOf, AfterTrade, AllFills, AuditOf, Trades, AfterMatch;
      made := [];
      NoAudit(audit, now);
      ghost var book := Book(bids, asks);
      NoFills(fills);
      var trades := 0;
      while trades < maxTrades && bids != [] && asks != []
        invariant trades <= maxTrades && |made| == trades
        invariant Trades(book, maxTrades) == made + Trades(Book(bids, asks), maxTrades - trades)
        invariant AfterMatch(book, maxTrades) == AfterMatch(Book(bids, asks), maxTrades - trades)
        invariant fills == old(fills) + AllFills(made) && nextOrderId == old(nextOrderId)
        invariant audit == old(audit) + AuditOf(made, now)
        invariant lastTradePrice == if |made| == 0 then old(lastTradePrice) else made[|made| - 1].ask.price
        decreases maxTrades - trades
      {
        var i := MaxBid();
        var j := MinAsk();
        if bids[i].price < asks[j].price { break; }
        OneMoreTrade(Book(bids, asks), maxTrades - trades, made);
        ghost var t := NextTrade(Book(bids, asks));
        MoreFills(made, t, old(fills));
        MoreAudit(made, t, now, old(audit));
        TradeOnce(now, i, j);
        made := made + [t];
        trades := trades + 1;
      }
      NoMoreTrades(Book(bids, asks), maxTrades - trades, made);
      EndsUncrossedOrAtCap(book, maxTrades);
    }
  }

  lemma OneMoreTrade(b: Book, n: nat, made: seq<Trade>)
    requires n > 0 && Crossed(b)
    ensures made + Trades(b, n) == made + [NextTrade(b)] + Trades(AfterTrade(b), n - 1)
    ensures AfterMatch(b, n) == AfterMatch(AfterTrade(b), n - 1)
  {
    hide BestBid, BestAsk, Reduce, AfterTrade, NextTrade;
  }

  lemma NoMoreTrades(b: Book, n: nat, made: seq<Trade>)
    requires n == 0 || !Crossed(b)
    ensures made + Trades(b, n) == made && AfterMatch(b, n) == b
  {
    hide BestBid, BestAsk, Reduce, AfterTrade, NextTrade;
  }

  lemma NoFills(fills: seq<Fill>)
    ensures fills == fills + AllFills([])
  {
    assert fills + [] == fills;
  }

  lemma {:induction false} FillsSnoc(ts: seq<Trade>, t: Trade)
    ensures AllFills(ts + [t]) == AllFills(ts) + FillsOf(t)
    decreases |ts|
  {
    hide FillsOf;
    if |ts| == 0 {
      assert ts + [t] == [t];
      assert AllFills([t][1..]) == [];
      assert FillsOf(t) + [] == FillsOf(t) && [] + FillsOf(t) == FillsOf(t);
    } else {
      assert (ts + [t])[1..] == ts[1..] + [t];
      FillsSnoc(ts[1..], t);
      assert FillsOf(ts[0]) + (AllFills(ts[1..]) + FillsOf(t)) == FillsOf(ts[0]) + AllFills(ts[1..]) + FillsOf(t);
    }
  }

  lemma MoreFills(ts: seq<Trade>, t: Trade, fills: seq<Fill>)
    ensures fills + AllFills(ts) + FillsOf(t) == fills + AllFills(ts + [t])
  {
    FillsSnoc(ts, t);
  }

  lemma NoAudit(audit: seq<AuditEntry>, now: u64)
    ensures audit == audit + AuditOf([], now)
  {
  }

  lemma MoreAudit(ts: seq<Trade>, t: Trade, now: u64, audit: seq<AuditEntry>)
    ensures audit + AuditOf(ts, now) + AuditOf([t], now) == audit + AuditOf(ts + [t], now)
  {
  }

  /* ---- The traders' accounts ---- */

  function Credit(a: Account, f: Fill): Account {
    Account(Unsigned(Signed(a.cash) + f.cash), Signed(a.position + f.position))
  }

  function Credited(accounts: map<EntityId, Account>, f: Fill): map<EntityId, Account> {
    if f.trader in accounts then accounts[f.trader := Credit(accounts[f.trader], f)] else accounts
  }

  /** The accounts after some fills. */
  function Settled(accounts: map<EntityId, Account>, fs: seq<Fill>): map<EntityId, Account> {
    if |fs| == 0 then accounts else Settled(Credited(accounts, fs[0]), fs[1..])
  }

  class Traders {
    var accounts: map<EntityId, Account>

    constructor (accounts: map<EntityId, Account>)
      ensures this.accounts == accounts
    {
      this.accounts := accounts;
    }

    /** A fill for an unknown trader throws. */
    method OnFill(f: Fill) returns (ok: bool)
      modifies this
      ensures ok <==> f.trader in old(accounts)
      ensures accounts == Credited(old(accounts), f)
    {
      ok := f.trader in accounts;
      if ok {
        var a := accounts[f.trader];
        accounts := accounts[f.trader := Account(Unsigned(Signed(a.cash) + f.cash), Signed(a.position + f.position))];
      }
    }
  }

  /* ---- Conservation ---- */

  function CashMoved(x: EntityId, t: Trade): int {
    var sold := if t.ask.trader == x then t.qty * t.ask.price else 0;
    var bought := if t.bid.trader == x then t.qty * t.ask.price else 0;
    sold - bought
  }

  function Moved(x: EntityId, t: Trade): int {
    var bought: int := if t.bid.trader == x then t.qty else 0;
    var sold: int := if t.ask.trader == x then t.qty else 0;
    bought - sold
  }

  /** What a trader sold, less what it bought, at the ask prices. */
  function CashFlow(x: EntityId, ts: seq<Trade>): int {
    if |ts| == 0 then 0 else CashMoved(x, ts[0]) + CashFlow(x, ts[1..])
  }

  function Bought(x: EntityId, ts: seq<Trade>): int {
    if |ts| == 0 then 0 else Moved(x, ts[0]) + Bought(x, ts[1..])
  }

  ghost predicate KnownTraders(accounts: map<EntityId, Account>, ts: seq<Trade>) {
    forall i :: 0 <= i < |ts| ==> ts[i].bid.trader in accounts && ts[i].ask.trader in accounts
  }

  ghost predicate Same64(a: int, b: int) {
    a % TWO64 == b % TWO64
  }

  lemma SumSame(a: int, b: int, c: int, d: int)
    requires Same64(a, b) && Same64(c, d)
    ensures Same64(a + c, b + d)
  {
  }

  lemma {:induction false} TimesSame(n: nat, a: int, b: int)
    requires Same64(a, b)
    ensures Same64(n * a, n * b)
    decreases n
  {
    if n > 0 {
      TimesSame(n - 1, a, b);
      assert n * a == (n - 1) * a + a && n * b == (n - 1) * b + b;
      SumSame((n - 1) * a, (n - 1) * b, a, b);
    }
  }

  lemma NegSame(a: int, b: int)
    requires Same64(a, b)
    ensures Same64(-a, -b)
  {
    NegModulo(a);
    NegModulo(b);
  }

  lemma NegModulo(a: int)
    ensures (-a) % TWO64 == if a % TWO64 == 0 then 0 else TWO64 - a % TWO64
  {
    assert a == a / TWO64 * TWO64 + a % TWO64;
    if a % TWO64 == 0 {
      Remainder(-a, -(a / TWO64), 0);
    } else {
      Remainder(-a, -(a / TWO64) - 1, TWO64 - a % TWO64);
    }
  }

  lemma Remainder(x: int, q: int, r: int)
    requires x == q * TWO64 + r && 0 <= r < TWO64
    ensures x % TWO64 == r
  {
  }

  lemma FillsMean(t: Trade)
    ensures
      var fs := FillsOf(t);
      && |fs| == 2 && fs[0].trader == t.bid.trader && fs[1].trader == t.ask.trader
      && Same64(fs[0].cash, -(t.qty * t.ask.price)) && Same64(fs[1].cash, t.qty * t.ask.price)
      && fs[0].position == t.qty && fs[1].position == -(t.qty as int)
  {
    hide Signed;
    var cash := t.qty * Signed(t.ask.price);
    TimesSame(t.qty, Signed(t.ask.price), t.ask.price);
    NegSame(cash, t.qty * t.ask.price);
    assert Same64(Signed(cash), cash) && Same64(Signed(-cash), -cash);
  }

  /** One account after one fill. */
  lemma CreditMeans(accounts: map<EntityId, Account>, f: Fill, x: EntityId)
    requires x in accounts
    ensures
      var after := Credited(accounts, f);
      && x in after
      && Same64(after[x].cash, accounts[x].cash + if f.trader == x then f.cash else 0)
      && Same64(after[x].position, accounts[x].position + if f.trader == x then f.position else 0)
  {
    hide Signed;
    if f.trader == x {
      var a := accounts[x];
      SumSame(Signed(a.cash), a.cash, f.cash, f.cash);
    }
  }

  lemma SettleTwo(accounts: map<EntityId, Account>, t: Trade, rest: seq<Fill>)
    ensures |FillsOf(t)| == 2
    ensures Settled(accounts, FillsOf(t) + rest) == Settled(Credited(Credited(accounts, FillsOf(t)[0]), FillsOf(t)[1]), rest)
  {
    hide Credited;
    var all := FillsOf(t) + rest;
    assert all[1..][0] == FillsOf(t)[1] && all[1..][1..] == rest;
  }

  lemma OneTradeMoves(accounts: map<EntityId, Account>, t: Trade, x: EntityId)
    requires x in accounts
    ensures |FillsOf(t)| == 2
    ensures
      var after := Credited(Credited(accounts, FillsOf(t)[0]), FillsOf(t)[1]);
      && after.Keys == accounts.Keys
      && Same64(after[x].cash, accounts[x].cash + CashMoved(x, t))
      && Same64(after[x].position, accounts[x].position + Moved(x, t))
  {
    hide Signed, FillsOf, Credited, Same64;
    FillsMean(t);
    var f, g := FillsOf(t)[0], FillsOf(t)[1];
    var mid := Credited(accounts, f);
    var after := Credited(mid, g);
    CreditMeans(accounts, f, x);
    CreditMeans(mid, g, x);
    CreditKeys(accounts, f);
    CreditKeys(mid, g);
    var c := t.qty * t.ask.price;
    var f0, g0 := if f.trader == x then f.cash else 0, if g.trader == x then g.cash else 0;
    var f1, g1 := if t.bid.trader == x then -c else 0, if t.ask.trader == x then c else 0;
    IsSame(0);
    TwoMoves(after[x].cash, mid[x].cash, accounts[x].cash, f0, g0, f1, g1);
    var p: int := t.qty;
    f0, g0 := if f.trader == x then f.position else 0, if g.trader == x then g.position else 0;
    IsSame(f0);
    IsSame(g0);
    TwoMoves(after[x].position, mid[x].position, accounts[x].position, f0, g0, f0, g0);
  }

  lemma CreditKeys(accounts: map<EntityId, Account>, f: Fill)
    ensures Credited(accounts, f).Keys == accounts.Keys
  {
  }

  lemma IsSame(a: int)
    ensures Same64(a, a)
  {
  }

  lemma TwoMoves(c: int, b: int, a: int, f0: int, g0: int, f1: int, g1: int)
    requires Same64(c, b + g0) && Same64(b, a + f0) && Same64(f0, f1) && Same64(g0, g1)
    ensures Same64(c, a + (g1 + f1))
  {
    hide Same64;
    IsSame(a);
    SumSame(a, a, f0, f1);
    SameChain(b, a + f0, a + f1);
    SumSame(b, a + f1, g0, g1);
    SameChain(c, b + g0, a + f1 + g1);
  }

  lemma SameChain(a: int, b: int, c: int)
    requires Same64(a, b) && Same64(b, c)
    ensures Same64(a, c)
  {
  }

  lemma FlowCons(x: EntityId, ts: seq<Trade>)
    requires |ts| > 0
    ensures CashFlow(x, ts) == CashFlow(x, [ts[0]]) + CashFlow(x, ts[1..])
    ensures Bought(x, ts) == Bought(x, [ts[0]]) + Bought(x, ts[1..])
    ensures CashFlow(x, [ts[0]]) == CashMoved(x, ts[0]) && Bought(x, [ts[0]]) == Moved(x, ts[0])
  {
    assert [ts[0]][1..] == [];
  }

  /** Once its fills are in, a trader's cash has changed by what it sold less what it bought, and its
      position by what it bought less what it sold, up to the wrap of 64 bits. */
  lemma {:induction false} EachTraderIsSettled(accounts: map<EntityId, Account>, ts: seq<Trade>, x: EntityId)
    requires x in accounts
    ensures
      var after := Settled(accounts, AllFills(ts));
      && after.Keys == accounts.Keys
      && Same64(after[x].cash, accounts[x].cash + CashFlow(x, ts))
      && Same64(after[x].position, accounts[x].position + Bought(x, ts))
    decreases |ts|
  {
    hide Credited, FillsOf, Same64;
    if |ts| == 0 {
      NothingSame(accounts[x]);
    } else {
      var fs := FillsOf(ts[0]);
      OneTradeMoves(accounts, ts[0], x);
      SettleTwo(accounts, ts[0], AllFills(ts[1..]));
      var mid := Credited(Credited(accounts, fs[0]), fs[1]);
      EachTraderIsSettled(mid, ts[1..], x);
      FlowCons(x, ts);
      var after := Settled(mid, AllFills(ts[1..]));
      Chain(after[x].cash, mid[x].cash, CashFlow(x, ts[1..]), accounts[x].cash, CashFlow(x, [ts[0]]));
      Chain(after[x].position, mid[x].position, Bought(x, ts[1..]), accounts[x].position, Bought(x, [ts[0]]));
    }
  }

  lemma NothingSame(a: Account)
    ensures Same64(a.cash, a.cash + 0) && Same64(a.position, a.position + 0)
  {
  }

  lemma Chain(c: int, b: int, y: int, a: int, x: int)
    requires Same64(c, b + y) && Same64(b, a + x)
    ensures Same64(c, a + (x + y))
  {
  }

  /* Sums over all accounts, in any listing of them. */

  function TotalCash(accounts: map<EntityId, Account>, ids: seq<EntityId>): int
    requires forall i :: 0 <= i < |ids| ==> ids[i] in accounts
  {
    if |ids| == 0 then 0 else accounts[ids[0]].cash + TotalCash(accounts, ids[1..])
  }

  function TotalPosition(accounts: map<EntityId, Account>, ids: seq<EntityId>): int
    requires forall i :: 0 <= i < |ids| ==> ids[i] in accounts
  {
    if |ids| == 0 then 0 else accounts[ids[0]].position + TotalPosition(accounts, ids[1..])
  }

  function TotalFlow(ids: seq<EntityId>, ts: seq<Trade>): int {
    if |ids| == 0 then 0 else CashFlow(ids[0], ts) + TotalFlow(ids[1..], ts)
  }

  function TotalBought(ids: seq<EntityId>, ts: seq<Trade>): int {
    if |ids| == 0 then 0 else Bought(ids[0], ts) + TotalBought(ids[1..], ts)
  }

  lemma {:induction false} TotalsFollow(accounts: map<EntityId, Account>, ids: seq<EntityId>, ts: seq<Trade>)
    requires forall i :: 0 <= i < |ids| ==> ids[i] in accounts
    ensures forall i :: 0 <= i < |ids| ==> ids[i] in Settled(accounts, AllFills(ts))
    ensures Same64(TotalCash(Settled(accounts, AllFills(ts)), ids), TotalCash(accounts, ids) + TotalFlow(ids, ts))
    ensures Same64(TotalPosition(Settled(accounts, AllFills(ts)), ids), TotalPosition(accounts, ids) + TotalBought(ids, ts))
    decreases |ids|
  {
    hide Settled, AllFills, CashFlow, Bought, Same64;
    var after := Settled(accounts, AllFills(ts));
    if |ids| == 0 {
      NothingSame(Account(0, 0));
    } else {
      EachTraderIsSettled(accounts, ts, ids[0]);
      TotalsFollow(accounts, ids[1..], ts);
      SumSame(after[ids[0]].cash, accounts[ids[0]].cash + CashFlow(ids[0], ts),
              TotalCash(after, ids[1..]), TotalCash(accounts, ids[1..]) + TotalFlow(ids[1..], ts));
      SumSame(after[ids[0]].position, accounts[ids[0]].position + Bought(ids[0], ts),
              TotalPosition(after, ids[1..]), TotalPosition(accounts, ids[1..]) + TotalBought(ids[1..], ts));
    }
  }

  ghost predicate EachOnce(ids: seq<EntityId>) {
    forall i, j :: 0 <= i < j < |ids| ==> ids[i] != ids[j]
  }

  lemma InTail(ids: seq<EntityId>, x: EntityId)
    requires |ids| > 0 && EachOnce(ids)
    ensures EachOnce(ids[1..]) && (x in ids <==> x == ids[0] || x in ids[1..]) && !(x == ids[0] && x in ids[1..])
  {
  }

  /** What one trade moves to the listed traders. */
  lemma {:induction false} FlowOfOne(ids: seq<EntityId>, t: Trade)
    requires EachOnce(ids)
    ensures TotalFlow(ids, [t]) == (if t.ask.trader in ids then t.qty * t.ask.price else 0)
                                 - (if t.bid.trader in ids then t.qty * t.ask.price else 0)
    ensures TotalBought(ids, [t]) == (if t.bid.trader in ids then t.qty else 0) - (if t.ask.trader in ids then t.qty else 0)
    decreases |ids|
  {
    if |ids| > 0 {
      InTail(ids, t.ask.trader);
      InTail(ids, t.bid.trader);
      FlowOfOne(ids[1..], t);
      FlowCons(ids[0], [t]);
    }
  }

  lemma {:induction false} FlowsCons(ids: seq<EntityId>, ts: seq<Trade>)
    requires |ts| > 0
    ensures TotalFlow(ids, ts) == TotalFlow(ids, [ts[0]]) + TotalFlow(ids, ts[1..])
    ensures TotalBought(ids, ts) == TotalBought(ids, [ts[0]]) + TotalBought(ids, ts[1..])
    decreases |ids|
  {
    hide CashFlow, Bought;
    if |ids| > 0 {
      FlowCons(ids[0], ts);
      FlowsCons(ids[1..], ts);
    }
  }

  lemma {:induction false} NoFlow(ids: seq<EntityId>)
    ensures TotalFlow(ids, []) == 0 && TotalBought(ids, []) == 0
    decreases |ids|
  {
    if |ids| > 0 { NoFlow(ids[1..]); }
  }

  lemma {:induction false} FlowsSumToZero(accounts: map<EntityId, Account>, ids: seq<EntityId>, ts: seq<Trade>)
    requires EachOnce(ids) && (forall x :: x in accounts <==> x in ids) && KnownTraders(accounts, ts)
    ensures TotalFlow(ids, ts) == 0 && TotalBought(ids, ts) == 0
    decreases |ts|
  {
    hide EachOnce;
    if |ts| == 0 {
      NoFlow(ids);
    } else {
      FlowOfOne(ids, ts[0]);
      FlowsCons(ids, ts);
      forall i | 0 <= i < |ts[1..]| ensures ts[1..][i].bid.trader in accounts && ts[1..][i].ask.trader in accounts {
        assert ts[1..][i] == ts[i + 1];
      }
      FlowsSumToZero(accounts, ids, ts[1..]);
    }
  }

  /** Matching moves cash and positions between the traders' accounts and makes or loses none: what
      all of them hold together is the same before and after, up to the wrap of 64 bits. */
  lemma MatchingConserves(b: Book, maxTrades: nat, accounts: map<EntityId, Account>, ids: seq<EntityId>)
    requires EachOnce(ids) && (forall x :: x in accounts <==> x in ids) && KnownTraders(accounts, Trades(b, maxTrades))
    ensures Settled(accounts, AllFills(Trades(b, maxTrades))).Keys == accounts.Keys
    ensures Same64(TotalCash(Settled(accounts, AllFills(Trades(b, maxTrades))), ids), TotalCash(accounts, ids))
    ensures Same64(TotalPosition(Settled(accounts, AllFills(Trades(b, maxTrades))), ids), TotalPosition(accounts, ids))
  {
    hide EachOnce, KnownTraders, Trades, Settled, AllFills, Same64;
    var ts := Trades(b, maxTrades);
    if |ids| > 0 { EachTraderIsSettled(accounts, ts, ids[0]); } else { NoAccounts(accounts, AllFills(ts)); }
    TotalsFollow(accounts, ids, ts);
    FlowsSumToZero(accounts, ids, ts);
  }

  lemma {:induction false} NoAccounts(accounts: map<EntityId, Account>, fs: seq<Fill>)
    requires forall x :: x !in accounts
    ensures Settled(accounts, fs) == accounts
    decreases |fs|
  {
    if |fs| > 0 { NoAccounts(accounts, fs[1..]); }
  }

  function Total(s: seq<Order>): nat {
    if |s| == 0 then 0 else s[0].qty + Total(s[1..])
  }

  function Traded(ts: seq<Trade>): nat {
    if |ts| == 0 then 0 else ts[0].qty + Traded(ts[1..])
  }

  lemma {:induction false} TotalConcat(a: seq<Order>, b: seq<Order>)
    ensures Total(a + b) == Total(a) + Total(b)
    decreases |a|
  {
    if |a| == 0 {
      assert a + b == b;
    } else {
      assert (a + b)[1..] == a[1..] + b;
      TotalConcat(a[1..], b);
    }
  }

  lemma ReduceTotal(s: seq<Order>, i: nat, qty: nat)
    requires i < |s| && qty <= s[i].qty
    ensures Total(Reduce(s, i, qty)) + qty == Total(s)
  {
    var r := Reduce(s, i, qty);
    assert s == s[..i] + ([s[i]] + s[i + 1..]);
    TotalConcat(s[..i], [s[i]] + s[i + 1..]);
    if qty == s[i].qty {
      TotalConcat(s[..i], s[i + 1..]);
    } else {
      assert r == s[..i] + ([r[i]] + s[i + 1..]);
      TotalConcat(s[..i], [r[i]] + s[i + 1..]);
    }
  }

  /** What leaves the bids and what leaves the asks is what is traded. */
  lemma {:induction false} QuantitiesAreTraded(b: Book, maxTrades: nat)
    ensures Total(AfterMatch(b, maxTrades).bids) + Traded(Trades(b, maxTrades)) == Total(b.bids)
    ensures Total(AfterMatch(b, maxTrades).asks) + Traded(Trades(b, maxTrades)) == Total(b.asks)
    decreases maxTrades
  {
    hide BestBid, BestAsk, Reduce, Total;
    if maxTrades > 0 && Crossed(b) {
      ReduceTotal(b.bids, BestBid(b.bids), NextTrade(b).qty);
      ReduceTotal(b.asks, BestAsk(b.asks), NextTrade(b).qty);
      QuantitiesAreTraded(AfterTrade(b), maxTrades - 1);
      assert Trades(b, maxTrades)[1..] == Trades(AfterTrade(b), maxTrades - 1);
    }
  }

  /* ---- Fairness and the end ---- */

  /** No bid has a higher price, and none at its price a lower id. */
  ghost predicate HighestBid(bids: seq<Order>, o: Order) {
    o in bids && forall x :: x in bids ==> x.price <= o.price && (x.price == o.price ==> o.id <= x.id)
  }

  /** No ask has a lower price, and none at its price a lower id. */
  ghost predicate LowestAsk(asks: seq<Order>, o: Order) {
    o in asks && forall x :: x in asks ==> o.price <= x.price && (x.price == o.price ==> o.id <= x.id)
  }

  /** The orders of a side after one of them has lost a quantity: that one has it less, or is gone. */
  ghost predicate Loses(before: seq<Order>, o: Order, qty: nat, after: seq<Order>)
    requires qty <= o.qty
  {
    multiset(after) + multiset{o} == multiset(before) + if qty == o.qty then multiset{} else multiset{o.(qty := o.qty - qty)}
  }

  lemma ReducedLoses(s: seq<Order>, i: nat, qty: nat)
    requires i < |s| && qty <= s[i].qty
    ensures Loses(s, s[i], qty, Reduce(s, i, qty))
  {
    hide Reduce, Others;
    ReduceIsByOrder(s, i, qty);
    OthersAre(s, i);
    assert s[i] in multiset(s);
  }

  lemma BestAreBest(b: Book)
    requires |b.bids| > 0 && |b.asks| > 0
    ensures HighestBid(b.bids, b.bids[BestBid(b.bids)]) && LowestAsk(b.asks, b.asks[BestAsk(b.asks)])
  {
    var i, j := BestBid(b.bids), BestAsk(b.asks);
    hide BestBid, BestAsk;
    forall x | x in b.bids ensures x.price <= b.bids[i].price && (x.price == b.bids[i].price ==> b.bids[i].id <= x.id) {
      var k :| 0 <= k < |b.bids| && b.bids[k] == x;
      assert !BetterBid(b.bids[k], b.bids[i]);
    }
    forall x | x in b.asks ensures b.asks[j].price <= x.price && (x.price == b.asks[j].price ==> b.asks[j].id <= x.id) {
      var k :| 0 <= k < |b.asks| && b.asks[k] == x;
      assert !BetterAsk(b.asks[k], b.asks[j]);
    }
  }

  /** A trade can be made exactly when some bid reaches some ask. */
  lemma CrossedJustIf(b: Book)
    ensures Crossed(b) <==> exists x, y :: x in b.bids && y in b.asks && x.price >= y.price
  {
    hide BestBid, BestAsk;
    if |b.bids| > 0 && |b.asks| > 0 {
      BestAreBest(b);
      assert b.bids[BestBid(b.bids)] in b.bids && b.asks[BestAsk(b.asks)] in b.asks;
    }
  }

  /** What one trade is, in prices, ids and quantities. */
  lemma TradeMeans(b: Book)
    requires Crossed(b)
    ensures
      var t := NextTrade(b);
      && HighestBid(b.bids, t.bid) && LowestAsk(b.asks, t.ask) && t.ask.price <= t.bid.price
      && t.qty == (if t.bid.qty <= t.ask.qty then t.bid.qty else t.ask.qty)
      && Loses(b.bids, t.bid, t.qty, AfterTrade(b).bids) && Loses(b.asks, t.ask, t.qty, AfterTrade(b).asks)
  {
    hide BestBid, BestAsk, Reduce, Loses, HighestBid, LowestAsk;
    var t := NextTrade(b);
    BestAreBest(b);
    ReducedLoses(b.bids, BestBid(b.bids), t.qty);
    ReducedLoses(b.asks, BestAsk(b.asks), t.qty);
  }

  /** Each trade is of the book at that moment: the highest bid and the lowest ask, of the lowest id at
      their price, the bid not below the ask.  It is of the smaller of their quantities, which both
      lose, so that at least one of them goes, and no other order changes. */
  lemma {:induction false} EachTradeIsBest(b: Book, maxTrades: nat, k: nat)
    requires k < |Trades(b, maxTrades)|
    ensures
      var now, next := AfterMatch(b, k), AfterMatch(b, k + 1);
      var t := Trades(b, maxTrades)[k];
      && HighestBid(now.bids, t.bid) && LowestAsk(now.asks, t.ask) && t.ask.price <= t.bid.price
      && t.qty == (if t.bid.qty <= t.ask.qty then t.bid.qty else t.ask.qty)
      && Loses(now.bids, t.bid, t.qty, next.bids) && Loses(now.asks, t.ask, t.qty, next.asks)
      && |next.bids| + |next.asks| < |now.bids| + |now.asks|
    decreases k
  {
    hide BestBid, BestAsk, Reduce, Loses, HighestBid, LowestAsk;
    if k > 0 {
      assert Trades(b, maxTrades)[k] == Trades(AfterTrade(b), maxTrades - 1)[k - 1];
      EachTradeIsBest(AfterTrade(b), maxTrades - 1, k - 1);
    } else {
      TradeMeans(b);
      assert AfterMatch(b, 1) == AfterMatch(AfterTrade(b), 0);
    }
  }

  /** The loop ends at the cap, or with every bid below every ask. */
  lemma {:induction false} EndsUncrossedOrAtCap(b: Book, maxTrades: nat)
    ensures |Trades(b, maxTrades)| == maxTrades
         || forall x, y :: x in AfterMatch(b, maxTrades).bids && y in AfterMatch(b, maxTrades).asks ==> x.price < y.price
    decreases maxTrades
  {
    hide Crossed, AfterTrade, NextTrade;
    CrossedJustIf(b);
    if maxTrades > 0 && Crossed(b) { EndsUncrossedOrAtCap(AfterTrade(b), maxTrades - 1); }
  }

  /* ---- Only the set of orders matters ---- */

  ghost predicate UniqueIds(s: seq<Order>) {
    forall i, j :: 0 <= i < j < |s| ==> s[i].id != s[j].id
  }

  ghost predicate SameOrders(a: seq<Order>, b: seq<Order>) {
    multiset(a) == multiset(b) && UniqueIds(a) && UniqueIds(b)
  }

  /** A book with one more order. */
  function Placed(b: Book, side: u32, o: Order): Book {
    if side == 0 then b.(bids := b.bids + [o]) else b.(asks := b.asks + [o])
  }

  /** Ids below the next one to be given out, each once on its side. */
  ghost predicate IdsBelow(b: Book, next: u64) {
    && UniqueIds(b.bids) && UniqueIds(b.asks)
    && (forall o :: o in b.bids ==> o.id < next) && (forall o :: o in b.asks ==> o.id < next)
  }

  lemma PlacingKeepsIds(b: Book, next: u64, side: u32, o: Order)
    requires IdsBelow(b, next) && o.id == next && Next64(next) != 0
    ensures IdsBelow(Placed(b, side, o), Next64(next))
  {
    var side := if side == 0 then b.bids else b.asks;
    forall i, j | 0 <= i < j < |side + [o]| ensures (side + [o])[i].id != (side + [o])[j].id {
      if j == |side| { assert side[i] in side; }
    }
  }

  lemma ReduceKeepsBelow(s: seq<Order>, i: nat, qty: nat, next: u64)
    requires i < |s| && qty <= s[i].qty && forall o :: o in s ==> o.id < next
    ensures forall o :: o in Reduce(s, i, qty) ==> o.id < next
  {
    assert s[i] in s;
  }

  /** Matching keeps the ids of the book unique, which is what makes its trades canonical. */
  lemma {:induction false} MatchingKeepsIds(b: Book, next: u64, maxTrades: nat)
    requires IdsBelow(b, next)
    ensures IdsBelow(AfterMatch(b, maxTrades), next)
    decreases maxTrades
  {
    hide BestBid, BestAsk, Reduce, UniqueIds;
    if maxTrades > 0 && Crossed(b) {
      var q := NextTrade(b).qty;
      ReduceKeepsUnique(b.bids, BestBid(b.bids), q);
      ReduceKeepsUnique(b.asks, BestAsk(b.asks), q);
      ReduceKeepsBelow(b.bids, BestBid(b.bids), q, next);
      ReduceKeepsBelow(b.asks, BestAsk(b.asks), q, next);
      MatchingKeepsIds(AfterTrade(b), next, maxTrades - 1);
    }
  }

  lemma SameBestBid(a: seq<Order>, b: seq<Order>)
    requires SameOrders(a, b) && |a| > 0 && |b| > 0
    ensures a[BestBid(a)] == b[BestBid(b)]
  {
    hide BestBid;
    var x, y := a[BestBid(a)], b[BestBid(b)];
    assert x in multiset(a) && y in multiset(b);
    var i :| 0 <= i < |b| && b[i] == x;
    var j :| 0 <= j < |a| && a[j] == y;
    assert !BetterBid(x, y) && !BetterBid(y, x);
  }

  lemma SameBestAsk(a: seq<Order>, b: seq<Order>)
    requires SameOrders(a, b) && |a| > 0 && |b| > 0
    ensures a[BestAsk(a)] == b[BestAsk(b)]
  {
    hide BestAsk;
    var x, y := a[BestAsk(a)], b[BestAsk(b)];
    assert x in multiset(a) && y in multiset(b);
    var i :| 0 <= i < |b| && b[i] == x;
    var j :| 0 <= j < |a| && a[j] == y;
    assert !BetterAsk(x, y) && !BetterAsk(y, x);
  }

  lemma CountsOfParts(a: seq<Order>, x: Order, b: seq<Order>)
    ensures multiset(a + [x] + b) == multiset(a + b) + multiset{x}
  {
    assert multiset(a + [x] + b) == multiset(a) + multiset{x} + multiset(b);
  }

  lemma TakeOff(m: multiset<Order>, x: Order)
    ensures m + multiset{x} - multiset{x} == m
  {
  }

  /** The orders other than the i-th. */
  function Others(s: seq<Order>, i: nat): multiset<Order>
    requires i < |s|
  {
    multiset(s[..i] + s[i + 1..])
  }

  lemma OthersAre(s: seq<Order>, i: nat)
    requires i < |s|
    ensures Others(s, i) == multiset(s) - multiset{s[i]}
  {
    assert s == s[..i] + [s[i]] + s[i + 1..];
    CountsOfParts(s[..i], s[i], s[i + 1..]);
    TakeOff(multiset(s[..i] + s[i + 1..]), s[i]);
  }

  lemma ReduceIsByOrder(s: seq<Order>, i: nat, qty: nat)
    requires i < |s| && qty <= s[i].qty
    ensures multiset(Reduce(s, i, qty))
         == if qty == s[i].qty then Others(s, i) else Others(s, i) + multiset{s[i].(qty := s[i].qty - qty)}
  {
    if qty != s[i].qty {
      var o := s[i].(qty := s[i].qty - qty);
      assert s[i := o] == s[..i] + [o] + s[i + 1..];
      CountsOfParts(s[..i], o, s[i + 1..]);
    }
  }

  lemma ReduceKeepsUnique(s: seq<Order>, i: nat, qty: nat)
    requires i < |s| && qty <= s[i].qty && UniqueIds(s)
    ensures UniqueIds(Reduce(s, i, qty))
  {
    var r := Reduce(s, i, qty);
    forall j | 0 <= j < |r| ensures r[j].id == s[if qty == s[i].qty && j >= i then j + 1 else j].id {}
  }

  lemma SameReduced(a: seq<Order>, i: nat, b: seq<Order>, j: nat, qty: nat)
    requires SameOrders(a, b) && i < |a| && j < |b| && a[i] == b[j] && qty <= a[i].qty
    ensures SameOrders(Reduce(a, i, qty), Reduce(b, j, qty))
  {
    hide Reduce, UniqueIds;
    SameCounts(a, i, b, j, qty);
    ReduceKeepsUnique(a, i, qty);
    ReduceKeepsUnique(b, j, qty);
  }

  lemma SameCounts(a: seq<Order>, i: nat, b: seq<Order>, j: nat, qty: nat)
    requires multiset(a) == multiset(b) && i < |a| && j < |b| && a[i] == b[j] && qty <= a[i].qty
    ensures multiset(Reduce(a, i, qty)) == multiset(Reduce(b, j, qty))
  {
    hide Reduce, Others;
    OthersAre(a, i);
    OthersAre(b, j);
    ReduceIsByOrder(a, i, qty);
    ReduceIsByOrder(b, j, qty);
  }

  lemma SameSize(a: seq<Order>, b: seq<Order>)
    requires SameOrders(a, b)
    ensures |a| == |b|
  {
    assert |multiset(a)| == |a| && |multiset(b)| == |b|;
  }

  /** With unique ids the trades depend only on which orders there are, not on how the book lists
      them. */
  lemma {:induction false} TradesAreCanonical(a: Book, b: Book, maxTrades: nat)
    requires SameOrders(a.bids, b.bids) && SameOrders(a.asks, b.asks)
    ensures Trades(a, maxTrades) == Trades(b, maxTrades)
    ensures SameOrders(AfterMatch(a, maxTrades).bids, AfterMatch(b, maxTrades).bids)
    ensures SameOrders(AfterMatch(a, maxTrades).asks, AfterMatch(b, maxTrades).asks)
    decreases maxTrades
  {
    hide BestBid, BestAsk, Reduce, SameOrders;
    SameSize(a.bids, b.bids);
    SameSize(a.asks, b.asks);
    if |a.bids| > 0 { SameBestBid(a.bids, b.bids); }
    if |a.asks| > 0 { SameBestAsk(a.asks, b.asks); }
    if maxTrades > 0 && Crossed(a) {
      SameReduced(a.bids, BestBid(a.bids), b.bids, BestBid(b.bids), NextTrade(a).qty);
      SameReduced(a.asks, BestAsk(a.asks), b.asks, BestAsk(b.asks), NextTrade(a).qty);
      TradesAreCanonical(AfterTrade(a), AfterTrade(b), maxTrades - 1);
    }
  }
}
