/** Positions, profit and loss, and the automatic escalation of src/execution/positions.py. */
module Positions {
  import opened Prelude
  import opened Reals
  import opened AuditTrails
  import opened KillSwitches
  import opened Risk

  datatype Snapshot = Snapshot(
    symbol: string, segment: string, quantity: int, entryPrice: real, currentPrice: real,
    unrealizedPnl: real, product: string, timestamp: real)

  /** A position as the broker reports it. */
  datatype BrokerPosition = BrokerPosition(
    symbol: string, segment: string, quantity: int, averagePrice: real, currentPrice: real,
    pnl: real, product: string)

  datatype Margins = Margins(available: real, used: real, total: real)

  /** The tracker's own state at one moment. */
  datatype Book = Book(positions: map<string, Snapshot>, realized: real, unrealized: real, lastSync: Option<real>)

  /** An order fill; every side other than BUY is treated as a sale. */
  datatype Fill = Fill(symbol: string, quantity: int, price: real, buy: bool, at: real)

  function TotalPnl(b: Book): real {
    b.realized + b.unrealized
  }

  // ---------------------------------------------------------------- fills

  function AbsInt(n: int): nat {
    if n < 0 then -n else n
  }

  function TotalCost(s: Snapshot, quantity: int, price: real): real {
    s.entryPrice * AbsInt(s.quantity) as real + price * quantity as real
  }

  /** Weighted-average cost of a BUY on top of `s`; a position that nets to zero keeps its old price. */
  function BuyPrice(s: Snapshot, quantity: int, price: real): real {
    if s.quantity + quantity == 0 then s.entryPrice
    else TotalCost(s, quantity, price) / AbsInt(s.quantity + quantity) as real
  }

  function FilledSnapshot(b: Book, f: Fill): Snapshot {
    if f.symbol !in b.positions then
      Snapshot(f.symbol, "NFO", if f.buy then f.quantity else -f.quantity, f.price, f.price, 0.0, "MIS", f.at)
    else
      var s := b.positions[f.symbol];
      if f.buy then
        s.(entryPrice := BuyPrice(s, f.quantity, f.price), quantity := s.quantity + f.quantity,
           currentPrice := f.price, timestamp := f.at)
      else
        s.(quantity := s.quantity - f.quantity, currentPrice := f.price, timestamp := f.at)
  }

  /** The profit one fill books: only a sale against a known position books any. */
  function Booked(b: Book, f: Fill): real {
    if f.symbol in b.positions && !f.buy
    then (f.price - b.positions[f.symbol].entryPrice) * AbsInt(f.quantity) as real
    else 0.0
  }

  function AfterFill(b: Book, f: Fill): Book {
    b.(positions := b.positions[f.symbol := FilledSnapshot(b, f)], realized := b.realized + Booked(b, f))
  }

  function FillAll(b: Book, fs: seq<Fill>): Book {
    if fs == [] then b else AfterFill(FillAll(b, fs[..|fs| - 1]), fs[|fs| - 1])
  }

  // ---------------------------------------------------------------- conservation of cash

  /** What a position cost to hold, at its entry price; negative when short. */
  function Cost(s: Snapshot): real {
    s.quantity as real * s.entryPrice
  }

  /** Cash received by a fill: paid out for a BUY, taken in for a sale. */
  function CashIn(f: Fill): real {
    if f.buy then -(f.price * f.quantity as real) else f.price * f.quantity as real
  }

  function Cash(fs: seq<Fill>): real {
    if fs == [] then 0.0 else Cash(fs[..|fs| - 1]) + CashIn(fs[|fs| - 1])
  }

  /** Realized profit less the cost of everything held: what must move with cash alone. */
  ghost function Equity(b: Book): real {
    b.realized - Total(b.positions, Cost)
  }

  /** When a BUY's averaged price agrees with cash: always when it grows a long position, and against a
      short position only in degenerate cases. */
  predicate BuyAgrees(s: Snapshot, quantity: int, price: real) {
    var newQuantity := s.quantity + quantity;
    if newQuantity == 0 then s.quantity == 0 || price == s.entryPrice
    else if newQuantity > 0 then s.quantity >= 0 || s.entryPrice == 0.0
    else if s.quantity < 0 then quantity == 0 || price == 0.0
    else s.quantity as real * s.entryPrice + price * quantity as real == 0.0
  }

  /** When a sale's booked profit agrees with cash. */
  predicate SaleAgrees(s: Snapshot, quantity: int, price: real) {
    quantity >= 0 || price == s.entryPrice
  }

  /** The fills for which the book agrees with cash; a first fill of a symbol always does. */
  predicate Conserving(b: Book, f: Fill) {
    f.symbol in b.positions ==>
      if f.buy then BuyAgrees(b.positions[f.symbol], f.quantity, f.price)
      else SaleAgrees(b.positions[f.symbol], f.quantity, f.price)
  }

  /** The averaged price times the new quantity is the old cost plus the new one, except across a short. */
  lemma BuyConserves(s: Snapshot, quantity: int, price: real)
    ensures (s.quantity + quantity) as real * BuyPrice(s, quantity, price) ==
              s.quantity as real * s.entryPrice + price * quantity as real
      <==> BuyAgrees(s, quantity, price)
  {
    ZeroProduct(s.quantity as real, s.entryPrice);
    ZeroProduct(quantity as real, price);
    if s.quantity + quantity == 0 {
      Opposite(s.quantity, s.entryPrice, price);
    } else {
      CostSigns(s, quantity, price);
    }
  }

  lemma Opposite(q: int, e: real, price: real)
    ensures q as real * e + price * (-q) as real == 0.0 <==> q == 0 || price == e
  {
    assert q as real * e + price * (-q) as real == q as real * (e - price);
    ZeroProduct(q as real, e - price);
  }

  /** The averaged price, scaled up again, with the signs that the absolute quantities lose. */
  lemma CostSigns(s: Snapshot, quantity: int, price: real)
    requires s.quantity + quantity != 0
    ensures var x, y := s.quantity as real * s.entryPrice, price * quantity as real;
      var cost := if s.quantity < 0 then y - x else x + y;
      (s.quantity + quantity) as real * BuyPrice(s, quantity, price) ==
        if s.quantity + quantity < 0 then -cost else cost
  {
    var n := s.quantity + quantity;
    var total := TotalCost(s, quantity, price);
    assert s.entryPrice * AbsInt(s.quantity) as real ==
      if s.quantity < 0 then -(s.quantity as real * s.entryPrice) else s.quantity as real * s.entryPrice;
    hide TotalCost;
    var avg := BuyPrice(s, quantity, price);
    assert avg * AbsInt(n) as real == total;
    assert n as real * avg == if n < 0 then -(avg * AbsInt(n) as real) else avg * AbsInt(n) as real;
  }

  /** A sale books the difference to the entry price on the absolute quantity, but moves the signed one. */
  lemma SaleConserves(q: int, e: real, price: real)
    ensures (price - e) * AbsInt(q) as real + q as real * e == price * q as real <==> q >= 0 || price == e
  {
    if q < 0 {
      assert (price - e) * AbsInt(q) as real == -(price * q as real) + q as real * e;
      assert price * q as real - q as real * e == q as real * (price - e);
      ZeroProduct(q as real, price - e);
    }
  }

  /** The change of cost and the booked profit of one fill account for its cash exactly when it conserves. */
  lemma FillAccounts(b: Book, f: Fill)
    requires f.symbol in b.positions
    ensures Booked(b, f) - Cost(FilledSnapshot(b, f)) + Cost(b.positions[f.symbol]) == CashIn(f)
      <==> Conserving(b, f)
  {
    hide BuyPrice, BuyAgrees;
    var s := b.positions[f.symbol];
    if f.buy {
      BuyConserves(s, f.quantity, f.price);
    } else {
      SaleConserves(f.quantity, s.entryPrice, f.price);
      assert (s.quantity - f.quantity) as real == s.quantity as real - f.quantity as real;
      assert Cost(FilledSnapshot(b, f)) == Cost(s) - f.quantity as real * s.entryPrice;
    }
  }

  /** One fill changes equity by exactly its cash if and only if it is a conserving one. */
  lemma FillConserves(b: Book, f: Fill)
    ensures Equity(AfterFill(b, f)) == Equity(b) + CashIn(f) <==> Conserving(b, f)
  {
    var s' := FilledSnapshot(b, f);
    hide BuyPrice, BuyAgrees;
    TotalUpdate(b.positions, Cost, f.symbol, s');
    if f.symbol in b.positions {
      FillAccounts(b, f);
    }
    assert AfterFill(b, f).positions == b.positions[f.symbol := s'];
  }

  /** Over every multi-symbol run: equity tracks cash after each fill exactly when each fill conserves. */
  lemma {:induction false} RunConserves(b: Book, fs: seq<Fill>)
    ensures (forall k :: 0 <= k <= |fs| ==> Tracks(b, fs, k))
      <==> (forall k :: 0 <= k < |fs| ==> Conserving(FillAll(b, fs[..k]), fs[k]))
  {
    assert Tracks(b, fs, 0);
    forall k | 0 <= k < |fs|
      ensures Tracks(b, fs, k) ==> (Tracks(b, fs, k + 1) <==> Conserving(FillAll(b, fs[..k]), fs[k]))
    {
      assert fs[..k + 1][..k] == fs[..k];
      FillConserves(FillAll(b, fs[..k]), fs[k]);
    }
    if forall k :: 0 <= k < |fs| ==> Conserving(FillAll(b, fs[..k]), fs[k]) {
      var k := 0;
      while k < |fs|
        invariant k <= |fs|
        invariant forall j :: 0 <= j <= k ==> Tracks(b, fs, j)
      {
        k := k + 1;
      }
    } else if forall k :: 0 <= k <= |fs| ==> Tracks(b, fs, k) {
      var k :| 0 <= k < |fs| && !Conserving(FillAll(b, fs[..k]), fs[k]);
      assert Tracks(b, fs, k) && Tracks(b, fs, k + 1);
    }
  }

  /** After the first `k` fills, equity has grown by exactly the cash they brought in. */
  ghost predicate Tracks(b: Book, fs: seq<Fill>, k: int)
    requires 0 <= k <= |fs|
  {
    Equity(FillAll(b, fs[..k])) == Equity(b) + Cash(fs[..k])
  }

  /** The trading discipline of a long-only book: no negative quantities, BUYs only where not short. */
  predicate LongOnlyFill(b: Book, f: Fill) {
    f.quantity >= 0 && (f.buy && f.symbol in b.positions ==> b.positions[f.symbol].quantity >= 0)
  }

  function EmptyBook(): Book {
    Book(map[], 0.0, 0.0, None)
  }

  lemma LongOnlyConserves(b: Book, f: Fill)
    requires LongOnlyFill(b, f)
    ensures Conserving(b, f)
  {
  }

  lemma NoCost()
    ensures Equity(EmptyBook()) == 0.0
  {
  }

  /** Under that discipline, from an empty book: realized profit is net cash plus the cost of what is
      held, so when every position is flat again realized profit is net cash exactly. */
  lemma RealizedIsCash(fs: seq<Fill>)
    requires forall k :: 0 <= k < |fs| ==> LongOnlyFill(FillAll(EmptyBook(), fs[..k]), fs[k])
    ensures var b := FillAll(EmptyBook(), fs);
      && b.realized == Cash(fs) + Total(b.positions, Cost)
      && ((forall k :: k in b.positions ==> b.positions[k].quantity == 0) ==> b.realized == Cash(fs))
  {
    hide Conserving, LongOnlyFill, FillAll, AfterFill, Total, Cash;
    forall k | 0 <= k < |fs| ensures Conserving(FillAll(EmptyBook(), fs[..k]), fs[k]) {
      LongOnlyConserves(FillAll(EmptyBook(), fs[..k]), fs[k]);
    }
    RunConserves(EmptyBook(), fs);
    assert Tracks(EmptyBook(), fs, |fs|);
    assert fs[..|fs|] == fs;
    NoCost();
    var positions := FillAll(EmptyBook(), fs).positions;
    if forall k :: k in positions ==> positions[k].quantity == 0 {
      TotalZero(positions, Cost);
    }
  }

  // ---------------------------------------------------------------- the average price

  /** How much of a symbol the book holds. */
  function Held(b: Book, symbol: string): int {
    if symbol in b.positions then b.positions[symbol].quantity else 0
  }

  /** A run in which one symbol is bought within a price range and never sold short. */
  predicate RangedRun(b: Book, fs: seq<Fill>, symbol: string, lo: real, hi: real) {
    forall k {:trigger fs[k]} :: 0 <= k < |fs| && fs[k].symbol == symbol ==>
      && fs[k].quantity >= 0
      && (fs[k].buy && fs[k].quantity > 0 ==> lo <= fs[k].price <= hi)
      && Held(FillAll(b, fs[..k + 1]), symbol) >= 0
  }

  /** Once flat, a position built by BUYs within a price range and reduced by sales keeps an entry price
      within that range for as long as anything is held. */
  lemma {:induction false} EntryPriceInRange(b: Book, fs: seq<Fill>, symbol: string, lo: real, hi: real)
    requires Held(b, symbol) == 0 && RangedRun(b, fs, symbol, lo, hi)
    ensures var b' := FillAll(b, fs);
      Held(b', symbol) >= 0 && (Held(b', symbol) > 0 ==> lo <= b'.positions[symbol].entryPrice <= hi)
  {
    hide BuyPrice;
    if fs != [] {
      var n := |fs| - 1;
      forall k | 0 <= k < n ensures fs[..n][k] == fs[k] && fs[..n][..k + 1] == fs[..k + 1] {}
      assert RangedRun(b, fs[..n], symbol, lo, hi);
      EntryPriceInRange(b, fs[..n], symbol, lo, hi);
      var c, f := FillAll(b, fs[..n]), fs[n];
      assert fs[..n + 1] == fs;
      if f.symbol == symbol && symbol in c.positions && f.buy && Held(c, symbol) + f.quantity > 0 {
        AverageBetween(c.positions[symbol], f.quantity, f.price, lo, hi);
      }
    }
  }

  lemma BuyPriceIsMean(s: Snapshot, quantity: int, price: real)
    requires s.quantity >= 0 && quantity >= 0 && s.quantity + quantity > 0
    ensures BuyPrice(s, quantity, price) == Mean(s.entryPrice, s.quantity as real, price, quantity as real)
  {
    assert AbsInt(s.quantity) as real == s.quantity as real;
    assert AbsInt(s.quantity + quantity) as real == s.quantity as real + quantity as real;
  }

  lemma AverageBetween(s: Snapshot, quantity: int, price: real, lo: real, hi: real)
    requires s.quantity >= 0 && quantity >= 0 && s.quantity + quantity > 0
    requires (quantity > 0 ==> lo <= price <= hi) && (s.quantity > 0 ==> lo <= s.entryPrice <= hi)
    ensures lo <= BuyPrice(s, quantity, price) <= hi
  {
    hide BuyPrice, Mean;
    BuyPriceIsMean(s, quantity, price);
    WeightedBetween(lo, hi, s.entryPrice, price, s.quantity as real, quantity as real);
  }

  /** What the BUYs of one symbol cost, and how many units they bought. */
  function Spent(fs: seq<Fill>, symbol: string): real {
    if fs == [] then 0.0
    else Spent(fs[..|fs| - 1], symbol) + SpentBy(fs[|fs| - 1], symbol)
  }

  function SpentBy(f: Fill, symbol: string): real {
    if f.symbol == symbol then f.price * f.quantity as real else 0.0
  }

  function Bought(fs: seq<Fill>, symbol: string): int {
    if fs == [] then 0
    else Bought(fs[..|fs| - 1], symbol) + BoughtBy(fs[|fs| - 1], symbol)
  }

  function BoughtBy(f: Fill, symbol: string): int {
    if f.symbol == symbol then f.quantity else 0
  }

  predicate OnlyBuys(fs: seq<Fill>, symbol: string) {
    forall k :: 0 <= k < |fs| && fs[k].symbol == symbol ==> fs[k].buy && fs[k].quantity >= 0
  }

  /** For BUYs alone the position costs exactly the money spent. */
  lemma {:induction false} BuysCost(b: Book, fs: seq<Fill>, symbol: string)
    requires symbol !in b.positions && OnlyBuys(fs, symbol)
    ensures var b' := FillAll(b, fs);
      && Held(b', symbol) == Bought(fs, symbol) >= 0
      && (if symbol in b'.positions then Cost(b'.positions[symbol]) else 0.0) == Spent(fs, symbol)
  {
    hide AfterFill, Cost;
    if fs != [] {
      var n := |fs| - 1;
      BuysCost(b, fs[..n], symbol);
      var c, f := FillAll(b, fs[..n]), fs[n];
      FillTouchesOne(c, f);
      if f.symbol == symbol {
        assert f.buy && f.quantity >= 0;
        BuyAddsCost(c, f);
      }
    }
  }

  /** So the entry price is money spent over units bought. */
  lemma BuysAverage(b: Book, fs: seq<Fill>, symbol: string)
    requires symbol !in b.positions && OnlyBuys(fs, symbol)
    ensures var b' := FillAll(b, fs);
      && Held(b', symbol) == Bought(fs, symbol)
      && (Held(b', symbol) > 0 ==>
            b'.positions[symbol].entryPrice == Spent(fs, symbol) / Bought(fs, symbol) as real)
  {
    hide FillAll, Spent, Bought;
    BuysCost(b, fs, symbol);
    var b' := FillAll(b, fs);
    if Held(b', symbol) > 0 {
      var entry, units := b'.positions[symbol].entryPrice, Bought(fs, symbol) as real;
      assert Spent(fs, symbol) == entry * units;
      Cancel(entry, units);
    }
  }

  /** A BUY on top of a position that is not short adds what it paid. */
  lemma BuyAddsCost(b: Book, f: Fill)
    requires f.buy && f.quantity >= 0 && Held(b, f.symbol) >= 0
    ensures var before := if f.symbol in b.positions then Cost(b.positions[f.symbol]) else 0.0;
      && Cost(AfterFill(b, f).positions[f.symbol]) == before + f.price * f.quantity as real
      && Held(AfterFill(b, f), f.symbol) == Held(b, f.symbol) + f.quantity
  {
    hide BuyPrice;
    if f.symbol in b.positions {
      BuyConserves(b.positions[f.symbol], f.quantity, f.price);
    }
  }

  lemma FillTouchesOne(b: Book, f: Fill)
    ensures var b' := AfterFill(b, f);
      && b'.positions.Keys == b.positions.Keys + {f.symbol}
      && (forall k :: k in b.positions && k != f.symbol ==> b'.positions[k] == b.positions[k])
      && (f.symbol !in b.positions && f.buy ==>
            b'.positions[f.symbol].quantity == f.quantity && b'.positions[f.symbol].entryPrice == f.price)
  {
  }

  /** So the order in which the same BUYs arrive does not matter. */
  lemma BuysCommute(b: Book, fs: seq<Fill>, gs: seq<Fill>, symbol: string)
    requires symbol !in b.positions && OnlyBuys(fs, symbol) && multiset(fs) == multiset(gs)
    ensures var x, y := FillAll(b, fs), FillAll(b, gs);
      && Held(x, symbol) == Held(y, symbol)
      && (Held(x, symbol) > 0 ==> x.positions[symbol].entryPrice == y.positions[symbol].entryPrice)
  {
    forall k | 0 <= k < |gs| && gs[k].symbol == symbol ensures gs[k].buy && gs[k].quantity >= 0 {
      assert gs[k] in multiset(gs);
      assert gs[k] in fs;
    }
    BuysAverage(b, fs, symbol);
    BuysAverage(b, gs, symbol);
    TotalsCommute(fs, gs, symbol);
  }

  lemma {:induction false} TotalsCommute(fs: seq<Fill>, gs: seq<Fill>, symbol: string)
    requires multiset(fs) == multiset(gs)
    ensures Spent(fs, symbol) == Spent(gs, symbol) && Bought(fs, symbol) == Bought(gs, symbol)
  {
    if fs == [] {
      assert |multiset(gs)| == 0;
    } else {
      hide Spent, Bought, SpentBy, BoughtBy;
      var n := |fs| - 1;
      assert fs[n] in multiset(gs);
      var j :| 0 <= j < |gs| && gs[j] == fs[n];
      WithoutOne(fs, n);
      WithoutOne(gs, j);
      TotalsCommute(fs[..n] + fs[n + 1..], gs[..j] + gs[j + 1..], symbol);
      TakeOne(fs, n, symbol);
      TakeOne(gs, j, symbol);
    }
  }

  lemma WithoutOne(gs: seq<Fill>, j: nat)
    requires j < |gs|
    ensures multiset(gs[..j] + gs[j + 1..]) == multiset(gs) - multiset{gs[j]}
  {
    assert gs == gs[..j] + [gs[j]] + gs[j + 1..];
  }

  lemma {:induction false} TakeOne(gs: seq<Fill>, j: nat, symbol: string)
    requires j < |gs|
    ensures var rest := gs[..j] + gs[j + 1..];
      && Spent(gs, symbol) == Spent(rest, symbol) + SpentBy(gs[j], symbol)
      && Bought(gs, symbol) == Bought(rest, symbol) + BoughtBy(gs[j], symbol)
  {
    var n := |gs| - 1;
    var rest := gs[..j] + gs[j + 1..];
    if j == n {
      assert rest == gs[..n];
    } else {
      TakeOne(gs[..n], j, symbol);
      assert rest[..|rest| - 1] == gs[..n][..j] + gs[..n][j + 1..];
    }
  }

  // ---------------------------------------------------------------- synchronisation with the broker

  function SnapshotOf(p: BrokerPosition, now: real): Snapshot {
    Snapshot(p.symbol, p.segment, p.quantity, p.averagePrice, p.currentPrice, p.pnl, p.product, now)
  }

  /** The positions table after a sync: keyed by symbol alone, so a later duplicate replaces an earlier one. */
  function SnapshotsOf(ps: seq<BrokerPosition>, now: real): map<string, Snapshot> {
    if ps == [] then map[]
    else
      var p := ps[|ps| - 1];
      SnapshotsOf(ps[..|ps| - 1], now)[p.symbol := SnapshotOf(p, now)]
  }

  function PnlOf(ps: seq<BrokerPosition>): real {
    if ps == [] then 0.0 else PnlOf(ps[..|ps| - 1]) + ps[|ps| - 1].pnl
  }

  function Synced(b: Book, ps: seq<BrokerPosition>, now: real): Book {
    Book(SnapshotsOf(ps, now), b.realized, PnlOf(ps), Some(now))
  }

  function SyncedLedger(s: Ledger, m: Margins): Ledger {
    s.(marginAvailable := m.available, marginUsed := m.used, exposure := m.total)
  }

  /** A fill sets the risk state's position of its symbol to what the book then holds. */
  function FilledLedger(s: Ledger, b: Book, f: Fill): Ledger {
    s.(positions := s.positions[f.symbol := Held(AfterFill(b, f), f.symbol) as real])
  }

  predicate LossBreached(b: Book, lossLimit: real) {
    TotalPnl(b) < -lossLimit
  }

  /** The reasons the tracker gives the kill switch, figures included. */
  function LossReason(notation: Notation, b: Book, lossLimit: real): string {
    "Daily loss limit breached: P&L=" + notation.decimal(TotalPnl(b)) + ", limit=" + notation.decimal(lossLimit)
  }

  function MarginReason(notation: Notation, warning: string, m: Margins): string
    requires m.total != 0.0
  {
    warning + notation.percent(m.used / m.total)
  }

  function AfterLossCheck(notation: Notation, k: KillState, b: Book, lossLimit: real, orderCount: int, now: real)
    : KillState
  {
    if LossBreached(b, lossLimit)
    then AfterActivate(k, Kill, Cli, LossReason(notation, b, lossLimit), orderCount, now) else k
  }

  function LossTrail(h: Digest, notation: Notation, es: seq<Entry>, b: Book, lossLimit: real, now: real)
    : seq<Entry>
  {
    if LossBreached(b, lossLimit) then
      Recorded(h, es, KillSwitchActivated,
               map["reason" := Text("DAILY_LOSS_LIMIT"), "pnl" := Text(notation.decimal(TotalPnl(b))),
                   "limit" := Text(notation.decimal(lossLimit))],
               "", "", Micros(now))
    else es
  }

  predicate MarginHigh(m: Margins, threshold: real) {
    m.total != 0.0 && m.used / m.total > threshold
  }

  predicate MarginCritical(m: Margins, threshold: real) {
    MarginHigh(m, threshold) && m.used / m.total > 0.95
  }

  function AfterMarginCheck(notation: Notation, k: KillState, m: Margins, threshold: real, orderCount: int, now: real)
    : KillState
  {
    if MarginCritical(m, threshold)
    then AfterActivate(k, Pause, Cli, MarginReason(notation, "Margin utilization critical: ", m), orderCount, now)
    else if MarginHigh(m, threshold) && k.level == Inactive
    then AfterActivate(k, Throttle, Cli, MarginReason(notation, "Margin utilization high: ", m), orderCount, now)
    else k
  }

  /** The kill switch after the two checks that end a sync. */
  function SyncedKill(notation: Notation, k: KillState, b: Book, m: Margins, lossLimit: real, threshold: real,
                      orderCount: int, lossAt: real, marginAt: real): KillState
  {
    var checked := AfterLossCheck(notation, k, b, lossLimit, orderCount, lossAt);
    AfterMarginCheck(notation, checked, m, threshold, orderCount, marginAt)
  }

  /** Orders are blocked after a sync exactly when they were blocked before, or the loss limit is breached,
      or margin use is critical.  In particular a breach blocks whatever the margins are, although the
      margin check runs afterwards and may put PAUSE over KILL. */
  lemma SyncBlocks(notation: Notation, k: KillState, b: Book, m: Margins, lossLimit: real, threshold: real,
                   orderCount: int, lossAt: real, marginAt: real)
    ensures var level := SyncedKill(notation, k, b, m, lossLimit, threshold, orderCount, lossAt, marginAt).level;
      && (!Allows(level) <==> !Allows(k.level) || LossBreached(b, lossLimit) || MarginCritical(m, threshold))
      && (LossBreached(b, lossLimit) ==> (level == Kill <==> !MarginCritical(m, threshold)))
      && (level == Inactive ==> k.level == Inactive)
  {
  }

  function Unrealized(s: Snapshot): real {
    s.unrealizedPnl
  }

  /** When the broker reports each symbol once, the table's unrealized profit adds up to the tracker's. */
  lemma {:induction false} UnrealizedAddsUp(ps: seq<BrokerPosition>, now: real)
    requires forall i, j :: 0 <= i < j < |ps| ==> ps[i].symbol != ps[j].symbol
    ensures Total(SnapshotsOf(ps, now), Unrealized) == PnlOf(ps)
    ensures forall k :: k in SnapshotsOf(ps, now) <==> exists i :: 0 <= i < |ps| && ps[i].symbol == k
  {
    if ps != [] {
      var n := |ps| - 1;
      UnrealizedAddsUp(ps[..n], now);
      TotalUpdate(SnapshotsOf(ps[..n], now), Unrealized, ps[n].symbol, SnapshotOf(ps[n], now));
    }
  }

  // ---------------------------------------------------------------- the tracker object

  const DEFAULT_LOSS_LIMIT := 50000.0
  const DEFAULT_MARGIN_THRESHOLD := 0.80

  class PositionTracker {
    const killSwitch: KillSwitch
    const audit: AuditTrail
    const riskState: RiskState
    const notation: Notation
    const lossLimit: real
    const marginThreshold: real
    var positions: map<string, Snapshot>
    var realized: real
    var unrealized: real
    var lastSync: Option<real>

    ghost function View(): Book
      reads this
    {
      Book(positions, realized, unrealized, lastSync)
    }

    constructor (killSwitch: KillSwitch, audit: AuditTrail, riskState: RiskState, notation: Notation,
                 lossLimit: Option<real>, marginThreshold: Option<real>)
      ensures View() == EmptyBook()
      ensures this.killSwitch == killSwitch && this.audit == audit && this.riskState == riskState
      ensures this.notation == notation
      ensures this.lossLimit == OrDefault(lossLimit, 0.0, DEFAULT_LOSS_LIMIT)
      ensures this.marginThreshold == OrDefault(marginThreshold, 0.0, DEFAULT_MARGIN_THRESHOLD)
      ensures this.lossLimit == (if lossLimit.Some? && lossLimit.value != 0.0 then lossLimit.value else 50000.0)
      ensures this.marginThreshold ==
        if marginThreshold.Some? && marginThreshold.value != 0.0 then marginThreshold.value else 0.80
    {
      this.killSwitch, this.audit, this.riskState, this.notation := killSwitch, audit, riskState, notation;
      this.lossLimit := OrDefault(lossLimit, 0.0, DEFAULT_LOSS_LIMIT);
      this.marginThreshold := OrDefault(marginThreshold, 0.0, DEFAULT_MARGIN_THRESHOLD);
      positions, realized, unrealized, lastSync := map[], 0.0, 0.0, None;
    }

    method UpdateFill(f: Fill)
      modifies this, riskState
      ensures View() == AfterFill(old(View()), f)
      ensures riskState.View() == FilledLedger(old(riskState.View()), old(View()), f)
      ensures f.symbol in positions
      ensures riskState.positions == old(riskState.positions)[f.symbol := positions[f.symbol].quantity as real]
    {
      hide TotalCost;
      if f.symbol !in positions {
        positions := positions[f.symbol :=
          Snapshot(f.symbol, "NFO", if f.buy then f.quantity else -f.quantity, f.price, f.price, 0.0, "MIS", f.at)];
      } else {
        var existing := positions[f.symbol];
        if f.buy {
          var newQuantity := existing.quantity + f.quantity;
          if newQuantity != 0 {
            var totalCost := TotalCost(existing, f.quantity, f.price);
            var average := totalCost / AbsInt(newQuantity) as real;
            existing := existing.(entryPrice := average);
          }
          existing := existing.(quantity := newQuantity);
        } else {
          realized := realized + (f.price - existing.entryPrice) * AbsInt(f.quantity) as real;
          existing := existing.(quantity := existing.quantity - f.quantity);
        }
        existing := existing.(currentPrice := f.price, timestamp := f.at);
        positions := positions[f.symbol := existing];
        assert positions[f.symbol] == FilledSnapshot(old(View()), f);
      }
      assert realized == old(realized) + Booked(old(View()), f);
      riskState.positions := riskState.positions[f.symbol := positions[f.symbol].quantity as real];
    }

    /** The part of `sync` that runs once the broker has answered; nothing can interleave with it.  The clock is
        read at `now`, and by a breach and a margin warning at the times that follow. */
    method Sync(ps: seq<BrokerPosition>, m: Margins, now: real, lossAt: real, recordedAt: real, marginAt: real)
      modifies this, riskState, killSwitch, audit
      ensures View() == Synced(old(View()), ps, now)
      ensures riskState.View() == SyncedLedger(old(riskState.View()), m)
      ensures killSwitch.State() ==
        SyncedKill(notation, old(killSwitch.State()), View(), m, lossLimit, marginThreshold,
                   old(riskState.dailyOrderCount), lossAt, marginAt)
      ensures audit.entries == LossTrail(audit.digest, notation, old(audit.entries), View(), lossLimit, recordedAt)
    {
      positions := map[];
      var totalUnrealized := 0.0;
      for i := 0 to |ps|
        invariant positions == SnapshotsOf(ps[..i], now) && totalUnrealized == PnlOf(ps[..i])
        invariant realized == old(realized)
        invariant riskState.View() == old(riskState.View()) && killSwitch.State() == old(killSwitch.State())
        invariant audit.entries == old(audit.entries)
      {
        assert ps[..i + 1][..i] == ps[..i];
        positions := positions[ps[i].symbol := SnapshotOf(ps[i], now)];
        totalUnrealized := totalUnrealized + ps[i].pnl;
      }
      assert ps[..|ps|] == ps;
      unrealized := totalUnrealized;
      riskState.marginAvailable := m.available;
      riskState.marginUsed := m.used;
      riskState.currentExposure := m.total;
      lastSync := Some(now);
      CheckDailyLoss(lossAt, recordedAt);
      CheckMarginUtilization(m, marginAt);
    }

    method CheckDailyLoss(now: real, recordedAt: real)
      modifies killSwitch, audit
      ensures killSwitch.State() ==
        AfterLossCheck(notation, old(killSwitch.State()), View(), lossLimit, riskState.dailyOrderCount, now)
      ensures audit.entries == LossTrail(audit.digest, notation, old(audit.entries), View(), lossLimit, recordedAt)
    {
      var total := realized + unrealized;
      if total < -lossLimit {
        var reason := "Daily loss limit breached: P&L=" + notation.decimal(total) + ", limit=" +
          notation.decimal(lossLimit);
        killSwitch.Activate(Kill, Cli, reason, riskState.dailyOrderCount, now);
        var _ := audit.Record(
          KillSwitchActivated,
          map["reason" := Text("DAILY_LOSS_LIMIT"), "pnl" := Text(notation.decimal(total)),
              "limit" := Text(notation.decimal(lossLimit))],
          "", "", Micros(recordedAt));
      }
    }

    method CheckMarginUtilization(m: Margins, now: real)
      modifies killSwitch
      ensures killSwitch.State() ==
        AfterMarginCheck(notation, old(killSwitch.State()), m, marginThreshold, riskState.dailyOrderCount, now)
    {
      if m.total == 0.0 {
        return;
      }
      var utilization := m.used / m.total;
      if utilization > marginThreshold {
        if utilization > 0.95 {
          killSwitch.Activate(Pause, Cli, "Margin utilization critical: " + notation.percent(utilization),
                              riskState.dailyOrderCount, now);
        } else if killSwitch.level == Inactive {
          killSwitch.Activate(Throttle, Cli, "Margin utilization high: " + notation.percent(utilization),
                              riskState.dailyOrderCount, now);
        }
      }
    }
  }
}
