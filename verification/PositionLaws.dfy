/** What a sync and a fill of src/execution/positions.py come to, on the figures themselves. */
module PositionLaws {
  import opened Prelude
  import opened AuditTrails
  import opened KillSwitches
  import opened Risk
  import opened Positions

  function Profits(ps: seq<BrokerPosition>): seq<real> {
    seq(|ps|, i requires 0 <= i < |ps| => ps[i].pnl)
  }

  lemma {:induction false} PnlIsSum(ps: seq<BrokerPosition>)
    ensures PnlOf(ps) == Sum(Profits(ps))
  {
    if ps != [] {
      var n := |ps| - 1;
      PnlIsSum(ps[..n]);
      assert Profits(ps)[..n] == Profits(ps[..n]);
    }
  }

  /** The share of the margin in use that `m` reports exceeds `bound`; nothing does when there is no margin. */
  predicate UseAbove(m: Margins, bound: real) {
    m.total != 0.0 && m.used / m.total > bound
  }

  /** The exact level after a sync, from the reported profits, the margins and the level before: critical margins
      give PAUSE whatever else holds, a loss beyond the limit gives KILL, high margins throttle an inactive switch,
      and otherwise the level stays. */
  lemma SyncLevel(notation: Notation, k: KillState, b: Book, ps: seq<BrokerPosition>, m: Margins, lossLimit: real,
                  threshold: real, orderCount: int, now: real, lossAt: real, marginAt: real)
    ensures SyncedKill(notation, k, Synced(b, ps, now), m, lossLimit, threshold, orderCount, lossAt, marginAt).level ==
      if UseAbove(m, threshold) && UseAbove(m, 0.95) then Pause
      else if b.realized + Sum(Profits(ps)) < -lossLimit then Kill
      else if UseAbove(m, threshold) && k.level == Inactive then Throttle
      else k.level
  {
    hide Sum, PnlOf, LossReason, MarginReason;
    PnlIsSum(ps);
  }

  /** What the sync leaves in the activation log: one event for each level it set, with its figures. */
  lemma SyncIsLogged(notation: Notation, k: KillState, b: Book, ps: seq<BrokerPosition>, m: Margins, lossLimit: real,
                     threshold: real, orderCount: int, now: real, lossAt: real, marginAt: real)
    ensures var book := Synced(b, ps, now);
      var after := SyncedKill(notation, k, book, m, lossLimit, threshold, orderCount, lossAt, marginAt);
      var pnl := b.realized + Sum(Profits(ps));
      var breach :=
        "Daily loss limit breached: P&L=" + notation.decimal(pnl) + ", limit=" + notation.decimal(lossLimit);
      var lost := if pnl < -lossLimit then [Activated(lossAt, Kill, Cli, breach, orderCount)] else [];
      var used := if m.total == 0.0 then "" else notation.percent(m.used / m.total);
      var warned :=
        if UseAbove(m, threshold) && UseAbove(m, 0.95) then
          [Activated(marginAt, Pause, Cli, "Margin utilization critical: " + used, orderCount)]
        else if UseAbove(m, threshold) && k.level == Inactive && lost == [] then
          [Activated(marginAt, Throttle, Cli, "Margin utilization high: " + used, orderCount)]
        else [];
      after.log == k.log + lost + warned
  {
    hide Sum, PnlOf;
    PnlIsSum(ps);
  }

  /** The table holds this position as the broker reported it. */
  predicate Reports(table: map<string, Snapshot>, p: BrokerPosition, now: real) {
    p.symbol in table &&
    var s := table[p.symbol];
    && s.symbol == p.symbol && s.segment == p.segment && s.product == p.product && s.quantity == p.quantity
    && s.entryPrice == p.averagePrice && s.currentPrice == p.currentPrice && s.unrealizedPnl == p.pnl
    && s.timestamp == now
  }

  /** The table holds each symbol as it was last reported, and no other symbol. */
  lemma {:induction false} LastReportKept(ps: seq<BrokerPosition>, now: real, i: nat)
    requires i < |ps| && forall j :: i < j < |ps| ==> ps[j].symbol != ps[i].symbol
    ensures Reports(SnapshotsOf(ps, now), ps[i], now)
  {
    var n := |ps| - 1;
    if i < n {
      LastReportKept(ps[..n], now, i);
    }
  }

  lemma {:induction false} OnlyReported(ps: seq<BrokerPosition>, now: real, symbol: string)
    requires symbol in SnapshotsOf(ps, now)
    ensures exists i :: 0 <= i < |ps| && ps[i].symbol == symbol
  {
    var n := |ps| - 1;
    if ps[n].symbol != symbol {
      OnlyReported(ps[..n], now, symbol);
    }
  }

  /** What a sync makes of the book and of the risk state: the table above, the profits added up, the margins as they
      are, and nothing else. */
  lemma SyncMeaning(b: Book, s: Ledger, ps: seq<BrokerPosition>, m: Margins, now: real)
    ensures var b', s' := Synced(b, ps, now), SyncedLedger(s, m);
      && b'.positions == SnapshotsOf(ps, now)
      && b'.realized == b.realized && b'.unrealized == Sum(Profits(ps)) && b'.lastSync == Some(now)
      && s'.exposure == m.total && s'.marginAvailable == m.available && s'.marginUsed == m.used
      && s'.dailyOrderCount == s.dailyOrderCount && s'.positions == s.positions
      && s'.orderTimestamps == s.orderTimestamps && s'.orderRejections == s.orderRejections
  {
    PnlIsSum(ps);
  }

  /** The entry price after a BUY: what it costs to hold the new quantity is what the old one cost and the BUY paid,
      quantities without sign; a position that nets to zero keeps its price. */
  lemma BuyMeaning(b: Book, f: Fill)
    requires f.buy && f.symbol in b.positions
    ensures var was, t := b.positions[f.symbol], AfterFill(b, f).positions[f.symbol];
      var units := if t.quantity < 0 then -t.quantity else t.quantity;
      var unitsBefore := if was.quantity < 0 then -was.quantity else was.quantity;
      if t.quantity == 0 then t.entryPrice == was.entryPrice
      else t.entryPrice * units as real == was.entryPrice * unitsBefore as real + f.price * f.quantity as real
  {
    var was := b.positions[f.symbol];
    var cost, units := TotalCost(was, f.quantity, f.price), AbsInt(was.quantity + f.quantity);
    assert cost == was.entryPrice * AbsInt(was.quantity) as real + f.price * f.quantity as real;
    if was.quantity + f.quantity != 0 {
      assert BuyPrice(was, f.quantity, f.price) == cost / units as real;
      hide TotalCost, BuyPrice;
      assert cost / units as real * units as real == cost;
    }
  }

  /** What a fill makes of the book and of the risk state, the entry price of a BUY aside: it moves its symbol by
      the signed quantity, marks it at the fill's price and time, and touches no other. */
  lemma FillMeaning(b: Book, s: Ledger, f: Fill)
    ensures var b', s' := AfterFill(b, f), FilledLedger(s, b, f);
      && f.symbol in b'.positions && b'.positions - {f.symbol} == b.positions - {f.symbol}
      && b'.unrealized == b.unrealized && b'.lastSync == b.lastSync
      && Held(b', f.symbol) == Held(b, f.symbol) + (if f.buy then f.quantity else -f.quantity)
      && PositionOf(s', f.symbol) == Held(b', f.symbol) as real
      && s' == s.(positions := s'.positions) && s'.positions - {f.symbol} == s.positions - {f.symbol}
      && var t := b'.positions[f.symbol];
      && t.currentPrice == f.price && t.timestamp == f.at
      && if f.symbol !in b.positions
         then && t.symbol == f.symbol && t.segment == "NFO" && t.product == "MIS" && t.entryPrice == f.price
              && t.unrealizedPnl == 0.0 && b'.realized == b.realized
         else
           var was := b.positions[f.symbol];
           && t.symbol == was.symbol && t.segment == was.segment && t.product == was.product
           && t.unrealizedPnl == was.unrealizedPnl
           && if f.buy then b'.realized == b.realized
              else t.entryPrice == was.entryPrice && b'.realized == b.realized +
                     (f.price - was.entryPrice) * (if f.quantity < 0 then -f.quantity else f.quantity) as real
  {
    hide BuyPrice;
  }
}
