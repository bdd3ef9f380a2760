// The projected trading history and the trade ledger: opening, resizing, flipping and closing trades
// so that they follow the broker's positions.
module TradingHistory {
  import opened Prelude
  import opened MarketTypes
  import opened BrokerTypes

  datatype RunContext = RunContext(strategyId: Option<string>, runId: Option<string>)

  datatype OrderRecord = OrderRecord(
    orderId: string,
    context: RunContext,
    accountId: Option<string>,
    symbol: string,
    side: Side,
    orderType: Option<EntryOrderType>,
    quantity: nat,
    filledQuantity: nat,
    averageFillPrice: Option<Decimal>,
    status: OrderStatus,
    provider: string,
    submittedAt: Time,
    updatedAt: Time)

  datatype FillRecord = FillRecord(
    fillId: string,
    orderId: Option<string>,
    context: RunContext,
    accountId: Option<string>,
    symbol: string,
    side: Side,
    quantity: nat,
    price: Decimal,
    fee: Decimal,
    commission: Decimal,
    occurredAt: Time)

  datatype TradeStatus = TradeOpen | TradeClosed | TradeCancelled

  datatype TradeSummary = TradeSummary(
    tradeId: string,
    context: RunContext,
    accountId: Option<string>,
    symbol: string,
    side: Side,
    status: TradeStatus,
    quantity: nat,
    averageEntryPrice: Decimal,
    averageExitPrice: Option<Decimal>,
    openedAt: Time,
    closedAt: Option<Time>,
    grossPnl: Decimal,
    netPnl: Decimal,
    fees: Decimal,
    commissions: Decimal,
    slippage: Decimal)

  datatype PnlSnapshot = PnlSnapshot(
    grossPnl: Decimal,
    netPnl: Decimal,
    fees: Decimal,
    commissions: Decimal,
    capturedAt: Time)

  type Fills = map<string, FillRecord>

  type Ledger = map<string, TradeSummary>

  /** Maps keyed by id with last write winning, and the number of records appended to each store. */
  datatype History = History(
    orders: map<string, OrderRecord>,
    fills: Fills,
    trades: Ledger,
    orderRecords: nat,
    fillRecords: nat,
    positionRecords: nat,
    tradeRecords: nat,
    pnlSnapshots: seq<PnlSnapshot>)

  // ----- costs

  function FeeOf(fills: Fills): string -> int {
    id => if id in fills then fills[id].fee else 0
  }

  function CommissionOf(fills: Fills): string -> int {
    id => if id in fills then fills[id].commission else 0
  }

  /** Whether a fill falls into a trade's open-close window. */
  predicate Chargeable(fill: FillRecord, symbol: string, openedAt: Time, closedAt: Time) {
    SameSymbol(fill.symbol, symbol) && openedAt <= fill.occurredAt <= closedAt
  }

  function ChargedFills(fills: Fills, symbol: string, openedAt: Time, closedAt: Time): set<string> {
    set id | id in fills && Chargeable(fills[id], symbol, openedAt, closedAt)
  }

  /** `max_by_key(occurred_at)`: the last of the latest fills in key order. */
  ghost function LatestFill(fills: Fills, ids: seq<string>): Option<string>
    requires forall id :: id in ids ==> id in fills
  {
    if ids == [] then None
    else
      var last := ids[|ids| - 1];
      assert forall id :: id in ids[..|ids| - 1] ==> id in ids;
      var best := LatestFill(fills, ids[..|ids| - 1]);
      if best.Some? && best.value in fills && fills[best.value].occurredAt > fills[last].occurredAt then best
      else Some(last)
  }

  ghost function ExitPrice(fills: Fills, ids: set<string>): Option<Decimal>
    requires ids <= fills.Keys
  {
    match LatestFill(fills, InOrder(ids))
    case Some(id) => if id in fills then Some(fills[id].price) else None
    case None => None
  }

  // ----- the ledger

  function SideOf(quantity: int): Option<Side> {
    if quantity > 0 then Some(Buy) else if quantity < 0 then Some(Sell) else None
  }

  /** Nanoseconds as the source prints them: zero when they do not fit a 64-bit integer. */
  function PrintedNanos(t: Time): int {
    if -0x8000_0000_0000_0000 <= t <= 0x7FFF_FFFF_FFFF_FFFF then t else 0
  }

  function TradeIdFor(symbol: string, now: Time): string {
    "trade-" + symbol + "-" + IntString(PrintedNanos(now))
  }

  /** What comes before the digits in a trade id: a minus sign reads like one more dash. */
  function IdStem(symbol: string, t: Time): string {
    "trade-" + symbol + if PrintedNanos(t) < 0 then "-" else ""
  }

  /**
   * Two trade ids are equal exactly when their printed times have the same digits and their stems agree. So a
   * symbol "X-" after the epoch and a symbol "X" before it can collide, and nothing else.
   */
  lemma TradeIdsCollide(a: string, t: Time, b: string, u: Time)
    ensures TradeIdFor(a, t) == TradeIdFor(b, u)
       <==> Abs(PrintedNanos(t)) == Abs(PrintedNanos(u)) && IdStem(a, t) == IdStem(b, u)
  {
    hide IntString, Digits;
    StemAndDigits(a, t);
    StemAndDigits(b, u);
    if TradeIdFor(a, t) == TradeIdFor(b, u) {
      DashDigitsSplit(IdStem(a, t), Abs(PrintedNanos(t)), IdStem(b, u), Abs(PrintedNanos(u)));
    }
  }

  lemma StemAndDigits(symbol: string, t: Time)
    ensures TradeIdFor(symbol, t) == IdStem(symbol, t) + "-" + Digits(Abs(PrintedNanos(t)))
  {
    hide Digits;
    var n := PrintedNanos(t);
    if n < 0 {
      assert "trade-" + symbol + "-" + ("-" + Digits(-n)) == "trade-" + symbol + "-" + "-" + Digits(-n);
    } else {
      assert "trade-" + symbol + "" == "trade-" + symbol;
    }
  }

  /** From the epoch on, a trade id names its symbol and its time. */
  lemma TradeIdNamesItsSymbol(a: string, t: Time, b: string, u: Time)
    requires t >= 0 && u >= 0 && TradeIdFor(a, t) == TradeIdFor(b, u)
    ensures a == b && PrintedNanos(t) == PrintedNanos(u)
  {
    hide IntString, Digits;
    TradeIdsCollide(a, t, b, u);
    assert IdStem(a, t)[6..] == a + "" && IdStem(b, u)[6..] == b + "";
    assert a + "" == a && b + "" == b;
  }

  ghost predicate WellKeyed(trades: Ledger) {
    forall id :: id in trades ==> trades[id].tradeId == id
  }

  /** The open trades of a symbol. */
  function OpenIds(trades: Ledger, symbol: string): set<string> {
    set id | id in trades && trades[id].status == TradeOpen && SameSymbol(trades[id].symbol, symbol)
  }

  /** The open trade found first: the least key of a match, as iteration is in key order. */
  ghost function FindOpen(trades: Ledger, symbol: string): Option<string> {
    var ids := OpenIds(trades, symbol);
    if ids == {} then None else Some(Least(ids))
  }

  function OpenedTrade(position: BrokerPosition, side: Side, context: RunContext, now: Time): TradeSummary {
    TradeSummary(TradeIdFor(position.symbol, now), context, position.accountId, position.symbol, side, TradeOpen,
                 Abs(position.quantity), position.averagePrice.GetOr(0), None, position.capturedAt, None,
                 0, 0, 0, 0, 0)
  }

  function ResizedTrade(record: TradeSummary, position: BrokerPosition): TradeSummary {
    record.(quantity := Abs(position.quantity),
            averageEntryPrice := position.averagePrice.GetOr(record.averageEntryPrice))
  }

  ghost function ClosedTrade(record: TradeSummary, fills: Fills, position: BrokerPosition, now: Time): TradeSummary {
    var charged := ChargedFills(fills, record.symbol, record.openedAt, now);
    var fees, commissions := SumOn(charged, FeeOf(fills)), SumOn(charged, CommissionOf(fills));
    var gross := position.realizedPnl.GetOr(0);
    record.(status := TradeClosed, closedAt := Some(now), averageExitPrice := ExitPrice(fills, charged),
            grossPnl := gross, fees := fees, commissions := commissions, slippage := 0,
            netPnl := gross - fees - commissions)
  }

  /** The open trades of the position's symbol that are not on its side: what a flip still has to close. */
  ghost function StaleIds(trades: Ledger, position: BrokerPosition): set<string> {
    set id | id in OpenIds(trades, position.symbol) && Some(trades[id].side) != SideOf(position.quantity)
  }

  lemma CloseShrinksStale(trades: Ledger, fills: Fills, position: BrokerPosition, id: string, now: Time)
    requires id in StaleIds(trades, position)
    ensures StaleIds(trades[id := ClosedTrade(trades[id], fills, position, now)], position)
         == StaleIds(trades, position) - {id}
  {
    hide ExitPrice, SumOn, SameSymbol;
  }

  /**
   * Bringing the ledger in line with one position: the new ledger and how many records were written.
   * The recursion after a flip terminates on any ledger, because each round closes a stale trade.
   */
  ghost function SyncTrade(trades: Ledger, fills: Fills, position: BrokerPosition, context: RunContext, now: Time)
    : (Ledger, nat)
    decreases |StaleIds(trades, position)|
  {
    match (FindOpen(trades, position.symbol), SideOf(position.quantity))
    case (None, Some(side)) =>
      var trade := OpenedTrade(position, side, context, now);
      (trades[trade.tradeId := trade], 1)
    case (Some(id), Some(side)) =>
      if trades[id].side == side then (trades[id := ResizedTrade(trades[id], position)], 1)
      else
        assert id in StaleIds(trades, position);
        CloseShrinksStale(trades, fills, position, id, now);
        var closed := trades[id := ClosedTrade(trades[id], fills, position, now)];
        var (after, written) := SyncTrade(closed, fills, position, context, now);
        (after, written + 1)
    case (Some(id), None) => (trades[id := ClosedTrade(trades[id], fills, position, now)], 1)
    case (None, None) => (trades, 0)
  }

  ghost function SyncTrades(trades: Ledger, fills: Fills, positions: seq<BrokerPosition>, context: RunContext,
                            now: Time)
    : (Ledger, nat)
  {
    if positions == [] then (trades, 0)
    else
      var n := |positions| - 1;
      var (before, written) := SyncTrades(trades, fills, positions[..n], context, now);
      var (after, more) := SyncTrade(before, fills, positions[n], context, now);
      (after, written + more)
  }
}
