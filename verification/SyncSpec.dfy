// One broker sync as a function of the recorder's state: which records it appends and what it remembers.
module SyncSpec {
  import opened Prelude
  import opened MarketTypes
  import opened BrokerTypes
  import opened TradingHistory

  datatype BrokerSnapshot = BrokerSnapshot(
    selectedAccount: Option<string>,
    account: Option<BrokerAccount>,
    positions: seq<BrokerPosition>,
    orders: seq<BrokerOrder>,
    fills: seq<BrokerFill>)
  {
    function DefaultAccount(): Option<string> {
      match selectedAccount
      case Some(id) => Some(id)
      case None => match account case Some(a) => Some(a.accountId) case None => None
    }
  }

  type OrderMap = map<string, BrokerOrder>

  type PositionMap = map<string, BrokerPosition>

  datatype RecorderState = RecorderState(
    context: RunContext,
    lastOrders: OrderMap,
    seenFills: set<string>,
    lastPositions: PositionMap,
    lastAccount: Option<BrokerAccount>,
    history: History)

  function EmptyHistory(): History {
    History(map[], map[], map[], 0, 0, 0, 0, [])
  }

  function FreshRecorder(): RecorderState {
    RecorderState(RunContext(None, None), map[], {}, map[], None, EmptyHistory())
  }

  // ----- orders

  /** The record for a working order, merged with what is already known; none while side or quantity is unknown. */
  function MergeOrder(orders: map<string, OrderRecord>, order: BrokerOrder, context: RunContext,
                      account: Option<string>)
    : Option<OrderRecord>
  {
    var existing := Get(orders, order.orderId);
    match existing
    case Some(e) =>
      Some(OrderRecord(
        order.orderId,
        RunContext(e.context.strategyId.Or(context.strategyId), e.context.runId.Or(context.runId)),
        order.accountId.Or(e.accountId).Or(account), order.symbol, order.side.GetOr(e.side),
        order.orderType.Or(e.orderType), order.quantity.GetOr(e.quantity), order.filledQuantity,
        order.averageFillPrice.Or(e.averageFillPrice), order.status, e.provider, e.submittedAt, order.updatedAt))
    case None =>
      if order.side.None? || order.quantity.None? then None
      else Some(OrderRecord(
        order.orderId, context, order.accountId.Or(account), order.symbol, order.side.value,
        order.orderType, order.quantity.value, order.filledQuantity,
        order.averageFillPrice, order.status, "tradovate", order.updatedAt, order.updatedAt))
  }

  /** Remembering the working orders; changed ones yield records. */
  function OrderPass(orders: map<string, OrderRecord>, context: RunContext, account: Option<string>,
                     last: OrderMap, working: seq<BrokerOrder>): (OrderMap, seq<OrderRecord>)
  {
    if working == [] then (last, [])
    else
      var n := |working| - 1;
      var order := working[n];
      var (before, records) := OrderPass(orders, context, account, last, working[..n]);
      if Get(before, order.orderId) == Some(order) then (before, records)
      else
        match MergeOrder(orders, order, context, account)
        case Some(record) => (before[order.orderId := order], records + [record])
        case None => (before[order.orderId := order], records)
  }

  function OrderIds(working: seq<BrokerOrder>): set<string> {
    set i | 0 <= i < |working| :: working[i].orderId
  }

  // ----- fills

  function FillRecordOf(fill: BrokerFill, context: RunContext, account: Option<string>): FillRecord {
    FillRecord(fill.fillId, fill.orderId, context, fill.accountId.Or(account), fill.symbol, fill.side,
               fill.quantity, fill.price, fill.fee.GetOr(0), fill.commission.GetOr(0), fill.occurredAt)
  }

  function AddQuantity(quantities: map<string, nat>, orderId: Option<string>, quantity: nat): map<string, nat> {
    match orderId
    case Some(id) => quantities[id := Get(quantities, id).GetOr(0) + quantity]
    case None => quantities
  }

  /** Fills seen for the first time, and the quantity they add to each order. */
  function FillPass(seen: set<string>, context: RunContext, account: Option<string>, fills: seq<BrokerFill>)
    : (set<string>, seq<FillRecord>, map<string, nat>)
  {
    if fills == [] then (seen, [], map[])
    else
      var n := |fills| - 1;
      var fill := fills[n];
      var (before, records, quantities) := FillPass(seen, context, account, fills[..n]);
      if fill.fillId in before then (before, records, quantities)
      else (before + {fill.fillId}, records + [FillRecordOf(fill, context, account)],
            AddQuantity(quantities, fill.orderId, fill.quantity))
  }

  // ----- positions

  /** The key positions are remembered under. */
  function PositionKey(p: BrokerPosition): string {
    p.accountId.GetOr("unknown") + ":" + p.symbol
  }

  function PositionPass(last: PositionMap, positions: seq<BrokerPosition>): (PositionMap, seq<BrokerPosition>) {
    if positions == [] then (last, [])
    else
      var n := |positions| - 1;
      var p := positions[n];
      var (before, changed) := PositionPass(last, positions[..n]);
      if Get(before, PositionKey(p)) == Some(p) then (before, changed)
      else (before[PositionKey(p) := p], changed + [p])
  }

  function PositionKeys(positions: seq<BrokerPosition>): set<string> {
    set i | 0 <= i < |positions| :: PositionKey(positions[i])
  }

  /** A position that disappeared, reported as flat. */
  function Flattened(p: BrokerPosition, now: Time): BrokerPosition {
    BrokerPosition(p.accountId, p.symbol, 0, p.averagePrice, p.realizedPnl, Some(0), false, now)
  }

  function FlattenAll(last: PositionMap, keys: seq<string>, now: Time): seq<BrokerPosition>
    requires forall k :: k in keys ==> k in last
  {
    if keys == [] then []
    else
      assert keys[|keys| - 1] in keys && forall k :: k in keys[..|keys| - 1] ==> k in keys;
      FlattenAll(last, keys[..|keys| - 1], now) + [Flattened(last[keys[|keys| - 1]], now)]
  }

  // ----- orders that left the working set

  ghost function QuantityOf(fills: Fills, orderId: string): string -> int {
    id => if id in fills && fills[id].orderId == Some(orderId) then fills[id].quantity else 0
  }

  /** `total_filled_for_order`: the filled quantity over all recorded fills of an order. */
  ghost function TotalFilled(fills: Fills, orderId: string): nat {
    SumOnNonNegative(fills.Keys, QuantityOf(fills, orderId));
    SumOn(fills.Keys, QuantityOf(fills, orderId))
  }

  ghost function FinalRecord(history: History, added: map<string, nat>, last: BrokerOrder, orderId: string, now: Time)
    : OrderRecord
    requires orderId in history.orders
  {
    var e := history.orders[orderId];
    var filled := TotalFilled(history.fills, orderId) + Get(added, orderId).GetOr(0);
    e.(filledQuantity := filled,
       averageFillPrice := last.averageFillPrice.Or(e.averageFillPrice),
       status := if filled >= e.quantity then FilledOrder else CancelledOrder,
       updatedAt := now)
  }

  ghost function FinalRecords(history: History, added: map<string, nat>, last: OrderMap, removed: seq<string>,
                              now: Time)
    : seq<OrderRecord>
  {
    if removed == [] then []
    else
      var n := |removed| - 1;
      var id := removed[n];
      var rest := FinalRecords(history, added, last, removed[..n], now);
      if id in last && id in history.orders then rest + [FinalRecord(history, added, last[id], id, now)] else rest
  }

  // ----- persisting

  function ApplyOrders(orders: map<string, OrderRecord>, records: seq<OrderRecord>): map<string, OrderRecord> {
    if records == [] then orders
    else
      var n := |records| - 1;
      ApplyOrders(orders, records[..n])[records[n].orderId := records[n]]
  }

  function ApplyFills(fills: Fills, records: seq<FillRecord>): Fills {
    if records == [] then fills
    else
      var n := |records| - 1;
      ApplyFills(fills, records[..n])[records[n].fillId := records[n]]
  }

  ghost function RecordedFees(fills: Fills): int { SumOn(fills.Keys, FeeOf(fills)) }

  ghost function RecordedCommissions(fills: Fills): int { SumOn(fills.Keys, CommissionOf(fills)) }

  function ClosedFeeOf(trades: Ledger): string -> int {
    id => if id in trades && trades[id].status == TradeClosed then trades[id].fees else 0
  }

  function ClosedCommissionOf(trades: Ledger): string -> int {
    id => if id in trades && trades[id].status == TradeClosed then trades[id].commissions else 0
  }

  ghost function ClosedFees(trades: Ledger): int { SumOn(trades.Keys, ClosedFeeOf(trades)) }

  ghost function ClosedCommissions(trades: Ledger): int { SumOn(trades.Keys, ClosedCommissionOf(trades)) }

  /** Slippage is always zero in closed trades, so the source's slippage term is left out. */
  ghost function PnlOf(account: BrokerAccount, fills: Fills, trades: Ledger, now: Time): PnlSnapshot {
    var gross := account.realizedPnl.GetOr(0) + account.unrealizedPnl.GetOr(0);
    var fees := Max(RecordedFees(fills), ClosedFees(trades));
    var commissions := Max(RecordedCommissions(fills), ClosedCommissions(trades));
    PnlSnapshot(gross, gross - fees - commissions, fees, commissions, now)
  }

  // ----- the whole sync

  /** Everything one sync decides before it persists anything. */
  datatype Diff = Diff(
    lastOrders: OrderMap,
    removedOrders: seq<string>,
    workingRecords: seq<OrderRecord>,
    seenFills: set<string>,
    fillRecords: seq<FillRecord>,
    addedQuantities: map<string, nat>,
    lastPositions: PositionMap,
    processed: seq<BrokerPosition>,
    pnlAccount: Option<BrokerAccount>,
    finalRecords: seq<OrderRecord>)
  {
    predicate Changed() {
      workingRecords != [] || fillRecords != [] || processed != [] || pnlAccount.Some? || finalRecords != []
    }
  }

  ghost function DiffOf(s: RecorderState, snap: BrokerSnapshot, now: Time): Diff {
    var account := snap.DefaultAccount();
    var (orders, working) := OrderPass(s.history.orders, s.context, account, s.lastOrders, snap.orders);
    var removedOrders := InOrder(orders.Keys - OrderIds(snap.orders));
    var (seen, fills, added) := FillPass(s.seenFills, s.context, account, snap.fills);
    var (positions, changed) := PositionPass(s.lastPositions, snap.positions);
    var gone := InOrder(positions.Keys - PositionKeys(snap.positions));
    var processed := changed + FlattenAll(positions, gone, now);
    var touched := working != [] || fills != [] || processed != [];
    var pnl := if s.lastAccount != snap.account || touched then snap.account else None;
    Diff(orders, removedOrders, working, seen, fills, added, positions, processed, pnl,
         FinalRecords(s.history, added, orders, removedOrders, now))
  }

  /** Persisting decided records: orders, fills, positions with their trades, and the profit and loss. */
  ghost function PersistRecords(h: History, context: RunContext, orders: seq<OrderRecord>, fillRecords: seq<FillRecord>,
                                positions: seq<BrokerPosition>, pnlAccount: Option<BrokerAccount>, now: Time): History
  {
    var fills := ApplyFills(h.fills, fillRecords);
    var (trades, written) := SyncTrades(h.trades, fills, positions, context, now);
    h.(orders := ApplyOrders(h.orders, orders),
       fills := fills,
       trades := trades,
       orderRecords := h.orderRecords + |orders|,
       fillRecords := h.fillRecords + |fillRecords|,
       positionRecords := h.positionRecords + |positions|,
       tradeRecords := h.tradeRecords + written,
       pnlSnapshots := match pnlAccount
                       case Some(account) => h.pnlSnapshots + [PnlOf(account, fills, trades, now)]
                       case None => h.pnlSnapshots)
  }

  ghost function Persist(s: RecorderState, d: Diff, now: Time): History {
    PersistRecords(s.history, s.context, d.workingRecords + d.finalRecords, d.fillRecords, d.processed, d.pnlAccount,
                   now)
  }

  function Restrict<V>(m: map<string, V>, keys: set<string>): map<string, V> {
    map k | k in m && k in keys :: m[k]
  }

  /** A sync: the state afterwards and whether anything changed. */
  ghost function Sync(s: RecorderState, snap: BrokerSnapshot, now: Time): (RecorderState, bool) {
    var d := DiffOf(s, snap, now);
    (s.(lastOrders := Restrict(d.lastOrders, OrderIds(snap.orders)),
        seenFills := d.seenFills,
        lastPositions := Restrict(d.lastPositions, PositionKeys(snap.positions)),
        lastAccount := if d.pnlAccount.Some? then d.pnlAccount else s.lastAccount,
        history := Persist(s, d, now)),
     d.Changed())
  }

  // ----- runs

  /** What can happen to a recorder: a sync, order records written on submission, a change of the current run. */
  datatype RecorderOp =
    | SyncOp(snapshot: BrokerSnapshot, now: Time)
    | SubmissionOp(records: seq<OrderRecord>)
    | RunOp(context: RunContext)

  ghost function RecorderStep(s: RecorderState, op: RecorderOp): RecorderState {
    match op
    case SyncOp(snapshot, now) => Sync(s, snapshot, now).0
    case SubmissionOp(records) =>
      s.(history := s.history.(orders := ApplyOrders(s.history.orders, records),
                               orderRecords := s.history.orderRecords + |records|))
    case RunOp(context) => s.(context := context)
  }

  ghost function RecorderRun(ops: seq<RecorderOp>): RecorderState {
    if ops == [] then FreshRecorder()
    else RecorderStep(RecorderRun(ops[..|ops| - 1]), ops[|ops| - 1])
  }
}
