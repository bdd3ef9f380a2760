// Order records: what is known about an order is never forgotten by a sync.
module OrderLaws {
  import opened Prelude
  import opened MarketTypes
  import opened BrokerTypes
  import opened TradingHistory
  import opened SyncSpec
  import opened FillLaws

  ghost predicate StaysKnown<T(!new)>(before: Option<T>, after: Option<T>) {
    before.Some? ==> after.Some?
  }

  /** A later record of the same order: its origin is fixed, and everything known stays known. */
  ghost predicate Continues(before: OrderRecord, after: OrderRecord) {
    && after.orderId == before.orderId && after.submittedAt == before.submittedAt && after.provider == before.provider
    && (before.context.strategyId.Some? ==> after.context.strategyId == before.context.strategyId)
    && (before.context.runId.Some? ==> after.context.runId == before.context.runId)
    && StaysKnown(before.accountId, after.accountId) && StaysKnown(before.orderType, after.orderType)
    && StaysKnown(before.averageFillPrice, after.averageFillPrice)
  }

  ghost predicate AllContinue(orders: map<string, OrderRecord>, records: seq<OrderRecord>) {
    forall i :: 0 <= i < |records| && records[i].orderId in orders ==> Continues(orders[records[i].orderId], records[i])
  }

  lemma MergeContinues(orders: map<string, OrderRecord>, order: BrokerOrder, context: RunContext,
                       account: Option<string>)
    requires IsKeyed(orders)
    ensures var record := MergeOrder(orders, order, context, account);
      && (record.Some? <==> order.orderId in orders || (order.side.Some? && order.quantity.Some?))
      && (record.Some? ==>
            && record.value.orderId == order.orderId && record.value.status == order.status
            && record.value.filledQuantity == order.filledQuantity && record.value.updatedAt == order.updatedAt
            && (order.side.Some? ==> record.value.side == order.side.value)
            && (order.quantity.Some? ==> record.value.quantity == order.quantity.value)
            && (order.orderId in orders ==> Continues(orders[order.orderId], record.value)))
  {
  }

  lemma {:induction false} PassContinues(
    orders: map<string, OrderRecord>, context: RunContext, account: Option<string>, last: OrderMap,
    working: seq<BrokerOrder>)
    requires IsKeyed(orders)
    ensures AllContinue(orders, OrderPass(orders, context, account, last, working).1)
  {
    hide MergeOrder, Continues;
    if working != [] {
      PassContinues(orders, context, account, last, working[..|working| - 1]);
      MergeContinues(orders, working[|working| - 1], context, account);
    }
  }

  lemma {:induction false} FinalContinue(
    history: History, added: map<string, nat>, last: OrderMap, removed: seq<string>, now: Time)
    requires IsKeyed(history.orders)
    ensures AllContinue(history.orders, FinalRecords(history, added, last, removed, now))
  {
    hide TotalFilled;
    if removed != [] {
      FinalContinue(history, added, last, removed[..|removed| - 1], now);
    }
  }

  lemma ContinuesItself(orders: map<string, OrderRecord>, id: string)
    requires id in orders
    ensures Continues(orders[id], orders[id])
  {
  }

  /** Applying continuing records continues every order. */
  lemma {:induction false} ApplyContinues(orders: map<string, OrderRecord>, records: seq<OrderRecord>, id: string)
    requires AllContinue(orders, records) && id in orders
    ensures id in ApplyOrders(orders, records) && Continues(orders[id], ApplyOrders(orders, records)[id])
  {
    hide Continues;
    ContinuesItself(orders, id);
    if records != [] {
      ApplyContinues(orders, records[..|records| - 1], id);
    }
  }

  /**
   * A sync forgets nothing about an order. In any state a run reaches, each recorded order is still recorded after
   * the next sync, with the same origin and with everything that was known about it still known.
   */
  lemma SyncContinuesOrders(ops: seq<RecorderOp>, snap: BrokerSnapshot, now: Time, id: string)
    requires id in RecorderRun(ops).history.orders
    ensures var after := Sync(RecorderRun(ops), snap, now).0.history.orders;
      id in after && Continues(RecorderRun(ops).history.orders[id], after[id])
  {
    hide Continues, OrderPass, FillPass, FinalRecords, ApplyOrders, IsKeyed, Sync;
    var s := RecorderRun(ops);
    RunKeepsOrdersKeyed(ops);
    hide RecorderRun;
    var account := snap.DefaultAccount();
    var (orders, working) := OrderPass(s.history.orders, s.context, account, s.lastOrders, snap.orders);
    var added := FillPass(s.seenFills, s.context, account, snap.fills).2;
    var removed := InOrder(orders.Keys - OrderIds(snap.orders));
    PassContinues(s.history.orders, s.context, account, s.lastOrders, snap.orders);
    FinalContinue(s.history, added, orders, removed, now);
    ApplyContinues(s.history.orders, working + FinalRecords(s.history, added, orders, removed, now), id);
    SyncOrders(s, snap, now);
  }
}
