// Fills are accounted for exactly once, and an order that leaves the working set gets all of them.
module FillLaws {
  import opened Prelude
  import opened MarketTypes
  import opened BrokerTypes
  import opened TradingHistory
  import opened SyncSpec

  // ----- the reference: every fill id counts once, as first reported

  /** All fills reported over a run, repeats included. */
  function Reported(ops: seq<RecorderOp>): seq<BrokerFill> {
    if ops == [] then []
    else
      var n := |ops| - 1;
      Reported(ops[..n]) + (if ops[n].SyncOp? then ops[n].snapshot.fills else [])
  }

  function FirstReports(reported: seq<BrokerFill>): map<string, BrokerFill> {
    if reported == [] then map[]
    else
      var n := |reported| - 1;
      var before := FirstReports(reported[..n]);
      if reported[n].fillId in before then before else before[reported[n].fillId := reported[n]]
  }

  lemma {:induction false} FirstReportsKeyed(reported: seq<BrokerFill>, id: string)
    ensures id in FirstReports(reported) ==> FirstReports(reported)[id].fillId == id
  {
    if reported != [] {
      FirstReportsKeyed(reported[..|reported| - 1], id);
    }
  }

  /** The entry for an id is its first report: no earlier one has that id. */
  lemma {:induction false} FirstReportsAreFirst(reported: seq<BrokerFill>, id: string)
    ensures id in FirstReports(reported) <==> exists i :: 0 <= i < |reported| && reported[i].fillId == id
    ensures id in FirstReports(reported) ==>
      exists i :: 0 <= i < |reported| && reported[i] == FirstReports(reported)[id]
        && forall j :: 0 <= j < i ==> reported[j].fillId != id
  {
    if reported != [] {
      var n := |reported| - 1;
      FirstReportsAreFirst(reported[..n], id);
      if id in FirstReports(reported[..n]) {
        var i :| 0 <= i < n && reported[..n][i] == FirstReports(reported[..n])[id]
          && forall j :: 0 <= j < i ==> reported[..n][j].fillId != id;
        FirstReportsKeyed(reported, id);
        assert reported[i] == FirstReports(reported)[id];
        assert forall j :: 0 <= j < i ==> reported[j] == reported[..n][j];
      } else {
        assert forall j :: 0 <= j < n ==> reported[j] == reported[..n][j];
        assert reported[n].fillId == id ==> id in FirstReports(reported);
      }
    }
  }

  ghost function ReportedQuantityOf(first: map<string, BrokerFill>, orderId: string): string -> int {
    id => if id in first && first[id].orderId == Some(orderId) then first[id].quantity else 0
  }

  /** The sum of all distinct fills ever reported for an order. */
  ghost function ReportedQuantity(reported: seq<BrokerFill>, orderId: string): int {
    SumOn(FirstReports(reported).Keys, ReportedQuantityOf(FirstReports(reported), orderId))
  }

  // ----- recorded fills are the first reports

  /** A fill record says what the broker's report said. */
  predicate Records(record: FillRecord, fill: BrokerFill) {
    && record.fillId == fill.fillId && record.orderId == fill.orderId && record.symbol == fill.symbol
    && record.side == fill.side && record.quantity == fill.quantity && record.price == fill.price
    && record.fee == fill.fee.GetOr(0) && record.commission == fill.commission.GetOr(0)
    && record.occurredAt == fill.occurredAt
  }

  ghost predicate FillsMatch(fills: Fills, first: map<string, BrokerFill>) {
    fills.Keys == first.Keys && forall id :: id in fills ==> Records(fills[id], first[id])
  }

  ghost predicate FillInv(s: RecorderState, reported: seq<BrokerFill>) {
    && s.seenFills == s.history.fills.Keys
    && FillsMatch(s.history.fills, FirstReports(reported))
    && s.history.fillRecords == |s.history.fills|
  }

  lemma {:induction false} ApplyFillsSnoc(fills: Fills, records: seq<FillRecord>, record: FillRecord)
    ensures ApplyFills(fills, records + [record]) == ApplyFills(fills, records)[record.fillId := record]
  {
    assert (records + [record])[..|records|] == records;
  }

  lemma FirstReportsSnoc(reported: seq<BrokerFill>, fill: BrokerFill)
    ensures FirstReports(reported + [fill])
         == if fill.fillId in FirstReports(reported) then FirstReports(reported)
            else FirstReports(reported)[fill.fillId := fill]
  {
    assert (reported + [fill])[..|reported|] == reported;
  }

  lemma MatchMore(fills: Fills, first: map<string, BrokerFill>, record: FillRecord, fill: BrokerFill)
    requires FillsMatch(fills, first) && Records(record, fill)
    ensures fills.Keys == first.Keys
    ensures FillsMatch(fills[record.fillId := record], first[fill.fillId := fill])
  {
  }

  /** One pass over reported fills extends the recorded fills as the reference extends its first reports. */
  lemma {:induction false} FillPassExtends(
    s: RecorderState, reported: seq<BrokerFill>, account: Option<string>, fills: seq<BrokerFill>)
    requires FillInv(s, reported)
    ensures var (seen, records, added) := FillPass(s.seenFills, s.context, account, fills);
      var after := ApplyFills(s.history.fills, records);
      && seen == after.Keys
      && FillsMatch(after, FirstReports(reported + fills))
      && |after| == |s.history.fills| + |records|
  {
    hide Records, AddQuantity, FillRecordOf, FillsMatch, ApplyFills, FirstReports;
    if fills == [] {
      assert reported + fills == reported;
      NoFillsApplied(s.history.fills);
    } else {
      var n := |fills| - 1;
      var fill := fills[n];
      FillPassExtends(s, reported, account, fills[..n]);
      var (before, records, _) := FillPass(s.seenFills, s.context, account, fills[..n]);
      var known, first := ApplyFills(s.history.fills, records), FirstReports(reported + fills[..n]);
      assert reported + fills == (reported + fills[..n]) + [fill];
      FirstReportsSnoc(reported + fills[..n], fill);
      var record := FillRecordOf(fill, s.context, account);
      RecordRecords(fill, s.context, account);
      MatchMore(known, first, record, fill);
      ApplyFillsSnoc(s.history.fills, records, record);
    }
  }

  lemma NoFillsApplied(fills: Fills)
    ensures ApplyFills(fills, []) == fills
  {
  }

  lemma RecordRecords(fill: BrokerFill, context: RunContext, account: Option<string>)
    ensures Records(FillRecordOf(fill, context, account), fill)
    ensures FillRecordOf(fill, context, account).fillId == fill.fillId
    ensures FillRecordOf(fill, context, account).orderId == fill.orderId
    ensures FillRecordOf(fill, context, account).quantity == fill.quantity
  {
  }

  lemma SyncFills(s: RecorderState, snap: BrokerSnapshot, now: Time)
    ensures var after := Sync(s, snap, now).0;
      var (seen, records, added) := FillPass(s.seenFills, s.context, snap.DefaultAccount(), snap.fills);
      && after.seenFills == seen && after.history.fills == ApplyFills(s.history.fills, records)
      && after.history.fillRecords == s.history.fillRecords + |records|
  {
    hide OrderPass, FillPass, PositionPass, FinalRecords, InOrder, SyncTrades, PnlOf;
    hide FlattenAll, Restrict, ApplyFills, ApplyOrders;
  }

  lemma {:induction false} RunKeepsFills(ops: seq<RecorderOp>)
    ensures FillInv(RecorderRun(ops), Reported(ops))
  {
    hide Sync, FillsMatch, ApplyOrders;
    if ops == [] {
      EmptyFillsMatch();
    } else {
      var n := |ops| - 1;
      RunKeepsFills(ops[..n]);
      var s := RecorderRun(ops[..n]);
      match ops[n]
      case SyncOp(snap, now) =>
        FillPassExtends(s, Reported(ops[..n]), snap.DefaultAccount(), snap.fills);
        SyncFills(s, snap, now);
      case SubmissionOp(records) =>
        assert Reported(ops[..n]) + [] == Reported(ops[..n]);
      case RunOp(context) =>
        assert Reported(ops[..n]) + [] == Reported(ops[..n]);
    }
  }

  lemma EmptyFillsMatch()
    ensures FillsMatch(map[], FirstReports([]))
  {
  }

  /**
   * Exactly once: over any run that repeats fills, the recorded fills are the first report of every id,
   * and exactly one record was appended for each.
   */
  lemma FillsRecordedExactlyOnce(ops: seq<RecorderOp>)
    ensures var h := RecorderRun(ops).history;
      && h.fills.Keys == FirstReports(Reported(ops)).Keys
      && (forall id :: id in h.fills ==> Records(h.fills[id], FirstReports(Reported(ops))[id]))
      && h.fillRecords == |h.fills|
  {
    hide Records;
    RunKeepsFills(ops);
  }

  // ----- orders that leave

  /** The ids a sync sees for the first time. */
  function NewIds(seen: set<string>, reported: seq<BrokerFill>): set<string> {
    set i | 0 <= i < |reported| && reported[i].fillId !in seen :: reported[i].fillId
  }

  /** What was already recorded for an order under ids the recorder takes for new: nothing, unless it forgot some. */
  ghost function Repeated(fills: Fills, seen: set<string>, reported: seq<BrokerFill>, orderId: string): nat {
    var ids := NewIds(seen, reported) * fills.Keys;
    SumOnNonNegative(ids, QuantityOf(fills, orderId));
    SumOn(ids, QuantityOf(fills, orderId))
  }

  lemma NewIdsGrow(seen: set<string>, reported: seq<BrokerFill>, fill: BrokerFill)
    ensures NewIds(seen, reported + [fill])
         == NewIds(seen, reported) + if fill.fillId in seen then {} else {fill.fillId}
  {
    var more := reported + [fill];
    assert more[|reported|] == fill;
    assert forall i :: 0 <= i < |reported| ==> more[i] == reported[i];
    if fill.fillId !in seen {
      assert more[|reported|].fillId in NewIds(seen, more);
    }
    forall id | id in NewIds(seen, reported) ensures id in NewIds(seen, more) {
      var i :| 0 <= i < |reported| && reported[i].fillId !in seen && reported[i].fillId == id;
      assert more[i].fillId == id;
    }
  }

  lemma RepeatedGrows(fills: Fills, seen: set<string>, reported: seq<BrokerFill>, fill: BrokerFill, orderId: string)
    ensures Repeated(fills, seen, reported + [fill], orderId) == Repeated(fills, seen, reported, orderId)
      + if fill.fillId in seen + NewIds(seen, reported) then 0 else QuantityOf(fills, orderId)(fill.fillId)
    ensures Repeated(fills, seen, [], orderId) == 0
  {
    hide NewIds;
    NewIdsGrow(seen, reported, fill);
    NoNewIds(seen);
    var before, after := NewIds(seen, reported) * fills.Keys, NewIds(seen, reported + [fill]) * fills.Keys;
    if fill.fillId in seen + NewIds(seen, reported) {
      assert after == before;
    } else if fill.fillId in fills {
      assert after - {fill.fillId} == before;
      SumOnRemove(after, QuantityOf(fills, orderId), fill.fillId);
    } else {
      assert after == before;
    }
  }

  lemma NoNewIds(seen: set<string>)
    ensures NewIds(seen, []) == {}
  {
  }

  /**
   * What one sync counts for an order: the recorded total before and the new quantities together are the recorded
   * total afterwards plus whatever was recorded already under ids taken for new.
   */
  lemma {:induction false} CountedQuantities(
    fills: Fills, seen: set<string>, context: RunContext, account: Option<string>, reported: seq<BrokerFill>,
    orderId: string)
    ensures var (seen', records, added) := FillPass(seen, context, account, reported);
      var after := ApplyFills(fills, records);
      && seen' == seen + NewIds(seen, reported) && after.Keys == fills.Keys + NewIds(seen, reported)
      && (forall id :: id in fills && id !in NewIds(seen, reported) ==> after[id] == fills[id])
      && TotalFilled(fills, orderId) + Get(added, orderId).GetOr(0)
           == TotalFilled(after, orderId) + Repeated(fills, seen, reported, orderId)
  {
    hide TotalFilled, FillRecordOf, AddQuantity, ApplyFills, Repeated, NewIds;
    if reported == [] {
      NothingApplied(fills);
      NoNewIds(seen);
      RepeatedGrows(fills, seen, [], BrokerFill("", None, None, "", Buy, 0, 0, None, None, 0), orderId);
    } else {
      var n := |reported| - 1;
      var fill, prefix := reported[n], reported[..n];
      assert reported == prefix + [fill];
      CountedQuantities(fills, seen, context, account, prefix, orderId);
      NewIdsGrow(seen, prefix, fill);
      RepeatedGrows(fills, seen, prefix, fill, orderId);
      var (before, records, added) := FillPass(seen, context, account, prefix);
      if fill.fillId !in before {
        var record, known := FillRecordOf(fill, context, account), ApplyFills(fills, records);
        RecordNamesItsFill(fill, context, account);
        ApplyFillsSnoc(fills, records, record);
        TotalFilledPut(known, record, orderId);
        AddedToItsOrder(added, fill, orderId);
        assert fill.fillId in known <==> fill.fillId in fills;
        assert fill.fillId in fills ==> known[fill.fillId] == fills[fill.fillId];
      }
    }
  }

  /** A recorder that remembers exactly the recorded fills counts each of them once. */
  lemma AddedQuantities(
    fills: Fills, seen: set<string>, context: RunContext, account: Option<string>, reported: seq<BrokerFill>,
    orderId: string)
    requires seen == fills.Keys
    ensures var (seen', records, added) := FillPass(seen, context, account, reported);
      && seen' == ApplyFills(fills, records).Keys
      && TotalFilled(ApplyFills(fills, records), orderId) == TotalFilled(fills, orderId) + Get(added, orderId).GetOr(0)
  {
    hide TotalFilled, FillPass, ApplyFills, SumOn;
    CountedQuantities(fills, seen, context, account, reported, orderId);
    assert NewIds(seen, reported) * fills.Keys == {};
    SumOfNothing(QuantityOf(fills, orderId));
  }

  lemma SumOfNothing(w: string -> int)
    ensures SumOn({}, w) == 0
  {
  }

  lemma NothingApplied(fills: Fills)
    ensures ApplyFills(fills, []) == fills
  {
  }

  lemma RecordNamesItsFill(fill: BrokerFill, context: RunContext, account: Option<string>)
    ensures var record := FillRecordOf(fill, context, account);
      record.fillId == fill.fillId && record.orderId == fill.orderId && record.quantity == fill.quantity
  {
  }

  lemma AddedToItsOrder(added: map<string, nat>, fill: BrokerFill, orderId: string)
    ensures Get(AddQuantity(added, fill.orderId, fill.quantity), orderId).GetOr(0)
         == Get(added, orderId).GetOr(0) + if fill.orderId == Some(orderId) then fill.quantity else 0
  {
  }

  /** Recording a fill replaces what its id contributed to the order's total. */
  lemma TotalFilledPut(fills: Fills, record: FillRecord, orderId: string)
    ensures TotalFilled(fills[record.fillId := record], orderId) + QuantityOf(fills, orderId)(record.fillId)
         == TotalFilled(fills, orderId) + if record.orderId == Some(orderId) then record.quantity else 0
  {
    hide SumOn;
    var id := record.fillId;
    var after := fills[id := record];
    SumOnRemove(after.Keys, QuantityOf(after, orderId), id);
    assert after.Keys - {id} == fills.Keys - {id};
    SumOnSame(fills.Keys - {id}, QuantityOf(after, orderId), QuantityOf(fills, orderId));
    if id in fills {
      SumOnRemove(fills.Keys, QuantityOf(fills, orderId), id);
    } else {
      assert fills.Keys - {id} == fills.Keys;
    }
  }

  lemma TotalFilledIsReported(fills: Fills, reported: seq<BrokerFill>, orderId: string)
    requires FillsMatch(fills, FirstReports(reported))
    ensures TotalFilled(fills, orderId) == ReportedQuantity(reported, orderId)
  {
    hide SumOn;
    SumOnSame(fills.Keys, QuantityOf(fills, orderId), ReportedQuantityOf(FirstReports(reported), orderId));
  }

  lemma {:induction false} ApplyOrdersConcat(orders: map<string, OrderRecord>, a: seq<OrderRecord>, b: seq<OrderRecord>)
    ensures ApplyOrders(orders, a + b) == ApplyOrders(ApplyOrders(orders, a), b)
  {
    if b == [] {
      assert a + b == a;
    } else {
      ApplyOrdersConcat(orders, a, b[..|b| - 1]);
      assert (a + b)[..|a + b| - 1] == a + b[..|b| - 1];
    }
  }

  lemma ApplyOrdersSnoc(orders: map<string, OrderRecord>, records: seq<OrderRecord>, record: OrderRecord)
    ensures ApplyOrders(orders, records + [record]) == ApplyOrders(orders, records)[record.orderId := record]
    ensures ApplyOrders(orders, []) == orders
  {
    assert (records + [record])[..|records|] == records;
  }

  lemma FinalRecordKeepsId(history: History, added: map<string, nat>, last: BrokerOrder, id: string, now: Time)
    requires id in history.orders
    ensures FinalRecord(history, added, last, id, now).orderId == history.orders[id].orderId
  {
    hide TotalFilled;
  }

  /** The final records end up in the projection, one per removed order that is known. */
  lemma {:induction false} FinalRecordApplied(
    orders: map<string, OrderRecord>, history: History, added: map<string, nat>, last: OrderMap,
    removed: seq<string>, now: Time, id: string)
    requires forall i, j :: 0 <= i < j < |removed| ==> removed[i] != removed[j]
    requires IsKeyed(history.orders)
    ensures id in removed && id in last && id in history.orders ==>
      var after := ApplyOrders(orders, FinalRecords(history, added, last, removed, now));
      id in after && after[id] == FinalRecord(history, added, last[id], id, now)
    ensures id !in removed ==>
      Get(ApplyOrders(orders, FinalRecords(history, added, last, removed, now)), id) == Get(orders, id)
  {
    hide FinalRecord, ApplyOrders;
    if removed == [] {
      ApplyOrdersNone(orders);
    } else {
      var n := |removed| - 1;
      FinalRecordApplied(orders, history, added, last, removed[..n], now, id);
      assert removed == removed[..n] + [removed[n]];
      var before := FinalRecords(history, added, last, removed[..n], now);
      if removed[n] in last && removed[n] in history.orders {
        var record := FinalRecord(history, added, last[removed[n]], removed[n], now);
        FinalRecordKeepsId(history, added, last[removed[n]], removed[n], now);
        ApplyOrdersSnoc(orders, before, record);
      }
    }
  }

  lemma ApplyOrdersNone(orders: map<string, OrderRecord>)
    ensures ApplyOrders(orders, []) == orders
  {
  }

  /** Order records are filed under their own id. */
  ghost predicate IsKeyed(orders: map<string, OrderRecord>) {
    forall id :: id in orders ==> orders[id].orderId == id
  }

  lemma PutKeyed(orders: map<string, OrderRecord>, record: OrderRecord)
    requires IsKeyed(orders)
    ensures IsKeyed(orders[record.orderId := record])
  {
  }

  lemma {:induction false} ApplyOrdersKeyed(orders: map<string, OrderRecord>, records: seq<OrderRecord>)
    requires IsKeyed(orders)
    ensures IsKeyed(ApplyOrders(orders, records))
  {
    hide IsKeyed;
    if records != [] {
      var n := |records| - 1;
      ApplyOrdersKeyed(orders, records[..n]);
      PutKeyed(ApplyOrders(orders, records[..n]), records[n]);
    }
  }

  lemma SyncOrders(s: RecorderState, snap: BrokerSnapshot, now: Time)
    ensures var account := snap.DefaultAccount();
      var (orders, working) := OrderPass(s.history.orders, s.context, account, s.lastOrders, snap.orders);
      var added := FillPass(s.seenFills, s.context, account, snap.fills).2;
      var removed := InOrder(orders.Keys - OrderIds(snap.orders));
      Sync(s, snap, now).0.history.orders
        == ApplyOrders(s.history.orders, working + FinalRecords(s.history, added, orders, removed, now))
  {
    hide OrderPass, FillPass, PositionPass, FinalRecords, InOrder, SyncTrades, PnlOf;
    hide FlattenAll, Restrict, ApplyFills, ApplyOrders;
  }

  lemma {:induction false} RunKeepsOrdersKeyed(ops: seq<RecorderOp>)
    ensures IsKeyed(RecorderRun(ops).history.orders)
  {
    hide Sync, ApplyOrders, FinalRecords, OrderPass, IsKeyed;
    if ops == [] {
      NoOrdersKeyed();
    } else {
      var n := |ops| - 1;
      RunKeepsOrdersKeyed(ops[..n]);
      var s := RecorderRun(ops[..n]);
      match ops[n]
      case SyncOp(snap, now) =>
        SyncOrders(s, snap, now);
        var account := snap.DefaultAccount();
        var (orders, working) := OrderPass(s.history.orders, s.context, account, s.lastOrders, snap.orders);
        var added := FillPass(s.seenFills, s.context, account, snap.fills).2;
        var removed := InOrder(orders.Keys - OrderIds(snap.orders));
        ApplyOrdersKeyed(s.history.orders, working + FinalRecords(s.history, added, orders, removed, now));
      case SubmissionOp(records) => ApplyOrdersKeyed(s.history.orders, records);
      case RunOp(_) =>
    }
  }

  lemma NoOrdersKeyed()
    ensures IsKeyed(map[])
  {
  }

  lemma MergeOrderKeepsId(orders: map<string, OrderRecord>, order: BrokerOrder, context: RunContext,
                          account: Option<string>)
    ensures MergeOrder(orders, order, context, account).Some?
        ==> MergeOrder(orders, order, context, account).value.orderId == order.orderId
  {
  }

  lemma NotInPrefix(working: seq<BrokerOrder>, id: string)
    requires working != [] && id !in OrderIds(working)
    ensures id !in OrderIds(working[..|working| - 1]) && working[|working| - 1].orderId != id
  {
    var n := |working| - 1;
    assert working[n].orderId in OrderIds(working);
    forall i | 0 <= i < n ensures working[..n][i].orderId != id {
      assert working[i].orderId in OrderIds(working);
    }
  }

  lemma {:induction false} OrderPassKeeps(
    orders: map<string, OrderRecord>, context: RunContext, account: Option<string>, last: OrderMap,
    working: seq<BrokerOrder>, id: string)
    requires id !in OrderIds(working)
    ensures var (after, records) := OrderPass(orders, context, account, last, working);
      && Get(after, id) == Get(last, id)
      && Get(ApplyOrders(orders, records), id) == Get(orders, id)
  {
    hide MergeOrder, ApplyOrders, OrderIds;
    ApplyOrdersNone(orders);
    if working != [] {
      var n := |working| - 1;
      NotInPrefix(working, id);
      OrderPassKeeps(orders, context, account, last, working[..n], id);
      var records := OrderPass(orders, context, account, last, working[..n]).1;
      MergeOrderKeepsId(orders, working[n], context, account);
      var merged := MergeOrder(orders, working[n], context, account);
      if merged.Some? {
        ApplyOrdersSnoc(orders, records, merged.value);
      }
    }
  }

  /** The final record of an order that leaves, in any state: what was recorded for it and what this sync adds. */
  lemma LeavingOrderRecord(s: RecorderState, snap: BrokerSnapshot, now: Time, id: string)
    requires IsKeyed(s.history.orders)
    requires id in s.lastOrders && id in s.history.orders && id !in OrderIds(snap.orders)
    ensures var after := Sync(s, snap, now).0;
      var added := FillPass(s.seenFills, s.context, snap.DefaultAccount(), snap.fills).2;
      && id !in after.lastOrders && id in after.history.orders
      && var record := after.history.orders[id];
         && record.filledQuantity == TotalFilled(s.history.fills, id) + Get(added, id).GetOr(0)
         && record.quantity == s.history.orders[id].quantity
         && record.status == (if record.filledQuantity >= record.quantity then FilledOrder else CancelledOrder)
  {
    hide Sync, ApplyOrders, FinalRecords, OrderPass, FillPass, TotalFilled;
    hide IsKeyed, InOrder, OrderIds, BrokerSnapshot.DefaultAccount;
    var account := snap.DefaultAccount();
    var (orders, working) := OrderPass(s.history.orders, s.context, account, s.lastOrders, snap.orders);
    var added := FillPass(s.seenFills, s.context, account, snap.fills).2;
    var removed := InOrder(orders.Keys - OrderIds(snap.orders));
    SyncOrders(s, snap, now);
    OrderPassKeeps(s.history.orders, s.context, account, s.lastOrders, snap.orders, id);
    ApplyOrdersConcat(s.history.orders, working, FinalRecords(s.history, added, orders, removed, now));
    FinalRecordApplied(ApplyOrders(s.history.orders, working), s.history, added, orders, removed, now, id);
    LeavesLastOrders(s, snap, now, id);
  }

  /**
   * An order that leaves the working set in the last sync of any run is final: its filled quantity is the
   * sum of all distinct fills ever reported for it, this sync's included, and it is Filled exactly when
   * that sum reaches its quantity, Cancelled otherwise.
   */
  lemma LeavingOrderGetsAllItsFills(ops: seq<RecorderOp>, id: string)
    requires ops != [] && ops[|ops| - 1].SyncOp?
    requires var s := RecorderRun(ops[..|ops| - 1]);
      id in s.lastOrders && id in s.history.orders && id !in OrderIds(ops[|ops| - 1].snapshot.orders)
    ensures var before := RecorderRun(ops[..|ops| - 1]).history.orders[id];
      var after := RecorderRun(ops);
      && id !in after.lastOrders && id in after.history.orders
      && var record := after.history.orders[id];
         && record.filledQuantity == ReportedQuantity(Reported(ops), id)
         && record.quantity == before.quantity
         && (record.status == FilledOrder <==> record.filledQuantity >= record.quantity)
         && (record.status == CancelledOrder <==> record.filledQuantity < record.quantity)
  {
    hide Sync, FillPass, TotalFilled, FirstReports, ReportedQuantity, Reported;
    hide ApplyFills, FillsMatch, IsKeyed, OrderIds;
    var n := |ops| - 1;
    var s, snap, now := RecorderRun(ops[..n]), ops[n].snapshot, ops[n].now;
    RunKeepsFills(ops[..n]);
    RunKeepsFills(ops);
    RunKeepsOrdersKeyed(ops[..n]);
    SyncFills(s, snap, now);
    AddedQuantities(s.history.fills, s.seenFills, s.context, snap.DefaultAccount(), snap.fills, id);
    TotalFilledIsReported(RecorderRun(ops).history.fills, Reported(ops), id);
    LeavingOrderRecord(s, snap, now, id);
  }

  lemma LeavesLastOrders(s: RecorderState, snap: BrokerSnapshot, now: Time, id: string)
    requires id !in OrderIds(snap.orders)
    ensures id !in Sync(s, snap, now).0.lastOrders
  {
    hide OrderPass, FillPass, PositionPass, FinalRecords, InOrder, Persist, FlattenAll, OrderIds;
  }

  // ----- fills reported after an order has left

  /** No later sync lists the order and no later submission writes it. */
  ghost predicate LeftAlone(ops: seq<RecorderOp>, id: string) {
    forall op :: op in ops ==>
      match op
      case SyncOp(snap, _) => id !in OrderIds(snap.orders)
      case SubmissionOp(records) => forall r :: r in records ==> r.orderId != id
      case RunOp(_) => true
  }

  lemma {:induction false} OtherRecordsApplied(orders: map<string, OrderRecord>, records: seq<OrderRecord>, id: string)
    requires forall r :: r in records ==> r.orderId != id
    ensures Get(ApplyOrders(orders, records), id) == Get(orders, id)
  {
    if records != [] {
      var n := |records| - 1;
      assert records[n] in records && forall r :: r in records[..n] ==> r in records;
      OtherRecordsApplied(orders, records[..n], id);
    }
  }

  lemma UnlistedOrderStays(s: RecorderState, snap: BrokerSnapshot, now: Time, id: string)
    requires IsKeyed(s.history.orders) && id !in s.lastOrders && id !in OrderIds(snap.orders)
    ensures var after := Sync(s, snap, now).0;
      id !in after.lastOrders && Get(after.history.orders, id) == Get(s.history.orders, id)
  {
    hide Sync, ApplyOrders, FinalRecords, OrderPass, FillPass, IsKeyed;
    hide OrderIds, BrokerSnapshot.DefaultAccount, InOrder;
    var account := snap.DefaultAccount();
    var (orders, working) := OrderPass(s.history.orders, s.context, account, s.lastOrders, snap.orders);
    var added := FillPass(s.seenFills, s.context, account, snap.fills).2;
    var removed := InOrder(orders.Keys - OrderIds(snap.orders));
    SyncOrders(s, snap, now);
    OrderPassKeeps(s.history.orders, s.context, account, s.lastOrders, snap.orders, id);
    ApplyOrdersConcat(s.history.orders, working, FinalRecords(s.history, added, orders, removed, now));
    FinalRecordApplied(ApplyOrders(s.history.orders, working), s.history, added, orders, removed, now, id);
    LeavesLastOrders(s, snap, now, id);
  }

  /** Nothing that happens afterwards changes the record of an order that left. */
  lemma {:induction false} LeftOrderStays(ops: seq<RecorderOp>, later: seq<RecorderOp>, id: string)
    requires LeftAlone(later, id) && id !in RecorderRun(ops).lastOrders
    ensures id !in RecorderRun(ops + later).lastOrders
    ensures Get(RecorderRun(ops + later).history.orders, id) == Get(RecorderRun(ops).history.orders, id)
    decreases |later|
  {
    hide Sync, ApplyOrders, OrderIds, IsKeyed;
    if later == [] {
      assert ops + later == ops;
    } else {
      var n := |later| - 1;
      assert (ops + later)[..|ops + later| - 1] == ops + later[..n];
      assert later[n] in later && forall op :: op in later[..n] ==> op in later;
      LeftOrderStays(ops, later[..n], id);
      var s := RecorderRun(ops + later[..n]);
      match later[n]
      case SyncOp(snap, now) =>
        RunKeepsOrdersKeyed(ops + later[..n]);
        UnlistedOrderStays(s, snap, now, id);
      case SubmissionOp(records) => OtherRecordsApplied(s.history.orders, records, id);
      case RunOp(_) =>
    }
  }

  lemma {:induction false} ReportedConcat(ops: seq<RecorderOp>, later: seq<RecorderOp>)
    ensures Reported(ops + later) == Reported(ops) + Reported(later)
    decreases |later|
  {
    if later == [] {
      assert ops + later == ops;
    } else {
      ReportedConcat(ops, later[..|later| - 1]);
      assert (ops + later)[..|ops + later| - 1] == ops + later[..|later| - 1];
    }
  }

  lemma {:induction false} FirstReportsExtend(reported: seq<BrokerFill>, more: seq<BrokerFill>, f: string)
    requires f in FirstReports(reported)
    ensures f in FirstReports(reported + more) && FirstReports(reported + more)[f] == FirstReports(reported)[f]
  {
    if more == [] {
      assert reported + more == reported;
    } else {
      var n := |more| - 1;
      FirstReportsExtend(reported, more[..n], f);
      assert (reported + more)[..|reported + more| - 1] == reported + more[..n];
    }
  }

  /** A fill of the order that is first reported after the first part of a run, and is not empty. */
  ghost predicate LateFill(ops: seq<RecorderOp>, later: seq<RecorderOp>, id: string) {
    var before, after := FirstReports(Reported(ops)), FirstReports(Reported(ops + later));
    exists f :: f in after && f !in before && after[f].orderId == Some(id) && after[f].quantity > 0
  }

  /** Later reports add to an order's total exactly if one of them is a late fill of it. */
  lemma LateFillsAdd(ops: seq<RecorderOp>, later: seq<RecorderOp>, id: string)
    ensures ReportedQuantity(Reported(ops + later), id) == ReportedQuantity(Reported(ops), id)
       <==> !LateFill(ops, later, id)
    ensures ReportedQuantity(Reported(ops + later), id) >= ReportedQuantity(Reported(ops), id)
  {
    hide SumOn, FirstReports, Reported;
    ReportedConcat(ops, later);
    var before, after := FirstReports(Reported(ops)), FirstReports(Reported(ops + later));
    forall f | f in before ensures f in after && after[f] == before[f] {
      FirstReportsExtend(Reported(ops), Reported(later), f);
    }
    var late, w := after.Keys - before.Keys, ReportedQuantityOf(after, id);
    SumOnUnion(before.Keys, late, w);
    assert before.Keys + late == after.Keys;
    SumOnSame(before.Keys, w, ReportedQuantityOf(before, id));
    SumOnZero(late, w);
    SumOnNonNegative(late, w);
  }

  /**
   * The final record of an order at the end of any run that leaves it alone: it keeps the quantity and status it got
   * when it left, which agree with its recorded fills exactly if no fill of it was first reported afterwards.
   */
  lemma LateFillsAreNotCounted(ops: seq<RecorderOp>, later: seq<RecorderOp>, id: string)
    requires ops != [] && ops[|ops| - 1].SyncOp? && LeftAlone(later, id)
    requires var s := RecorderRun(ops[..|ops| - 1]);
      id in s.lastOrders && id in s.history.orders && id !in OrderIds(ops[|ops| - 1].snapshot.orders)
    ensures var h := RecorderRun(ops + later).history;
      && id in h.orders && h.orders[id].filledQuantity == ReportedQuantity(Reported(ops), id)
      && (h.orders[id].status == FilledOrder <==> h.orders[id].filledQuantity >= h.orders[id].quantity)
      && h.orders[id].filledQuantity <= TotalFilled(h.fills, id)
      && (h.orders[id].filledQuantity == TotalFilled(h.fills, id) <==> !LateFill(ops, later, id))
  {
    hide RecorderRun, Reported, ReportedQuantity, TotalFilled, LateFill, LeftAlone, OrderIds, FillsMatch;
    LeavingOrderGetsAllItsFills(ops, id);
    LeftOrderStays(ops, later, id);
    RunKeepsFills(ops + later);
    TotalFilledIsReported(RecorderRun(ops + later).history.fills, Reported(ops + later), id);
    LateFillsAdd(ops, later, id);
  }

  // ----- a recorder that forgot

  /** Some fill the recorder takes for new is recorded already, for this order and not empty. */
  ghost predicate ForgotAFill(s: RecorderState, reported: seq<BrokerFill>, id: string) {
    exists f :: f in NewIds(s.seenFills, reported) && f in s.history.fills
                && s.history.fills[f].orderId == Some(id) && s.history.fills[f].quantity > 0
  }

  lemma RepeatedIsForgotten(s: RecorderState, reported: seq<BrokerFill>, id: string)
    ensures Repeated(s.history.fills, s.seenFills, reported, id) == 0 <==> !ForgotAFill(s, reported, id)
  {
    hide NewIds;
    var ids, w := NewIds(s.seenFills, reported) * s.history.fills.Keys, QuantityOf(s.history.fills, id);
    SumOnZero(ids, w);
    if f :| f in ids && w(f) > 0 {
      assert ForgotAFill(s, reported, id);
    }
    if f :| f in NewIds(s.seenFills, reported) && f in s.history.fills
            && s.history.fills[f].orderId == Some(id) && s.history.fills[f].quantity > 0
    {
      assert f in ids && w(f) > 0;
    }
  }

  lemma {:induction false} SumOnZero(ids: set<string>, w: string -> int)
    requires forall f :: f in ids ==> w(f) >= 0
    ensures SumOn(ids, w) == 0 <==> forall f :: f in ids ==> w(f) == 0
  {
    if ids != {} {
      SumOnZero(ids - {Least(ids)}, w);
      SumOnNonNegative(ids - {Least(ids)}, w);
    }
  }

  /**
   * Fills of a leaving order for a recorder with any memory, such as one rebuilt from stored records. The final
   * quantity is the sum of the order's recorded fills, each fill once, exactly if no fill reported now is recorded
   * already without being remembered; otherwise it exceeds that sum by what those fills had contributed, and the
   * order counts as filled as soon as the inflated sum reaches its quantity.
   */
  lemma LeavingOrderOfAnyMemory(s: RecorderState, snap: BrokerSnapshot, now: Time, id: string)
    requires IsKeyed(s.history.orders)
    requires id in s.lastOrders && id in s.history.orders && id !in OrderIds(snap.orders)
    ensures var after := Sync(s, snap, now).0.history;
      && id in after.orders
      && var record := after.orders[id];
         && record.filledQuantity
            == TotalFilled(after.fills, id) + Repeated(s.history.fills, s.seenFills, snap.fills, id)
         && (record.filledQuantity == TotalFilled(after.fills, id) <==> !ForgotAFill(s, snap.fills, id))
         && (record.status == FilledOrder <==>
               TotalFilled(after.fills, id) + Repeated(s.history.fills, s.seenFills, snap.fills, id) >= record.quantity)
  {
    hide Sync, FillPass, TotalFilled, ApplyFills, IsKeyed, OrderIds, Repeated, NewIds, ForgotAFill;
    SyncFills(s, snap, now);
    CountedQuantities(s.history.fills, s.seenFills, s.context, snap.DefaultAccount(), snap.fills, id);
    LeavingOrderRecord(s, snap, now, id);
    RepeatedIsForgotten(s, snap.fills, id);
  }

  /** A recorder rebuilt from stored records: the history is there, what was seen of the broker is not. */
  function RebuiltRecorder(history: History, context: RunContext): RecorderState {
    FreshRecorder().(history := history, context := context)
  }

  lemma ApplyOrdersKnows(orders: map<string, OrderRecord>, records: seq<OrderRecord>, id: string)
    ensures id in orders ==> id in ApplyOrders(orders, records)
  {
    if records != [] {
      ApplyOrdersKnows(orders, records[..|records| - 1], id);
    }
  }

  /**
   * A restart does count fills twice: a known order still works at the first sync after it, and at the second it is
   * gone while a fill stored before the restart is reported again. The final quantity holds that fill twice.
   */
  lemma RestartCountsTwice(history: History, context: RunContext, order: BrokerOrder, first: BrokerSnapshot,
                           second: BrokerSnapshot, t: Time, u: Time, f: string)
    requires IsKeyed(history.orders) && order.orderId in history.orders
    requires first.orders == [order] && first.fills == [] && order.orderId !in OrderIds(second.orders)
    requires f in NewIds({}, second.fills) && f in history.fills
    requires history.fills[f].orderId == Some(order.orderId) && history.fills[f].quantity > 0
    ensures var after := Sync(Sync(RebuiltRecorder(history, context), first, t).0, second, u).0.history;
      && order.orderId in after.orders
      && after.orders[order.orderId].filledQuantity
         >= TotalFilled(after.fills, order.orderId) + history.fills[f].quantity
  {
    hide Sync, TotalFilled, IsKeyed, OrderIds, Repeated, NewIds, ApplyOrders, OrderPass, ForgotAFill;
    var s, id := RebuiltRecorder(history, context), order.orderId;
    var middle := Sync(s, first, t).0;
    AfterRestart(s, order, first, t);
    LeavingOrderOfAnyMemory(middle, second, u, id);
    OneRepeated(middle, second.fills, id, f);
  }

  lemma AfterRestart(s: RecorderState, order: BrokerOrder, first: BrokerSnapshot, t: Time)
    requires s.seenFills == {} && s.lastOrders == map[]
    requires IsKeyed(s.history.orders) && order.orderId in s.history.orders
    requires first.orders == [order] && first.fills == []
    ensures var middle := Sync(s, first, t).0;
      && middle.seenFills == {} && middle.history.fills == s.history.fills && order.orderId in middle.lastOrders
      && IsKeyed(middle.history.orders) && order.orderId in middle.history.orders
  {
    hide Sync, IsKeyed, ApplyOrders, OrderPass, FinalRecords, InOrder, OrderIds;
    SyncFills(s, first, t);
    NothingApplied(s.history.fills);
    SyncOrders(s, first, t);
    var account := first.DefaultAccount();
    var (orders, working) := OrderPass(s.history.orders, s.context, account, s.lastOrders, first.orders);
    var added := FillPass(s.seenFills, s.context, account, first.fills).2;
    var removed := InOrder(orders.Keys - OrderIds(first.orders));
    var records := working + FinalRecords(s.history, added, orders, removed, t);
    ApplyOrdersKeyed(s.history.orders, records);
    ApplyOrdersKnows(s.history.orders, records, order.orderId);
    RemembersTheOrder(s, order, first, t);
  }

  lemma RemembersTheOrder(s: RecorderState, order: BrokerOrder, first: BrokerSnapshot, t: Time)
    requires s.lastOrders == map[] && first.orders == [order]
    ensures order.orderId in Sync(s, first, t).0.lastOrders
  {
    hide FillPass, PositionPass, FinalRecords, InOrder, Persist, FlattenAll, MergeOrder;
    assert [order][..0] == [];
    assert first.orders[0].orderId in OrderIds(first.orders);
    var after := OrderPass(s.history.orders, s.context, first.DefaultAccount(), s.lastOrders, first.orders).0;
    assert order.orderId in after;
  }

  lemma OneRepeated(s: RecorderState, reported: seq<BrokerFill>, id: string, f: string)
    requires f in NewIds(s.seenFills, reported) && f in s.history.fills && s.history.fills[f].orderId == Some(id)
    ensures Repeated(s.history.fills, s.seenFills, reported, id) >= s.history.fills[f].quantity
  {
    hide SumOn, NewIds;
    var ids, w := NewIds(s.seenFills, reported) * s.history.fills.Keys, QuantityOf(s.history.fills, id);
    SumOnRemove(ids, w, f);
    SumOnNonNegative(ids - {f}, w);
  }
}
