// The runtime history recorder: the methods that update its memory and its projection in place.
module Recorder {
  import opened Prelude
  import opened MarketTypes
  import opened BrokerTypes
  import opened TradingHistory
  import opened SyncSpec

  lemma NoFinalRecords(history: History, added: map<string, nat>, last: OrderMap, now: Time)
    ensures FinalRecords(history, added, last, [], now) == []
  {
  }

  lemma NextFinalRecord(history: History, added: map<string, nat>, last: OrderMap, removed: seq<string>, i: nat,
                        now: Time)
    requires i < |removed|
    ensures var rest, id := FinalRecords(history, added, last, removed[..i], now), removed[i];
      FinalRecords(history, added, last, removed[..i + 1], now)
      == if id in last && id in history.orders then rest + [FinalRecord(history, added, last[id], id, now)] else rest
  {
    assert removed[..i + 1][..i] == removed[..i];
  }

  class RuntimeHistoryRecorder {
    var context: RunContext
    var lastOrders: OrderMap
    var seenFills: set<string>
    var lastPositions: PositionMap
    var lastAccount: Option<BrokerAccount>
    var projection: History

    ghost function View(): RecorderState
      reads this
    {
      RecorderState(context, lastOrders, seenFills, lastPositions, lastAccount, projection)
    }

    constructor ()
      ensures View() == FreshRecorder()
    {
      context, lastOrders, seenFills := RunContext(None, None), map[], {};
      lastPositions, lastAccount, projection := map[], None, EmptyHistory();
    }

    method PersistTrade(record: TradeSummary)
      modifies this`projection
      ensures projection == old(projection).(trades := old(projection).trades[record.tradeId := record],
                                             tradeRecords := old(projection).tradeRecords + 1)
    {
      projection := projection.(trades := projection.trades[record.tradeId := record],
                                tradeRecords := projection.tradeRecords + 1);
    }

    /** The first open trade of a symbol, in key order. */
    method FindOpenTrade(symbol: string) returns (found: Option<string>)
      ensures found == FindOpen(projection.trades, symbol)
    {
      var ids := OpenIds(projection.trades, symbol);
      if ids == {} {
        return None;
      }
      var id := LeastKey(ids);
      return Some(id);
    }

    method LatestPrice(ids: set<string>) returns (price: Option<Decimal>)
      requires ids <= projection.fills.Keys
      ensures price == ExitPrice(projection.fills, ids)
    {
      var order := KeysInOrder(ids);
      var best: Option<string> := None;
      assert forall id :: id in order ==> id in projection.fills;
      for i := 0 to |order|
        invariant best == LatestFill(projection.fills, order[..i])
        invariant best.Some? ==> best.value in projection.fills
      {
        assert order[..i + 1][..i] == order[..i];
        if best.None? || projection.fills[order[i]].occurredAt >= projection.fills[best.value].occurredAt {
          best := Some(order[i]);
        }
      }
      assert order[..|order|] == order;
      price := if best.Some? then Some(projection.fills[best.value].price) else None;
    }

    method CloseTradeSummary(record: TradeSummary, position: BrokerPosition, now: Time)
      modifies this`projection
      ensures projection == old(projection).(
        trades := old(projection).trades[record.tradeId := ClosedTrade(record, old(projection).fills, position, now)],
        tradeRecords := old(projection).tradeRecords + 1)
    {
      hide SumOn, ExitPrice;
      var charged := ChargedFills(projection.fills, record.symbol, record.openedAt, now);
      var fees := TotalOn(charged, FeeOf(projection.fills));
      var commissions := TotalOn(charged, CommissionOf(projection.fills));
      var exitPrice := LatestPrice(charged);
      var gross := position.realizedPnl.GetOr(0);
      PersistTrade(record.(status := TradeClosed, closedAt := Some(now), averageExitPrice := exitPrice,
                           grossPnl := gross, fees := fees, commissions := commissions, slippage := 0,
                           netPnl := gross - fees - commissions));
    }

    /** Opens, resizes, flips or closes the symbol's trade; a flip closes first and then starts over. */
    method SyncTradeSummaryForPosition(position: BrokerPosition, now: Time)
      requires WellKeyed(projection.trades)
      modifies this`projection
      ensures WellKeyed(projection.trades)
      ensures var (trades, written) := SyncTrade(old(projection).trades, old(projection).fills, position, context, now);
        projection == old(projection).(trades := trades, tradeRecords := old(projection).tradeRecords + written)
      decreases |StaleIds(projection.trades, position)|
    {
      hide ClosedTrade, TradeIdFor, SameSymbol;
      var existing := FindOpenTrade(position.symbol);
      var side := SideOf(position.quantity);
      match existing
      case None =>
        if side.Some? {
          PersistTrade(OpenedTrade(position, side.value, context, now));
        }
      case Some(id) =>
        var record := projection.trades[id];
        ClosedKeepsId(record, projection.fills, position, now);
        if side.None? {
          CloseTradeSummary(record, position, now);
        } else if record.side == side.value {
          PersistTrade(ResizedTrade(record, position));
        } else {
          assert id in StaleIds(projection.trades, position);
          CloseShrinksStale(projection.trades, projection.fills, position, id, now);
          CloseTradeSummary(record, position, now);
          SyncTradeSummaryForPosition(position, now);
        }
    }

    /** Total filled quantity over the recorded fills of an order. */
    method TotalFilledForOrder(orderId: string) returns (total: nat)
      ensures total == TotalFilled(projection.fills, orderId)
    {
      var ids := set id | id in projection.fills && projection.fills[id].orderId == Some(orderId);
      var sum := TotalOn(ids, FilledQuantity(projection.fills));
      SumSelected(projection.fills, orderId, ids);
      total := sum;
    }

    method RememberOrders(snapshot: BrokerSnapshot) returns (records: seq<OrderRecord>)
      modifies this`lastOrders
      ensures (lastOrders, records)
           == OrderPass(projection.orders, context, snapshot.DefaultAccount(), old(lastOrders), snapshot.orders)
    {
      hide MergeOrder;
      records := [];
      var orders := snapshot.orders;
      for i := 0 to |orders|
        invariant (lastOrders, records)
               == OrderPass(projection.orders, context, snapshot.DefaultAccount(), old(lastOrders), orders[..i])
      {
        assert orders[..i + 1][..i] == orders[..i];
        var order := orders[i];
        if Get(lastOrders, order.orderId) == Some(order) {
          continue;
        }
        var record := MergeOrder(projection.orders, order, context, snapshot.DefaultAccount());
        if record.Some? {
          records := records + [record.value];
        }
        lastOrders := lastOrders[order.orderId := order];
      }
      assert orders[..|orders|] == orders;
    }

    method RememberFills(snapshot: BrokerSnapshot) returns (records: seq<FillRecord>, added: map<string, nat>)
      modifies this`seenFills
      ensures (seenFills, records, added) == FillPass(old(seenFills), context, snapshot.DefaultAccount(),
                                                      snapshot.fills)
    {
      hide FillRecordOf, AddQuantity;
      records, added := [], map[];
      var fills := snapshot.fills;
      for i := 0 to |fills|
        invariant (seenFills, records, added)
               == FillPass(old(seenFills), context, snapshot.DefaultAccount(), fills[..i])
      {
        assert fills[..i + 1][..i] == fills[..i];
        var fill := fills[i];
        if fill.fillId in seenFills {
          continue;
        }
        seenFills := seenFills + {fill.fillId};
        records := records + [FillRecordOf(fill, context, snapshot.DefaultAccount())];
        added := AddQuantity(added, fill.orderId, fill.quantity);
      }
      assert fills[..|fills|] == fills;
    }

    method RememberPositions(positions: seq<BrokerPosition>) returns (changed: seq<BrokerPosition>)
      modifies this`lastPositions
      ensures (lastPositions, changed) == PositionPass(old(lastPositions), positions)
    {
      hide PositionKey;
      changed := [];
      for i := 0 to |positions|
        invariant (lastPositions, changed) == PositionPass(old(lastPositions), positions[..i])
      {
        assert positions[..i + 1][..i] == positions[..i];
        var key := PositionKey(positions[i]);
        if Get(lastPositions, key) == Some(positions[i]) {
          continue;
        }
        changed := changed + [positions[i]];
        lastPositions := lastPositions[key := positions[i]];
      }
      assert positions[..|positions|] == positions;
    }

    /** Forgets the positions the snapshot no longer lists and reports each as flat. */
    method ForgetPositions(positions: seq<BrokerPosition>, now: Time) returns (flattened: seq<BrokerPosition>)
      modifies this`lastPositions
      ensures lastPositions == Restrict(old(lastPositions), PositionKeys(positions))
      ensures flattened
           == FlattenAll(old(lastPositions), InOrder(old(lastPositions).Keys - PositionKeys(positions)), now)
    {
      hide PositionKey, Restrict, Flattened, Elements;
      var current := set i | 0 <= i < |positions| :: PositionKey(positions[i]);
      var gone := KeysInOrder(lastPositions.Keys - current);
      flattened := [];
      RemoveAllOthers(lastPositions, current);
      for i := 0 to |gone|
        invariant lastPositions == old(lastPositions) - Elements(gone[..i])
        invariant forall k :: k in gone[..i] ==> k in old(lastPositions)
        invariant flattened == FlattenAll(old(lastPositions), gone[..i], now)
      {
        RemoveNext(old(lastPositions), gone, i);
        assert gone[..i + 1][..i] == gone[..i];
        flattened := flattened + [Flattened(lastPositions[gone[i]], now)];
        lastPositions := lastPositions - {gone[i]};
      }
      assert gone[..|gone|] == gone;
    }

    /** The last record of an order that left: what all its fills add up to, and whether that filled it. */
    method FinalOrderRecord(id: string, previous: BrokerOrder, added: map<string, nat>, now: Time)
      returns (record: OrderRecord)
      requires id in projection.orders
      ensures record == FinalRecord(projection, added, previous, id, now)
    {
      hide TotalFilled;
      var existing := projection.orders[id];
      var total := TotalFilledForOrder(id);
      var filled := total + Get(added, id).GetOr(0);
      record := existing.(filledQuantity := filled,
                          averageFillPrice := previous.averageFillPrice.Or(existing.averageFillPrice),
                          status := if filled >= existing.quantity then FilledOrder else CancelledOrder,
                          updatedAt := now);
    }

    /** Forgets the orders that left the working set; each known one gets its final record. */
    method ForgetOrders(orders: seq<BrokerOrder>, added: map<string, nat>, now: Time)
      returns (records: seq<OrderRecord>)
      modifies this`lastOrders
      ensures lastOrders == Restrict(old(lastOrders), OrderIds(orders))
      ensures records == FinalRecords(projection, added, old(lastOrders),
                                      InOrder(old(lastOrders).Keys - OrderIds(orders)), now)
    {
      hide FinalRecord, FinalRecords, Restrict, Elements;
      var current := set i | 0 <= i < |orders| :: orders[i].orderId;
      var removed := KeysInOrder(lastOrders.Keys - current);
      records := [];
      RemoveAllOthers(lastOrders, current);
      NoFinalRecords(projection, added, lastOrders, now);
      for i := 0 to |removed|
        invariant lastOrders == old(lastOrders) - Elements(removed[..i])
        invariant records == FinalRecords(projection, added, old(lastOrders), removed[..i], now)
      {
        RemoveNext(old(lastOrders), removed, i);
        NextFinalRecord(projection, added, old(lastOrders), removed, i, now);
        var id := removed[i];
        var previous := lastOrders[id];
        lastOrders := lastOrders - {id};
        if id in projection.orders {
          var record := FinalOrderRecord(id, previous, added, now);
          records := records + [record];
        }
      }
      assert removed[..|removed|] == removed;
    }

    method PersistOrders(records: seq<OrderRecord>)
      modifies this`projection
      ensures projection == old(projection).(orders := ApplyOrders(old(projection).orders, records),
                                             orderRecords := old(projection).orderRecords + |records|)
    {
      for i := 0 to |records|
        invariant projection == old(projection).(orders := ApplyOrders(old(projection).orders, records[..i]),
                                                 orderRecords := old(projection).orderRecords + i)
      {
        assert records[..i + 1][..i] == records[..i];
        projection := projection.(orders := projection.orders[records[i].orderId := records[i]],
                                  orderRecords := projection.orderRecords + 1);
      }
      assert records[..|records|] == records;
    }

    method PersistFills(records: seq<FillRecord>)
      modifies this`projection
      ensures projection == old(projection).(fills := ApplyFills(old(projection).fills, records),
                                             fillRecords := old(projection).fillRecords + |records|)
    {
      for i := 0 to |records|
        invariant projection == old(projection).(fills := ApplyFills(old(projection).fills, records[..i]),
                                                 fillRecords := old(projection).fillRecords + i)
      {
        assert records[..i + 1][..i] == records[..i];
        projection := projection.(fills := projection.fills[records[i].fillId := records[i]],
                                  fillRecords := projection.fillRecords + 1);
      }
      assert records[..|records|] == records;
    }

    method SyncLedger(positions: seq<BrokerPosition>, now: Time)
      requires WellKeyed(projection.trades)
      modifies this`projection
      ensures WellKeyed(projection.trades)
      ensures var (trades, written) := SyncTrades(old(projection).trades, old(projection).fills, positions, context,
                                                  now);
        projection == old(projection).(trades := trades,
                                       positionRecords := old(projection).positionRecords + |positions|,
                                       tradeRecords := old(projection).tradeRecords + written)
    {
      hide SyncTrade, WellKeyed;
      projection := projection.(positionRecords := projection.positionRecords + |positions|);
      for i := 0 to |positions|
        invariant WellKeyed(projection.trades)
        invariant var (trades, written) :=
            SyncTrades(old(projection).trades, old(projection).fills, positions[..i], context, now);
          projection == old(projection).(trades := trades,
                                         positionRecords := old(projection).positionRecords + |positions|,
                                         tradeRecords := old(projection).tradeRecords + written)
      {
        assert positions[..i + 1][..i] == positions[..i];
        SyncTradeSummaryForPosition(positions[i], now);
      }
      assert positions[..|positions|] == positions;
    }

    method PersistPnl(account: BrokerAccount, now: Time)
      modifies this`projection
      ensures projection == old(projection).(pnlSnapshots := old(projection).pnlSnapshots
                              + [PnlOf(account, old(projection).fills, old(projection).trades, now)])
    {
      hide SumOn;
      var fills, trades := projection.fills, projection.trades;
      var fillFees := TotalOn(fills.Keys, FeeOf(fills));
      var fillCommissions := TotalOn(fills.Keys, CommissionOf(fills));
      var tradeFees := TotalOn(trades.Keys, ClosedFeeOf(trades));
      var tradeCommissions := TotalOn(trades.Keys, ClosedCommissionOf(trades));
      var gross := account.realizedPnl.GetOr(0) + account.unrealizedPnl.GetOr(0);
      var fees, commissions := Max(fillFees, tradeFees), Max(fillCommissions, tradeCommissions);
      projection := projection.(pnlSnapshots := projection.pnlSnapshots
        + [PnlSnapshot(gross, gross - fees - commissions, fees, commissions, now)]);
    }

    /** Persists what a sync decided, in the source's order. */
    method PersistAll(orders: seq<OrderRecord>, fills: seq<FillRecord>, positions: seq<BrokerPosition>,
                      pnlAccount: Option<BrokerAccount>, now: Time)
      requires WellKeyed(projection.trades)
      modifies this`projection
      ensures WellKeyed(projection.trades)
      ensures projection == PersistRecords(old(projection), context, orders, fills, positions, pnlAccount, now)
    {
      hide SyncTrades, ApplyOrders, ApplyFills, PnlOf, WellKeyed;
      PersistOrders(orders);
      PersistFills(fills);
      SyncLedger(positions, now);
      if pnlAccount.Some? {
        PersistPnl(pnlAccount.value, now);
      }
    }

    /**
     * One sync: decide all records against the history as it was, then persist orders, fills, trades and profit
     * and loss.
     */
    method SyncBrokerSnapshot(snapshot: BrokerSnapshot, now: Time) returns (changed: bool)
      requires WellKeyed(projection.trades)
      modifies this
      ensures WellKeyed(projection.trades)
      ensures (View(), changed) == Sync(old(View()), snapshot, now)
    {
      hide OrderPass, FillPass, PositionPass, FlattenAll, InOrder, FinalRecords;
      hide Restrict, OrderIds, PositionKeys, WellKeyed, BrokerSnapshot.DefaultAccount, PersistRecords;
      var workingRecords := RememberOrders(snapshot);
      var fillRecords, added := RememberFills(snapshot);
      var processed := RememberPositions(snapshot.positions);
      var flattened := ForgetPositions(snapshot.positions, now);
      processed := processed + flattened;
      changed := workingRecords != [] || fillRecords != [] || processed != [];

      var pnlAccount: Option<BrokerAccount> := None;
      if lastAccount != snapshot.account || changed {
        if snapshot.account.Some? {
          lastAccount := snapshot.account;
          pnlAccount := snapshot.account;
          changed := true;
        }
      }

      var finalRecords := ForgetOrders(snapshot.orders, added, now);
      changed := changed || finalRecords != [];

      PersistAll(workingRecords + finalRecords, fillRecords, processed, pnlAccount, now);
    }
  }

  ghost function Elements(s: seq<string>): set<string> {
    set x | x in s
  }

  /** Removing a list's keys one by one: the next one is still there, and then gone too. */
  lemma RemoveNext<V>(m: map<string, V>, keys: seq<string>, i: nat)
    requires i < |keys| && (forall k :: k in keys ==> k in m)
    requires forall a, b :: 0 <= a < b < |keys| ==> keys[a] != keys[b]
    ensures keys[i] in m - Elements(keys[..i])
    ensures (m - Elements(keys[..i])) - {keys[i]} == m - Elements(keys[..i + 1])
    ensures (m - Elements(keys[..i]))[keys[i]] == m[keys[i]]
    ensures keys[i] in m
  {
    assert keys[i] in keys;
    assert keys[..i + 1] == keys[..i] + [keys[i]];
  }

  lemma RemoveAllOthers<V>(m: map<string, V>, keep: set<string>)
    ensures m - Elements(InOrder(m.Keys - keep)) == Restrict(m, keep)
    ensures m - Elements([]) == m
  {
    var gone := m.Keys - keep;
    assert Elements(InOrder(gone)) == gone;
  }

  lemma ClosedKeepsId(record: TradeSummary, fills: Fills, position: BrokerPosition, now: Time)
    ensures ClosedTrade(record, fills, position, now).tradeId == record.tradeId
  {
    hide SumOn, ExitPrice;
  }

  function FilledQuantity(fills: Fills): string -> int {
    id => if id in fills then fills[id].quantity else 0
  }

  lemma SumSelected(fills: Fills, orderId: string, ids: set<string>)
    requires ids == set id | id in fills && fills[id].orderId == Some(orderId)
    ensures SumOn(ids, FilledQuantity(fills)) == TotalFilled(fills, orderId)
  {
    hide SumOn;
    var others := fills.Keys - ids;
    SumOnUnion(ids, others, QuantityOf(fills, orderId));
    assert ids + others == fills.Keys;
    SumOnSame(ids, FilledQuantity(fills), QuantityOf(fills, orderId));
    SumOfZeros(others, QuantityOf(fills, orderId));
  }

  lemma {:induction false} SumOfZeros(ids: set<string>, w: string -> int)
    requires forall id :: id in ids ==> w(id) == 0
    ensures SumOn(ids, w) == 0
  {
    if ids != {} {
      SumOfZeros(ids - {Least(ids)}, w);
    }
  }
}
