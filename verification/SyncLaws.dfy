// Syncing is exact and idempotent.
module SyncLaws {
  import opened Prelude
  import opened MarketTypes
  import opened BrokerTypes
  import opened TradingHistory
  import opened SyncSpec

  ghost predicate UniqueOrders(orders: seq<BrokerOrder>) {
    forall i, j :: 0 <= i < j < |orders| ==> orders[i].orderId != orders[j].orderId
  }

  ghost predicate UniquePositions(positions: seq<BrokerPosition>) {
    forall i, j :: 0 <= i < j < |positions| ==> PositionKey(positions[i]) != PositionKey(positions[j])
  }

  ghost predicate UniqueIds(snap: BrokerSnapshot) {
    UniqueOrders(snap.orders) && UniquePositions(snap.positions)
  }

  /** `m` holds exactly the snapshot's orders, each under its id. */
  ghost predicate IsOrderMap(m: OrderMap, orders: seq<BrokerOrder>) {
    && m.Keys == OrderIds(orders)
    && forall i :: 0 <= i < |orders| ==> orders[i].orderId in m && m[orders[i].orderId] == orders[i]
  }

  ghost predicate IsPositionMap(m: PositionMap, positions: seq<BrokerPosition>) {
    && m.Keys == PositionKeys(positions)
    && forall i :: 0 <= i < |positions| ==>
         PositionKey(positions[i]) in m && m[PositionKey(positions[i])] == positions[i]
  }

  /** Storing a list of orders under their ids, later ones winning. */
  function PutOrders(last: OrderMap, working: seq<BrokerOrder>): OrderMap {
    if working == [] then last
    else PutOrders(last, working[..|working| - 1])[working[|working| - 1].orderId := working[|working| - 1]]
  }

  lemma {:induction false} OrderPassPuts(
    orders: map<string, OrderRecord>, context: RunContext, account: Option<string>, last: OrderMap,
    working: seq<BrokerOrder>)
    ensures OrderPass(orders, context, account, last, working).0 == PutOrders(last, working)
  {
    hide MergeOrder;
    if working != [] {
      OrderPassPuts(orders, context, account, last, working[..|working| - 1]);
    }
  }

  lemma {:induction false} PutOrdersHolds(last: OrderMap, working: seq<BrokerOrder>, i: int)
    requires UniqueOrders(working)
    ensures PutOrders(last, working).Keys == last.Keys + OrderIds(working)
    ensures 0 <= i < |working| ==>
      working[i].orderId in PutOrders(last, working) && PutOrders(last, working)[working[i].orderId] == working[i]
  {
    if working != [] {
      var n := |working| - 1;
      PutOrdersHolds(last, working[..n], i);
      assert OrderIds(working) == OrderIds(working[..n]) + {working[n].orderId};
    }
  }

  lemma {:induction false} OrderPassQuiet(
    orders: map<string, OrderRecord>, context: RunContext, account: Option<string>, last: OrderMap,
    working: seq<BrokerOrder>)
    requires forall i :: 0 <= i < |working| ==> Get(last, working[i].orderId) == Some(working[i])
    ensures OrderPass(orders, context, account, last, working) == (last, [])
  {
    hide MergeOrder;
    if working != [] {
      OrderPassQuiet(orders, context, account, last, working[..|working| - 1]);
    }
  }

  function PutPositions(last: PositionMap, positions: seq<BrokerPosition>): PositionMap {
    if positions == [] then last
    else
      var n := |positions| - 1;
      PutPositions(last, positions[..n])[PositionKey(positions[n]) := positions[n]]
  }

  lemma {:induction false} PositionPassPuts(last: PositionMap, positions: seq<BrokerPosition>)
    ensures PositionPass(last, positions).0 == PutPositions(last, positions)
  {
    hide PositionKey;
    if positions != [] {
      PositionPassPuts(last, positions[..|positions| - 1]);
    }
  }

  lemma {:induction false} PutPositionsHolds(last: PositionMap, positions: seq<BrokerPosition>, i: int)
    requires UniquePositions(positions)
    ensures PutPositions(last, positions).Keys == last.Keys + PositionKeys(positions)
    ensures 0 <= i < |positions| ==>
      PositionKey(positions[i]) in PutPositions(last, positions)
      && PutPositions(last, positions)[PositionKey(positions[i])] == positions[i]
  {
    hide PositionKey;
    if positions != [] {
      var n := |positions| - 1;
      PutPositionsHolds(last, positions[..n], i);
      assert PositionKeys(positions) == PositionKeys(positions[..n]) + {PositionKey(positions[n])};
    }
  }

  lemma {:induction false} PutPositionsFrame(last: PositionMap, positions: seq<BrokerPosition>, k: string)
    requires k !in PositionKeys(positions)
    ensures Get(PutPositions(last, positions), k) == Get(last, k)
  {
    hide PositionKey;
    if positions != [] {
      var n := |positions| - 1;
      assert PositionKey(positions[n]) in PositionKeys(positions);
      assert PositionKeys(positions[..n]) <= PositionKeys(positions) by {
        forall x | x in PositionKeys(positions[..n]) ensures x in PositionKeys(positions) {
          var i :| 0 <= i < n && x == PositionKey(positions[..n][i]);
          assert positions[i] == positions[..n][i];
        }
      }
      PutPositionsFrame(last, positions[..n], k);
    }
  }

  lemma {:induction false} PositionPassQuiet(last: PositionMap, positions: seq<BrokerPosition>)
    requires forall i :: 0 <= i < |positions| ==> Get(last, PositionKey(positions[i])) == Some(positions[i])
    ensures PositionPass(last, positions) == (last, [])
  {
    hide PositionKey;
    if positions != [] {
      PositionPassQuiet(last, positions[..|positions| - 1]);
    }
  }

  lemma {:induction false} FillPassSees(seen: set<string>, context: RunContext, account: Option<string>,
                                        fills: seq<BrokerFill>)
    ensures var after := FillPass(seen, context, account, fills).0;
      seen <= after && forall i :: 0 <= i < |fills| ==> fills[i].fillId in after
  {
    hide FillRecordOf, AddQuantity;
    if fills != [] {
      FillPassSees(seen, context, account, fills[..|fills| - 1]);
    }
  }

  lemma {:induction false} FillPassQuiet(seen: set<string>, context: RunContext, account: Option<string>,
                                         fills: seq<BrokerFill>)
    requires forall i :: 0 <= i < |fills| ==> fills[i].fillId in seen
    ensures FillPass(seen, context, account, fills) == (seen, [], map[])
  {
    hide FillRecordOf, AddQuantity;
    if fills != [] {
      FillPassQuiet(seen, context, account, fills[..|fills| - 1]);
    }
  }

  /** With unique ids, a sync remembers exactly the snapshot: its orders and its positions, nothing else. */
  lemma SyncIsExact(s: RecorderState, snap: BrokerSnapshot, now: Time)
    requires UniqueIds(snap)
    ensures var after := Sync(s, snap, now).0;
      && IsOrderMap(after.lastOrders, snap.orders)
      && IsPositionMap(after.lastPositions, snap.positions)
      && (snap.account.Some? ==> after.lastAccount == snap.account)
      && (forall i :: 0 <= i < |snap.fills| ==> snap.fills[i].fillId in after.seenFills)
      && s.seenFills <= after.seenFills
  {
    hide Persist, FinalRecords, FlattenAll, OrderPass, PositionPass, FillPass, PutOrders, PutPositions, Restrict;
    hide IsOrderMap, IsPositionMap, OrderIds, PositionKeys;
    var account := snap.DefaultAccount();
    OrderPassPuts(s.history.orders, s.context, account, s.lastOrders, snap.orders);
    PositionPassPuts(s.lastPositions, snap.positions);
    FillPassSees(s.seenFills, s.context, account, snap.fills);
    PutOrdersHolds(s.lastOrders, snap.orders, -1);
    PutPositionsHolds(s.lastPositions, snap.positions, -1);
    RestrictedOrders(s.lastOrders, snap.orders);
    RestrictedPositions(s.lastPositions, snap.positions);
  }

  lemma RestrictedOrders(last: OrderMap, orders: seq<BrokerOrder>)
    requires UniqueOrders(orders)
    ensures IsOrderMap(Restrict(PutOrders(last, orders), OrderIds(orders)), orders)
  {
    hide PutOrders;
    PutOrdersHolds(last, orders, -1);
    forall i | 0 <= i < |orders|
      ensures var m := Restrict(PutOrders(last, orders), OrderIds(orders));
        orders[i].orderId in m && m[orders[i].orderId] == orders[i]
    {
      PutOrdersHolds(last, orders, i);
      assert orders[i].orderId in OrderIds(orders);
    }
  }

  lemma RestrictedPositions(last: PositionMap, positions: seq<BrokerPosition>)
    requires UniquePositions(positions)
    ensures IsPositionMap(Restrict(PutPositions(last, positions), PositionKeys(positions)), positions)
  {
    hide PutPositions, PositionKey;
    PutPositionsHolds(last, positions, -1);
    forall i | 0 <= i < |positions|
      ensures var m := Restrict(PutPositions(last, positions), PositionKeys(positions));
        PositionKey(positions[i]) in m && m[PositionKey(positions[i])] == positions[i]
    {
      PutPositionsHolds(last, positions, i);
      assert PositionKey(positions[i]) in PositionKeys(positions);
    }
  }

  /** A state that already remembers the snapshot. */
  ghost predicate Remembers(s: RecorderState, snap: BrokerSnapshot) {
    && IsOrderMap(s.lastOrders, snap.orders)
    && IsPositionMap(s.lastPositions, snap.positions)
    && (snap.account.Some? ==> s.lastAccount == snap.account)
    && (forall i :: 0 <= i < |snap.fills| ==> snap.fills[i].fillId in s.seenFills)
  }

  lemma QuietDiff(s: RecorderState, snap: BrokerSnapshot, now: Time)
    requires Remembers(s, snap)
    ensures var d := DiffOf(s, snap, now);
      && d.lastOrders == s.lastOrders && d.lastPositions == s.lastPositions && d.seenFills == s.seenFills
      && d.workingRecords == [] && d.fillRecords == [] && d.processed == [] && d.finalRecords == []
      && d.pnlAccount == None
  {
    hide OrderPass, PositionPass, FillPass, MergeOrder, FinalRecord;
    OrderPassQuiet(s.history.orders, s.context, snap.DefaultAccount(), s.lastOrders, snap.orders);
    PositionPassQuiet(s.lastPositions, snap.positions);
    FillPassQuiet(s.seenFills, s.context, snap.DefaultAccount(), snap.fills);
    assert s.lastOrders.Keys - OrderIds(snap.orders) == {};
    assert s.lastPositions.Keys - PositionKeys(snap.positions) == {};
  }

  /** Syncing what is already remembered appends no record of any kind, changes nothing and reports no change. */
  lemma RememberedSyncIsQuiet(s: RecorderState, snap: BrokerSnapshot, now: Time)
    requires Remembers(s, snap)
    ensures Sync(s, snap, now) == (s, false)
  {
    hide DiffOf, PnlOf;
    QuietDiff(s, snap, now);
    assert Restrict(s.lastOrders, OrderIds(snap.orders)) == s.lastOrders;
    assert Restrict(s.lastPositions, PositionKeys(snap.positions)) == s.lastPositions;
    var d := DiffOf(s, snap, now);
    assert d.workingRecords + d.finalRecords == [];
  }

  /** Idempotence: the same snapshot again, at whatever time, is a no-op. */
  lemma SyncIsIdempotent(s: RecorderState, snap: BrokerSnapshot, now: Time, later: Time)
    requires UniqueIds(snap)
    ensures Sync(Sync(s, snap, now).0, snap, later) == (Sync(s, snap, now).0, false)
  {
    hide DiffOf, Persist;
    SyncIsExact(s, snap, now);
    RememberedSyncIsQuiet(Sync(s, snap, now).0, snap, later);
  }
}
