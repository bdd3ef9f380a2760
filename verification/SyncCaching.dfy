// The live client's cache of broker entities: what a full sync loads and how single updates change it.
module SyncCaching {
  import opened Prelude
  import opened MarketTypes
  import opened BrokerTypes

  datatype SyncSnapshot = SyncSnapshot(
    occurredAt: Time,
    positions: seq<BrokerPosition>,
    workingOrders: seq<BrokerOrder>,
    fills: seq<BrokerFill>,
    account: Option<BrokerAccount>,
    mismatch: Option<string>)

  predicate HasOpenExposure(snapshot: SyncSnapshot) {
    (exists i :: 0 <= i < |snapshot.positions| && snapshot.positions[i].quantity != 0) || snapshot.workingOrders != []
  }

  /** What an account-like entity says; absent fields leave the account as it is. */
  datatype AccountEntity = AccountEntity(
    accountId: Option<string>,
    realizedPnl: Option<Decimal>,
    unrealizedPnl: Option<Decimal>,
    capturedAt: Option<Time>)

  /** A full sync's entities, those that could not be parsed left out. */
  datatype SyncPayload = SyncPayload(
    accountId: string,
    positions: seq<BrokerPosition>,
    orders: seq<BrokerOrder>,
    fills: seq<BrokerFill>,
    accounts: seq<AccountEntity>)

  /** One entity changed: deleted, if its key can be read, or reported anew, if it can be parsed. */
  datatype EntityEvent<V> = Deleted(key: Option<string>) | Reported(value: Option<V>)

  datatype PropsEvent =
    | PositionProps(position: EntityEvent<BrokerPosition>)
    | OrderProps(order: EntityEvent<BrokerOrder>)
    | FillProps(fill: EntityEvent<BrokerFill>)
    | AccountProps(account: EntityEvent<AccountEntity>)
    | OtherProps

  datatype CacheState = CacheState(
    positions: map<string, BrokerPosition>,
    workingOrders: map<string, BrokerOrder>,
    fills: map<string, BrokerFill>,
    account: Option<BrokerAccount>)

  const EMPTY_CACHE := CacheState(map[], map[], map[], None)

  predicate IsWorking(order: BrokerOrder) {
    order.status == PendingOrder || order.status == WorkingOrder
  }

  function MergeAccount(current: Option<BrokerAccount>, entity: AccountEntity, now: Time, fallback: Option<string>)
    : Option<BrokerAccount>
  {
    var known := match current case Some(a) => Some(a.accountId) case None => None;
    var id := entity.accountId.Or(fallback).Or(known);
    match id
    case None => None
    case Some(accountId) =>
      var base := current.GetOr(BrokerAccount(accountId, None, None, now));
      Some(base.(realizedPnl := entity.realizedPnl.Or(base.realizedPnl),
                 unrealizedPnl := entity.unrealizedPnl.Or(base.unrealizedPnl),
                 capturedAt := entity.capturedAt.GetOr(now)))
  }

  // ----- loading a full sync

  function LoadPositions(positions: seq<BrokerPosition>): map<string, BrokerPosition> {
    if positions == [] then map[]
    else
      var p := positions[|positions| - 1];
      var before := LoadPositions(positions[..|positions| - 1]);
      if p.quantity == 0 then before else before[p.symbol := p]
  }

  function LoadOrders(orders: seq<BrokerOrder>): map<string, BrokerOrder> {
    if orders == [] then map[]
    else
      var o := orders[|orders| - 1];
      var before := LoadOrders(orders[..|orders| - 1]);
      if IsWorking(o) then before[o.orderId := o] else before
  }

  function LoadFills(fills: seq<BrokerFill>): map<string, BrokerFill> {
    if fills == [] then map[]
    else
      var f := fills[|fills| - 1];
      LoadFills(fills[..|fills| - 1])[f.fillId := f]
  }

  function LoadAccount(accounts: seq<AccountEntity>, now: Time, accountId: string): Option<BrokerAccount> {
    if accounts == [] then None
    else MergeAccount(LoadAccount(accounts[..|accounts| - 1], now, accountId), accounts[|accounts| - 1], now,
                      Some(accountId))
  }

  function Load(payload: SyncPayload, now: Time): CacheState {
    CacheState(LoadPositions(payload.positions), LoadOrders(payload.orders), LoadFills(payload.fills),
               LoadAccount(payload.accounts, now, payload.accountId))
  }

  // ----- single updates

  function ApplyPosition(positions: map<string, BrokerPosition>, event: EntityEvent<BrokerPosition>)
    : map<string, BrokerPosition>
  {
    match event
    case Deleted(Some(symbol)) => positions - {symbol}
    case Reported(Some(p)) => if p.quantity == 0 then positions - {p.symbol} else positions[p.symbol := p]
    case _ => positions
  }

  function ApplyOrder(orders: map<string, BrokerOrder>, event: EntityEvent<BrokerOrder>): map<string, BrokerOrder> {
    match event
    case Deleted(Some(id)) => orders - {id}
    case Reported(Some(o)) => if IsWorking(o) then orders[o.orderId := o] else orders - {o.orderId}
    case _ => orders
  }

  function ApplyFill(fills: map<string, BrokerFill>, event: EntityEvent<BrokerFill>): map<string, BrokerFill> {
    match event
    case Deleted(Some(id)) => fills - {id}
    case Reported(Some(f)) => fills[f.fillId := f]
    case _ => fills
  }

  function ApplyAccount(account: Option<BrokerAccount>, event: EntityEvent<AccountEntity>, now: Time)
    : Option<BrokerAccount>
  {
    match event
    case Deleted(_) => None
    case Reported(Some(entity)) => MergeAccount(account, entity, now, None)
    case Reported(None) => account
  }

  function Apply(s: CacheState, event: PropsEvent, now: Time): CacheState {
    match event
    case PositionProps(e) => s.(positions := ApplyPosition(s.positions, e))
    case OrderProps(e) => s.(workingOrders := ApplyOrder(s.workingOrders, e))
    case FillProps(e) => s.(fills := ApplyFill(s.fills, e))
    case AccountProps(e) => s.(account := ApplyAccount(s.account, e, now))
    case OtherProps => s
  }

  // ----- snapshots

  ghost function ValuesAt<V>(m: map<string, V>, keys: seq<string>): (r: seq<V>)
    requires forall k :: k in keys ==> k in m
    ensures |r| == |keys| && forall i :: 0 <= i < |keys| ==> keys[i] in m && r[i] == m[keys[i]]
  {
    seq(|keys|, i requires 0 <= i < |keys| => assert keys[i] in keys; m[keys[i]])
  }

  /** A map's values in key order. */
  ghost function Values<V>(m: map<string, V>): seq<V> {
    ValuesAt(m, InOrder(m.Keys))
  }

  ghost function SnapshotOf(s: CacheState, now: Time): SyncSnapshot {
    SyncSnapshot(now, Values(s.positions), Values(s.workingOrders), Values(s.fills), s.account, None)
  }

  method CollectValues<V>(m: map<string, V>) returns (values: seq<V>)
    ensures values == Values(m)
  {
    var keys := KeysInOrder(m.Keys);
    values := [];
    for i := 0 to |keys|
      invariant |values| == i
      invariant forall j :: 0 <= j < i ==> keys[j] in m && values[j] == m[keys[j]]
    {
      assert keys[i] in keys;
      values := values + [m[keys[i]]];
    }
  }

  class SyncCache {
    var positions: map<string, BrokerPosition>
    var workingOrders: map<string, BrokerOrder>
    var fills: map<string, BrokerFill>
    var account: Option<BrokerAccount>

    ghost function View(): CacheState
      reads this
    {
      CacheState(positions, workingOrders, fills, account)
    }

    constructor ()
      ensures View() == EMPTY_CACHE
    {
      positions, workingOrders, fills, account := map[], map[], map[], None;
    }

    method Snapshot(now: Time) returns (snapshot: SyncSnapshot)
      ensures snapshot == SnapshotOf(View(), now)
    {
      var ps := CollectValues(positions);
      var os := CollectValues(workingOrders);
      var fs := CollectValues(fills);
      snapshot := SyncSnapshot(now, ps, os, fs, account, None);
    }

    method ReplaceFromSyncPayload(payload: SyncPayload, now: Time) returns (snapshot: SyncSnapshot)
      modifies this
      ensures View() == Load(payload, now)
      ensures snapshot == SnapshotOf(View(), now)
    {
      hide IsWorking, MergeAccount;
      positions, workingOrders, fills, account := map[], map[], map[], None;
      for i := 0 to |payload.positions|
        invariant View() == CacheState(LoadPositions(payload.positions[..i]), map[], map[], None)
      {
        assert payload.positions[..i + 1][..i] == payload.positions[..i];
        if payload.positions[i].quantity != 0 {
          positions := positions[payload.positions[i].symbol := payload.positions[i]];
        }
      }
      assert payload.positions[..|payload.positions|] == payload.positions;
      for i := 0 to |payload.orders|
        invariant View() == CacheState(LoadPositions(payload.positions), LoadOrders(payload.orders[..i]), map[], None)
      {
        assert payload.orders[..i + 1][..i] == payload.orders[..i];
        if IsWorking(payload.orders[i]) {
          workingOrders := workingOrders[payload.orders[i].orderId := payload.orders[i]];
        }
      }
      assert payload.orders[..|payload.orders|] == payload.orders;
      for i := 0 to |payload.fills|
        invariant View() == CacheState(LoadPositions(payload.positions), LoadOrders(payload.orders),
                                       LoadFills(payload.fills[..i]), None)
      {
        assert payload.fills[..i + 1][..i] == payload.fills[..i];
        fills := fills[payload.fills[i].fillId := payload.fills[i]];
      }
      assert payload.fills[..|payload.fills|] == payload.fills;
      for i := 0 to |payload.accounts|
        invariant View() == CacheState(LoadPositions(payload.positions), LoadOrders(payload.orders),
                                       LoadFills(payload.fills),
                                       LoadAccount(payload.accounts[..i], now, payload.accountId))
      {
        assert payload.accounts[..i + 1][..i] == payload.accounts[..i];
        account := MergeAccount(account, payload.accounts[i], now, Some(payload.accountId));
      }
      assert payload.accounts[..|payload.accounts|] == payload.accounts;
      snapshot := Snapshot(now);
    }

    method ApplyProps(event: PropsEvent, now: Time) returns (snapshot: Option<SyncSnapshot>)
      modifies this
      ensures View() == Apply(old(View()), event, now)
      ensures snapshot == if event.OtherProps? then None else Some(SnapshotOf(View(), now))
    {
      hide SnapshotOf, IsWorking, MergeAccount;
      match event {
        case PositionProps(e) =>
          match e {
            case Deleted(key) =>
              if key.Some? {
                positions := positions - {key.value};
              }
            case Reported(value) =>
              if value.Some? {
                if value.value.quantity == 0 {
                  positions := positions - {value.value.symbol};
                } else {
                  positions := positions[value.value.symbol := value.value];
                }
              }
          }
        case OrderProps(e) =>
          match e {
            case Deleted(key) =>
              if key.Some? {
                workingOrders := workingOrders - {key.value};
              }
            case Reported(value) =>
              if value.Some? {
                if IsWorking(value.value) {
                  workingOrders := workingOrders[value.value.orderId := value.value];
                } else {
                  workingOrders := workingOrders - {value.value.orderId};
                }
              }
          }
        case FillProps(e) =>
          match e {
            case Deleted(key) =>
              if key.Some? {
                fills := fills - {key.value};
              }
            case Reported(value) =>
              if value.Some? {
                fills := fills[value.value.fillId := value.value];
              }
          }
        case AccountProps(e) =>
          match e {
            case Deleted(_) => account := None;
            case Reported(value) =>
              if value.Some? {
                account := MergeAccount(account, value.value, now, None);
              }
          }
        case OtherProps => return None;
      }
      var current := Snapshot(now);
      snapshot := Some(current);
    }

    /** Connecting and disconnecting both start over with an empty cache. */
    method Clear()
      modifies this
      ensures View() == EMPTY_CACHE
    {
      positions, workingOrders, fills, account := map[], map[], map[], None;
    }
  }
}
