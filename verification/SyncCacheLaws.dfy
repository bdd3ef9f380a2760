// The cache is a correct view: the last word about each entity decides what is cached.
module SyncCacheLaws {
  import opened Prelude
  import opened MarketTypes
  import opened BrokerTypes
  import opened SyncCaching
  import opened SyncSpec
  import opened SyncLaws

  datatype CacheOp = Clear | FullSync(payload: SyncPayload, now: Time) | Props(event: PropsEvent, at: Time)

  function CacheStep(s: CacheState, op: CacheOp): CacheState {
    match op
    case Clear => EMPTY_CACHE
    case FullSync(payload, now) => Load(payload, now)
    case Props(event, at) => Apply(s, event, at)
  }

  function CacheRun(ops: seq<CacheOp>): CacheState {
    if ops == [] then EMPTY_CACHE else CacheStep(CacheRun(ops[..|ops| - 1]), ops[|ops| - 1])
  }

  // ----- statements about entities

  /** A statement about one entity: it is live with this value, or it is gone. */
  datatype Statement<V> = Live(key: string, value: V) | Gone(key: string)

  /** Statement `i` is the last one about `key`. */
  ghost predicate LastWord<V>(statements: seq<Statement<V>>, i: int, key: string) {
    0 <= i < |statements| && statements[i].key == key
    && forall j :: i < j < |statements| ==> statements[j].key != key
  }

  /** The cached values are exactly those whose last word is that they are live. */
  ghost predicate CachesLastWords<V>(m: map<string, V>, statements: seq<Statement<V>>) {
    && (forall k :: k in m ==> exists i :: LastWord(statements, i, k) && statements[i] == Live(k, m[k]))
    && (forall i, k :: LastWord(statements, i, k) && statements[i].Live? ==> k in m && m[k] == statements[i].value)
  }

  /** Adding a statement: the map that stores or removes its key caches the last words again. */
  lemma AddStatement<V>(m: map<string, V>, statements: seq<Statement<V>>, s: Statement<V>, after: map<string, V>)
    requires CachesLastWords(m, statements)
    requires after == match s case Live(k, v) => m[k := v] case Gone(k) => m - {k}
    ensures CachesLastWords(after, statements + [s])
  {
    var more := statements + [s];
    var n := |statements|;
    forall k | k in after ensures exists i :: LastWord(more, i, k) && more[i] == Live(k, after[k]) {
      if k == s.key {
        assert LastWord(more, n, k) && more[n] == s;
      } else {
        var i :| LastWord(statements, i, k) && statements[i] == Live(k, m[k]);
        assert LastWord(more, i, k) && more[i] == statements[i];
      }
    }
    forall i, k | LastWord(more, i, k) && more[i].Live? ensures k in after && after[k] == more[i].value {
      if i < n {
        assert more[n].key != k;
        assert LastWord(statements, i, k) by {
          assert forall j :: i < j < n ==> more[j] == statements[j];
        }
      }
    }
  }

  /** An update can take back what it says; an entry of a full sync cannot. */
  function StatementsOf<V>(event: EntityEvent<V>, keyOf: V -> string, live: V -> bool): seq<Statement<V>> {
    match event
    case Deleted(Some(key)) => [Gone(key)]
    case Reported(Some(v)) => if live(v) then [Live(keyOf(v), v)] else [Gone(keyOf(v))]
    case _ => []
  }

  function PayloadStatements<V>(entries: seq<V>, keyOf: V -> string, live: V -> bool): seq<Statement<V>> {
    if entries == [] then []
    else
      var v := entries[|entries| - 1];
      PayloadStatements(entries[..|entries| - 1], keyOf, live) + if live(v) then [Live(keyOf(v), v)] else []
  }

  const ORDER_KEY: BrokerOrder -> string := (o: BrokerOrder) => o.orderId
  const POSITION_KEY: BrokerPosition -> string := (p: BrokerPosition) => p.symbol
  const FILL_KEY: BrokerFill -> string := (f: BrokerFill) => f.fillId
  const ORDER_LIVE: BrokerOrder -> bool := (o: BrokerOrder) => IsWorking(o)
  const POSITION_LIVE: BrokerPosition -> bool := (p: BrokerPosition) => p.quantity != 0
  const FILL_LIVE: BrokerFill -> bool := (f: BrokerFill) => true

  /** What was said about orders since the last full sync or reconnect. */
  function OrderStatements(ops: seq<CacheOp>): seq<Statement<BrokerOrder>> {
    if ops == [] then []
    else
      var before := OrderStatements(ops[..|ops| - 1]);
      match ops[|ops| - 1]
      case Clear => []
      case FullSync(payload, _) => PayloadStatements(payload.orders, ORDER_KEY, ORDER_LIVE)
      case Props(OrderProps(event), _) => before + StatementsOf(event, ORDER_KEY, ORDER_LIVE)
      case Props(_, _) => before
  }

  function PositionStatements(ops: seq<CacheOp>): seq<Statement<BrokerPosition>> {
    if ops == [] then []
    else
      var before := PositionStatements(ops[..|ops| - 1]);
      match ops[|ops| - 1]
      case Clear => []
      case FullSync(payload, _) => PayloadStatements(payload.positions, POSITION_KEY, POSITION_LIVE)
      case Props(PositionProps(event), _) => before + StatementsOf(event, POSITION_KEY, POSITION_LIVE)
      case Props(_, _) => before
  }

  function FillStatements(ops: seq<CacheOp>): seq<Statement<BrokerFill>> {
    if ops == [] then []
    else
      var before := FillStatements(ops[..|ops| - 1]);
      match ops[|ops| - 1]
      case Clear => []
      case FullSync(payload, _) => PayloadStatements(payload.fills, FILL_KEY, FILL_LIVE)
      case Props(FillProps(event), _) => before + StatementsOf(event, FILL_KEY, FILL_LIVE)
      case Props(_, _) => before
  }

  lemma {:induction false} LoadOrdersIsView(orders: seq<BrokerOrder>)
    ensures CachesLastWords(LoadOrders(orders), PayloadStatements(orders, ORDER_KEY, ORDER_LIVE))
  {
    hide CachesLastWords, IsWorking;
    if orders == [] {
      NothingSaid<BrokerOrder>();
    } else {
      var n := |orders| - 1;
      var before, said := LoadOrders(orders[..n]), PayloadStatements(orders[..n], ORDER_KEY, ORDER_LIVE);
      LoadOrdersIsView(orders[..n]);
      if IsWorking(orders[n]) {
        AddStatement(before, said, Live(orders[n].orderId, orders[n]), before[orders[n].orderId := orders[n]]);
      } else {
        assert said + [] == said;
      }
    }
  }

  lemma {:induction false} LoadPositionsIsView(positions: seq<BrokerPosition>)
    ensures CachesLastWords(LoadPositions(positions), PayloadStatements(positions, POSITION_KEY, POSITION_LIVE))
  {
    hide CachesLastWords;
    if positions == [] {
      NothingSaid<BrokerPosition>();
    } else {
      var n := |positions| - 1;
      var before, said := LoadPositions(positions[..n]), PayloadStatements(positions[..n], POSITION_KEY, POSITION_LIVE);
      LoadPositionsIsView(positions[..n]);
      if positions[n].quantity != 0 {
        AddStatement(before, said, Live(positions[n].symbol, positions[n]),
                     before[positions[n].symbol := positions[n]]);
      } else {
        assert said + [] == said;
      }
    }
  }

  lemma {:induction false} LoadFillsIsView(fills: seq<BrokerFill>)
    ensures CachesLastWords(LoadFills(fills), PayloadStatements(fills, FILL_KEY, FILL_LIVE))
  {
    hide CachesLastWords;
    if fills == [] {
      NothingSaid<BrokerFill>();
    } else {
      var n := |fills| - 1;
      var before, said := LoadFills(fills[..n]), PayloadStatements(fills[..n], FILL_KEY, FILL_LIVE);
      LoadFillsIsView(fills[..n]);
      AddStatement(before, said, Live(fills[n].fillId, fills[n]), before[fills[n].fillId := fills[n]]);
    }
  }

  lemma NothingSaid<V>()
    ensures CachesLastWords<V>(map[], [])
  {
  }

  lemma OrderEventKeepsView(m: map<string, BrokerOrder>, said: seq<Statement<BrokerOrder>>,
                            event: EntityEvent<BrokerOrder>)
    requires CachesLastWords(m, said)
    ensures CachesLastWords(ApplyOrder(m, event), said + StatementsOf(event, ORDER_KEY, ORDER_LIVE))
  {
    hide CachesLastWords, IsWorking;
    var more := StatementsOf(event, ORDER_KEY, ORDER_LIVE);
    if more == [] {
      assert said + more == said;
    } else {
      AddStatement(m, said, more[0], ApplyOrder(m, event));
    }
  }

  lemma PositionEventKeepsView(m: map<string, BrokerPosition>, said: seq<Statement<BrokerPosition>>,
                               event: EntityEvent<BrokerPosition>)
    requires CachesLastWords(m, said)
    ensures CachesLastWords(ApplyPosition(m, event), said + StatementsOf(event, POSITION_KEY, POSITION_LIVE))
  {
    hide CachesLastWords;
    var more := StatementsOf(event, POSITION_KEY, POSITION_LIVE);
    if more == [] {
      assert said + more == said;
    } else {
      AddStatement(m, said, more[0], ApplyPosition(m, event));
    }
  }

  lemma FillEventKeepsView(m: map<string, BrokerFill>, said: seq<Statement<BrokerFill>>, event: EntityEvent<BrokerFill>)
    requires CachesLastWords(m, said)
    ensures CachesLastWords(ApplyFill(m, event), said + StatementsOf(event, FILL_KEY, FILL_LIVE))
  {
    hide CachesLastWords;
    var more := StatementsOf(event, FILL_KEY, FILL_LIVE);
    if more == [] {
      assert said + more == said;
    } else {
      AddStatement(m, said, more[0], ApplyFill(m, event));
    }
  }

  /**
   * The cache is a correct view after any run: an order is cached exactly when the last statement about it is a
   * pending or working update, with that value; likewise positions (non-zero) and fills (reported, not deleted).
   */
  lemma {:induction false} CacheIsTheLastWord(ops: seq<CacheOp>)
    ensures CachesLastWords(CacheRun(ops).workingOrders, OrderStatements(ops))
    ensures CachesLastWords(CacheRun(ops).positions, PositionStatements(ops))
    ensures CachesLastWords(CacheRun(ops).fills, FillStatements(ops))
  {
    hide CachesLastWords, ApplyOrder, ApplyPosition, ApplyFill, LoadOrders, LoadPositions, LoadFills, LoadAccount;
    hide StatementsOf, PayloadStatements;
    NothingSaid<BrokerOrder>();
    NothingSaid<BrokerPosition>();
    NothingSaid<BrokerFill>();
    if ops != [] {
      var before := ops[..|ops| - 1];
      CacheIsTheLastWord(before);
      match ops[|ops| - 1]
      case Clear =>
      case FullSync(payload, _) =>
        LoadOrdersIsView(payload.orders);
        LoadPositionsIsView(payload.positions);
        LoadFillsIsView(payload.fills);
      case Props(OrderProps(event), _) =>
        OrderEventKeepsView(CacheRun(before).workingOrders, OrderStatements(before), event);
      case Props(PositionProps(event), _) =>
        PositionEventKeepsView(CacheRun(before).positions, PositionStatements(before), event);
      case Props(FillProps(event), _) => FillEventKeepsView(CacheRun(before).fills, FillStatements(before), event);
      case Props(_, _) =>
    }
  }

  /** Nothing flat and nothing finished is ever cached, and everything sits under its own key. */
  ghost predicate OnlyLive(s: CacheState) {
    && (forall k :: k in s.positions ==> s.positions[k].symbol == k && s.positions[k].quantity != 0)
    && (forall k :: k in s.workingOrders ==> s.workingOrders[k].orderId == k && IsWorking(s.workingOrders[k]))
    && (forall k :: k in s.fills ==> s.fills[k].fillId == k)
  }

  lemma {:induction false} OnlyLiveEntitiesAreCached(ops: seq<CacheOp>)
    ensures OnlyLive(CacheRun(ops))
  {
    if ops != [] {
      OnlyLiveEntitiesAreCached(ops[..|ops| - 1]);
      match ops[|ops| - 1]
      case FullSync(payload, now) => LoadIsLive(payload, now);
      case _ =>
    }
  }

  lemma LoadIsLive(payload: SyncPayload, now: Time)
    ensures OnlyLive(Load(payload, now))
  {
    hide IsWorking;
    LoadedOrdersAreLive(payload.orders);
    LoadedPositionsAreLive(payload.positions);
    LoadedFillsAreKeyed(payload.fills);
  }

  lemma {:induction false} LoadedOrdersAreLive(orders: seq<BrokerOrder>)
    ensures forall k :: k in LoadOrders(orders) ==>
      LoadOrders(orders)[k].orderId == k && IsWorking(LoadOrders(orders)[k])
  {
    if orders != [] {
      LoadedOrdersAreLive(orders[..|orders| - 1]);
    }
  }

  lemma {:induction false} LoadedPositionsAreLive(positions: seq<BrokerPosition>)
    ensures forall k :: k in LoadPositions(positions) ==>
      LoadPositions(positions)[k].symbol == k && LoadPositions(positions)[k].quantity != 0
  {
    if positions != [] {
      LoadedPositionsAreLive(positions[..|positions| - 1]);
    }
  }

  lemma {:induction false} LoadedFillsAreKeyed(fills: seq<BrokerFill>)
    ensures forall k :: k in LoadFills(fills) ==> LoadFills(fills)[k].fillId == k
  {
    if fills != [] {
      LoadedFillsAreKeyed(fills[..|fills| - 1]);
    }
  }

  // ----- repeated entries in one payload

  /**
   * A full sync caches an order exactly when some entry shows it working, even if a later entry of the same
   * payload shows it finished: finished entries are skipped, they remove nothing.
   */
  lemma {:induction false} PayloadOrderIsCached(orders: seq<BrokerOrder>, id: string)
    ensures id in LoadOrders(orders)
       <==> exists i :: 0 <= i < |orders| && orders[i].orderId == id && IsWorking(orders[i])
  {
    hide IsWorking;
    if orders != [] {
      var n := |orders| - 1;
      PayloadOrderIsCached(orders[..n], id);
      if i :| 0 <= i < n && orders[..n][i].orderId == id && IsWorking(orders[..n][i]) {
        assert orders[i] == orders[..n][i];
      }
      if i :| 0 <= i < |orders| && orders[i].orderId == id && IsWorking(orders[i]) {
        if i < n {
          assert orders[..n][i] == orders[i];
        }
      }
    }
  }

  /**
   * When a full sync agrees with the payload's own last entry about an order: unless that entry shows it finished
   * and an earlier one shows it working. The order then stays cached although it is done.
   */
  lemma PayloadKeepsStaleOrder(orders: seq<BrokerOrder>, id: string, last: int)
    requires 0 <= last < |orders| && orders[last].orderId == id
    requires forall j :: last < j < |orders| ==> orders[j].orderId != id
    ensures (id in LoadOrders(orders) <==> IsWorking(orders[last])) <==>
      !(!IsWorking(orders[last]) && exists i :: 0 <= i < last && orders[i].orderId == id && IsWorking(orders[i]))
  {
    hide IsWorking, LoadOrders;
    PayloadOrderIsCached(orders, id);
  }

  /** Reported one by one instead of in one payload, the last entry always decides. */
  lemma UpdateDecides(s: CacheState, order: BrokerOrder, now: Time)
    ensures order.orderId in Apply(s, OrderProps(Reported(Some(order))), now).workingOrders <==> IsWorking(order)
  {
    hide IsWorking;
  }

  // ----- snapshots

  lemma ValuesAreTheMap<V>(m: map<string, V>)
    ensures |Values(m)| == |InOrder(m.Keys)|
    ensures forall v :: v in Values(m) <==> exists k :: k in m && m[k] == v
    ensures forall i :: 0 <= i < |Values(m)| ==> InOrder(m.Keys)[i] in m && Values(m)[i] == m[InOrder(m.Keys)[i]]
    ensures Values(m) == [] <==> m == map[]
  {
    var keys := InOrder(m.Keys);
    forall v ensures v in Values(m) <==> exists k :: k in m && m[k] == v {
      if k :| k in m && m[k] == v {
        assert k in keys;
        var i :| 0 <= i < |keys| && keys[i] == k;
        assert Values(m)[i] == v;
      }
      if v in Values(m) {
        var i :| 0 <= i < |keys| && Values(m)[i] == v;
        assert keys[i] in keys && m[keys[i]] == v;
      }
    }
    if m != map[] {
      var k :| k in m;
      assert m[k] in Values(m);
    }
  }

  ghost function BrokerSnapshotOf(snapshot: SyncSnapshot, selected: Option<string>): BrokerSnapshot {
    BrokerSnapshot(selected, snapshot.account, snapshot.positions, snapshot.workingOrders, snapshot.fills)
  }

  /**
   * What the cache hands on. Its snapshots list each order and each fill once and report exposure exactly when
   * something is cached; if the positions are of one account they satisfy what an exact sync of the history needs.
   */
  lemma CacheSnapshotsAreExact(ops: seq<CacheOp>, now: Time, selected: Option<string>)
    ensures var s, snapshot := CacheRun(ops), SnapshotOf(CacheRun(ops), now);
      && (HasOpenExposure(snapshot) <==> s.positions != map[] || s.workingOrders != map[])
      && UniqueOrders(snapshot.workingOrders)
      && (forall i, j :: 0 <= i < j < |snapshot.fills| ==> snapshot.fills[i].fillId != snapshot.fills[j].fillId)
      && ((forall a, b :: a in s.positions && b in s.positions ==>
        s.positions[a].accountId == s.positions[b].accountId) ==>
            UniqueIds(BrokerSnapshotOf(snapshot, selected)))
  {
    hide IsWorking, CacheRun, Values;
    OnlyLiveEntitiesAreCached(ops);
    var s := CacheRun(ops);
    ValuesAreTheMap(s.positions);
    ValuesAreTheMap(s.workingOrders);
    ValuesAreTheMap(s.fills);
    var positions := Values(s.positions);
    if s.positions != map[] {
      assert positions[0] == s.positions[InOrder(s.positions.Keys)[0]];
    }
    if forall a, b :: a in s.positions && b in s.positions ==> s.positions[a].accountId == s.positions[b].accountId {
      forall i, j | 0 <= i < j < |positions| ensures PositionKey(positions[i]) != PositionKey(positions[j]) {
        SameAccountKeys(positions[i], positions[j]);
      }
    }
  }

  lemma SameAccountKeys(p: BrokerPosition, q: BrokerPosition)
    requires p.accountId == q.accountId && p.symbol != q.symbol
    ensures PositionKey(p) != PositionKey(q)
  {
    var prefix := p.accountId.GetOr("unknown") + ":";
    assert (prefix + p.symbol)[|prefix|..] == p.symbol && (prefix + q.symbol)[|prefix|..] == q.symbol;
  }
}
