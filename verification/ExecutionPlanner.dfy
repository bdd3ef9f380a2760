// Compiling an execution intent into broker actions, and dispatching them.
module ExecutionPlanner {
  import opened Prelude
  import opened MarketTypes
  import opened BrokerTypes
  import opened StrategyTypes
  import opened TradovateOrders

  datatype InstrumentContext = InstrumentContext(
    symbol: string,
    tickSize: Decimal,
    entryReferencePrice: Option<Decimal>,
    activeContractId: Option<int>)

  datatype ExecutionState = ExecutionState(
    runtimeCanSubmitOrders: bool,
    newEntriesAllowed: bool,
    currentPosition: Option<BrokerPosition>,
    workingOrders: seq<BrokerOrder>)
  {
    /** The net position the broker reported; none counts as flat. */
    function Net(): int {
      if currentPosition.Some? then currentPosition.value.quantity else 0
    }
  }

  datatype ExecutionRequest = ExecutionRequest(
    strategy: CompiledStrategy,
    instrument: InstrumentContext,
    state: ExecutionState,
    intent: ExecutionIntent)

  datatype Action =
    | SubmitOrder(order: OrderPlacement)
    | SubmitOso(oso: OsoOrderPlacement)
    | CancelOrder(orderId: int, symbol: string)
    | LiquidatePosition(contractId: int)
    | Pause

  datatype PlanWarning = NothingToFlatten | BreakEvenNotTranslated | TrailingNotTranslated

  datatype Plan = Plan(actions: seq<Action>, warnings: seq<PlanWarning>)

  datatype Feature = PartialTakeProfit | TrailingStopFeature

  datatype PlanError =
    | OrderPlacementBlocked
    | NewEntriesBlocked
    | InvalidTickSize
    | InvalidEntryQuantity
    | InvalidReductionQuantity
    | MissingEntryReferencePrice
    | MissingProtectiveReferencePrice
    | MissingOpenPosition
    | MissingContractId
    | MissingWorkingOrders
    | InvalidWorkingOrderId(brokerOrderId: string)
    | UnsupportedEntryOrderType
    | ScaleInDisabled
    | ScaleInMaxLegsReached
    | UnsupportedBrokerRequiredFeature(feature: Feature)
    | MissingRequiredProtectiveBracket

  // ----- ids

  const CONTRACT_PREFIX := "contract:"

  function ContractIdOfSymbol(symbol: string): Option<int> {
    if CONTRACT_PREFIX <= symbol then ParseI64(symbol[|CONTRACT_PREFIX|..]) else None
  }

  /** The symbol a position without a contract name gets leads back to its contract id. */
  lemma ContractSymbolResolves(id: int)
    requires -0x8000_0000_0000_0000 <= id <= 0x7FFF_FFFF_FFFF_FFFF
    ensures ContractIdOfSymbol(CONTRACT_PREFIX + IntString(id)) == Some(id)
  {
    hide ParseI64, IntString;
    assert (CONTRACT_PREFIX + IntString(id))[|CONTRACT_PREFIX|..] == IntString(id);
    ParsePrintedI64(id);
  }

  function ResolveContractId(request: ExecutionRequest): Option<int> {
    var fromSymbol := match request.state.currentPosition
                      case Some(position) => ContractIdOfSymbol(position.symbol)
                      case None => None;
    request.instrument.activeContractId.Or(fromSymbol)
  }

  // ----- prices

  function SideForPosition(quantity: int): Side {
    if quantity >= 0 then Buy else Sell
  }

  function OffsetPrice(reference: Decimal, tickSize: Decimal, ticks: u32, direction: Side): Decimal {
    var offset := tickSize * ticks;
    match direction
    case Buy => reference + offset
    case Sell => reference - offset
  }

  function EntryPrices(orderType: EntryOrderType, reference: Option<Decimal>)
    : Result<(TradovateOrderType, Option<Decimal>, Option<Decimal>), PlanError>
  {
    match orderType
    case MarketEntry => Ok((Market, None, None))
    case LimitEntry => if reference.Some? then Ok((Limit, reference, None)) else Err(MissingEntryReferencePrice)
    case StopEntry => if reference.Some? then Ok((Stop, None, reference)) else Err(MissingEntryReferencePrice)
    case StopLimitEntry => Err(UnsupportedEntryOrderType)
  }

  function EntryOrder(instrument: InstrumentContext, side: Side, orderType: EntryOrderType, quantity: u32)
    : Result<OrderPlacement, PlanError>
  {
    match EntryPrices(orderType, instrument.entryReferencePrice)
    case Err(e) => Err(e)
    case Ok((kind, limit, stop)) =>
      Ok(OrderPlacement(instrument.symbol, side, quantity, kind, limit, stop, Some(Day), true))
  }

  // ----- protective brackets

  function StopBracket(management: TradeManagement, side: Side, quantity: u32, tickSize: Decimal, reference: Decimal)
    : seq<BracketOrder>
  {
    if management.initialStopTicks == 0 then []
    else
      var price := OffsetPrice(reference, tickSize, management.initialStopTicks, Opposite(side));
      [BracketOrder(Opposite(side), Some(quantity), Stop, None, Some(price), Some(Gtc))]
  }

  function TakeProfitBracket(management: TradeManagement, side: Side, quantity: u32, tickSize: Decimal,
                             reference: Decimal)
    : seq<BracketOrder>
  {
    if management.takeProfitTicks == 0 then []
    else
      var price := OffsetPrice(reference, tickSize, management.takeProfitTicks, side);
      [BracketOrder(Opposite(side), Some(quantity), Limit, Some(price), None, Some(Gtc))]
  }

  function ProtectiveBrackets(management: TradeManagement, side: Side, quantity: u32, tickSize: Decimal,
                              reference: Decimal)
    : Result<seq<BracketOrder>, PlanError>
  {
    var brackets := StopBracket(management, side, quantity, tickSize, reference)
                  + TakeProfitBracket(management, side, quantity, tickSize, reference);
    if brackets == [] then Err(MissingRequiredProtectiveBracket) else Ok(brackets)
  }

  method BuildProtectiveBrackets(management: TradeManagement, side: Side, quantity: u32, tickSize: Decimal,
                                 reference: Decimal) returns (r: Result<seq<BracketOrder>, PlanError>)
    ensures r == ProtectiveBrackets(management, side, quantity, tickSize, reference)
  {
    var brackets := [];
    var exitSide := Opposite(side);
    if management.initialStopTicks > 0 {
      brackets := brackets + [BracketOrder(exitSide, Some(quantity), Stop, None,
        Some(OffsetPrice(reference, tickSize, management.initialStopTicks, exitSide)), Some(Gtc))];
    }
    if management.takeProfitTicks > 0 {
      brackets := brackets + [BracketOrder(exitSide, Some(quantity), Limit,
        Some(OffsetPrice(reference, tickSize, management.takeProfitTicks, side)), None, Some(Gtc))];
    }
    if brackets == [] {
      return Err(MissingRequiredProtectiveBracket);
    }
    assert brackets == StopBracket(management, side, quantity, tickSize, reference)
                       + TakeProfitBracket(management, side, quantity, tickSize, reference);
    assert brackets[..Min(2, |brackets|)] == brackets;
    return Ok(brackets[..Min(2, |brackets|)]);
  }

  function EntryOso(strategy: CompiledStrategy, instrument: InstrumentContext, side: Side, orderType: EntryOrderType,
                    quantity: u32): Result<OsoOrderPlacement, PlanError>
  {
    match EntryOrder(instrument, side, orderType, quantity)
    case Err(e) => Err(e)
    case Ok(entry) =>
      if instrument.entryReferencePrice.None? then Err(MissingProtectiveReferencePrice)
      else
        match ProtectiveBrackets(strategy.management, side, quantity, instrument.tickSize,
                                 instrument.entryReferencePrice.value)
        case Err(e) => Err(e)
        case Ok(brackets) => Ok(OsoOrderPlacement(entry, brackets))
  }

  // ----- entries

  function ManagementSupport(strategy: CompiledStrategy): Result<seq<PlanWarning>, PlanError> {
    var breakEven := if strategy.management.breakEvenEnabled then [BreakEvenNotTranslated] else [];
    if strategy.management.partialTakeProfitActive then Err(UnsupportedBrokerRequiredFeature(PartialTakeProfit))
    else if !strategy.management.trailingEnabled then Ok(breakEven)
    else if strategy.execution.trailingStop == BrokerRequired then
      Err(UnsupportedBrokerRequiredFeature(TrailingStopFeature))
    else Ok(breakEven + [TrailingNotTranslated])
  }

  predicate ProtectionConfigured(strategy: CompiledStrategy, bracketsExpected: bool) {
    var stopRequired := strategy.execution.stopLoss == BrokerRequired;
    var takeProfitRequired := strategy.execution.takeProfit == BrokerRequired;
    && (stopRequired || takeProfitRequired ==> bracketsExpected)
    && (stopRequired ==> strategy.management.initialStopTicks > 0)
    && (takeProfitRequired ==> strategy.management.takeProfitTicks > 0)
  }

  function SaturatingAddU32(a: u32, b: nat): u32 {
    if a + b > U32_MAX then U32_MAX else a + b
  }

  /** What an open position adds to an entry: actions to run first, and the quantity to order. */
  function Reversal(request: ExecutionRequest): Result<(seq<Action>, u32), PlanError>
    requires request.intent.Enter?
  {
    var execution, net, quantity := request.strategy.execution, request.state.Net(), request.intent.quantity;
    if net == 0 then Ok(([], quantity))
    else if SideForPosition(net) == request.intent.side then
      if !execution.allowScaleIn then Err(ScaleInDisabled)
      else if Abs(net) >= execution.maxLegs then Err(ScaleInMaxLegsReached)
      else Ok(([], quantity))
    else
      match execution.reversalMode
      case FlattenFirst =>
        (match ResolveContractId(request)
         case Some(id) => Ok(([LiquidatePosition(id)], quantity))
         case None => Err(MissingContractId))
      case DirectReverse => Ok(([], SaturatingAddU32(quantity, Abs(net))))
  }

  function EntryAction(request: ExecutionRequest, quantity: u32): Result<Action, PlanError>
    requires request.intent.Enter?
  {
    var side, orderType := request.intent.side, request.intent.orderType;
    if request.intent.bracketsExpected then
      match EntryOso(request.strategy, request.instrument, side, orderType, quantity)
      case Ok(oso) => Ok(SubmitOso(oso))
      case Err(e) => Err(e)
    else
      match EntryOrder(request.instrument, side, orderType, quantity)
      case Ok(order) => Ok(SubmitOrder(order))
      case Err(e) => Err(e)
  }

  function EntryPlan(request: ExecutionRequest): Result<Plan, PlanError>
    requires request.intent.Enter?
  {
    if !request.state.runtimeCanSubmitOrders then Err(OrderPlacementBlocked)
    else if !request.state.newEntriesAllowed then Err(NewEntriesBlocked)
    else if request.intent.quantity == 0 then Err(InvalidEntryQuantity)
    else
      match ManagementSupport(request.strategy)
      case Err(e) => Err(e)
      case Ok(warnings) =>
        if !ProtectionConfigured(request.strategy, request.intent.bracketsExpected) then
          Err(MissingRequiredProtectiveBracket)
        else
          match Reversal(request)
          case Err(e) => Err(e)
          case Ok((first, quantity)) =>
            match EntryAction(request, quantity)
            case Err(e) => Err(e)
            case Ok(entry) => Ok(Plan(first + [entry], warnings))
  }

  /** `assess_trade_management_support`: collects warnings until a feature turns out to be impossible. */
  method AssessManagement(strategy: CompiledStrategy) returns (r: Result<seq<PlanWarning>, PlanError>)
    ensures r == ManagementSupport(strategy)
  {
    var warnings := [];
    if strategy.management.partialTakeProfitActive {
      return Err(UnsupportedBrokerRequiredFeature(PartialTakeProfit));
    }
    if strategy.management.breakEvenEnabled {
      warnings := warnings + [BreakEvenNotTranslated];
    }
    if strategy.management.trailingEnabled {
      if strategy.execution.trailingStop == BrokerRequired {
        return Err(UnsupportedBrokerRequiredFeature(TrailingStopFeature));
      }
      warnings := warnings + [TrailingNotTranslated];
    }
    assert [] + [BreakEvenNotTranslated] == [BreakEvenNotTranslated];
    return Ok(warnings);
  }

  method EnsureProtectionConfigured(strategy: CompiledStrategy, bracketsExpected: bool) returns (missing: bool)
    ensures missing <==> !ProtectionConfigured(strategy, bracketsExpected)
  {
    var stopRequired := strategy.execution.stopLoss == BrokerRequired;
    var takeProfitRequired := strategy.execution.takeProfit == BrokerRequired;
    if (stopRequired || takeProfitRequired) && !bracketsExpected {
      return true;
    }
    if stopRequired && strategy.management.initialStopTicks == 0 {
      return true;
    }
    return takeProfitRequired && strategy.management.takeProfitTicks == 0;
  }

  method PlanEntry(request: ExecutionRequest) returns (r: Result<Plan, PlanError>)
    requires request.intent.Enter?
    ensures r == EntryPlan(request)
  {
    hide EntryOso, EntryOrder, ManagementSupport, ProtectionConfigured, ResolveContractId;
    var strategy, intent := request.strategy, request.intent;
    if !request.state.runtimeCanSubmitOrders {
      return Err(OrderPlacementBlocked);
    }
    if !request.state.newEntriesAllowed {
      return Err(NewEntriesBlocked);
    }
    if intent.quantity == 0 {
      return Err(InvalidEntryQuantity);
    }
    var support := AssessManagement(strategy);
    if support.Err? {
      return Err(support.error);
    }
    var missing := EnsureProtectionConfigured(strategy, intent.bracketsExpected);
    if missing {
      return Err(MissingRequiredProtectiveBracket);
    }

    var actions: seq<Action> := [];
    var effective := intent.quantity;
    var net := request.state.Net();
    if net != 0 {
      if SideForPosition(net) == intent.side {
        if !strategy.execution.allowScaleIn {
          return Err(ScaleInDisabled);
        }
        if Abs(net) >= strategy.execution.maxLegs {
          return Err(ScaleInMaxLegsReached);
        }
      } else {
        match strategy.execution.reversalMode {
          case FlattenFirst =>
            var contractId := ResolveContractId(request);
            if contractId.None? {
              return Err(MissingContractId);
            }
            actions := [LiquidatePosition(contractId.value)];
          case DirectReverse =>
            effective := SaturatingAddU32(effective, Abs(net));
        }
      }
    }
    match EntryAction(request, effective) {
      case Err(e) => return Err(e);
      case Ok(entry) => actions := actions + [entry];
    }
    assert Reversal(request) == Ok((actions[..|actions| - 1], effective));
    return Ok(Plan(actions, support.value));
  }

  // ----- the other intents

  function FlattenPlan(request: ExecutionRequest): Result<Plan, PlanError> {
    if request.state.Net() == 0 then Ok(Plan([], [NothingToFlatten]))
    else
      match ResolveContractId(request)
      case Some(id) => Ok(Plan([LiquidatePosition(id)], []))
      case None => Err(MissingContractId)
  }

  function ReducePlan(request: ExecutionRequest): Result<Plan, PlanError>
    requires request.intent.ReducePosition?
  {
    var net, quantity := request.state.Net(), request.intent.reduceBy;
    if !request.state.runtimeCanSubmitOrders then Err(OrderPlacementBlocked)
    else if quantity == 0 then Err(InvalidReductionQuantity)
    else if net == 0 then Err(MissingOpenPosition)
    else if quantity >= Abs(net) then FlattenPlan(request)
    else
      Ok(Plan([SubmitOrder(OrderPlacement(request.instrument.symbol, Opposite(SideForPosition(net)), quantity,
                                          Market, None, None, Some(Day), true))], []))
  }

  /** A working order of the instrument: what a cancel-all has to reach. */
  predicate Cancellable(request: ExecutionRequest, order: BrokerOrder) {
    SameSymbol(order.symbol, request.instrument.symbol) && order.status == WorkingOrder
  }

  /** Cancels for the matching orders; the first id that does not parse fails the whole plan. */
  function CancelActions(request: ExecutionRequest, orders: seq<BrokerOrder>): Result<seq<Action>, PlanError> {
    if orders == [] then Ok([])
    else
      var n := |orders| - 1;
      match CancelActions(request, orders[..n])
      case Err(e) => Err(e)
      case Ok(actions) =>
        if !Cancellable(request, orders[n]) then Ok(actions)
        else
          match ParseI64(orders[n].orderId)
          case Some(id) => Ok(actions + [CancelOrder(id, orders[n].symbol)])
          case None => Err(InvalidWorkingOrderId(orders[n].orderId))
  }

  function CancelPlan(request: ExecutionRequest): Result<Plan, PlanError> {
    match CancelActions(request, request.state.workingOrders)
    case Err(e) => Err(e)
    case Ok(actions) => if actions == [] then Err(MissingWorkingOrders) else Ok(Plan(actions, []))
  }

  /** Cancelling reaches every working order of the symbol, or nothing: exactly when each of their ids parses. */
  lemma {:induction false} CancelReachesAll(request: ExecutionRequest, orders: seq<BrokerOrder>)
    ensures CancelActions(request, orders).Ok? <==>
      forall order :: order in orders && Cancellable(request, order) ==> ParseI64(order.orderId).Some?
    ensures CancelActions(request, orders).Ok? ==>
      forall id, symbol :: CancelOrder(id, symbol) in CancelActions(request, orders).value <==>
        exists order :: order in orders && Cancellable(request, order) && ParseI64(order.orderId) == Some(id)
                        && order.symbol == symbol
    ensures CancelActions(request, orders).Ok? ==>
      forall a :: a in CancelActions(request, orders).value ==> a.CancelOrder?
  {
    hide ParseI64, Cancellable;
    if orders != [] {
      var n := |orders| - 1;
      CancelReachesAll(request, orders[..n]);
      assert orders == orders[..n] + [orders[n]];
    }
  }

  function PlanTradovate(request: ExecutionRequest): Result<Plan, PlanError> {
    if request.instrument.tickSize <= 0 then Err(InvalidTickSize)
    else
      match request.intent
      case Enter(_, _, _, _) => EntryPlan(request)
      case Exit => FlattenPlan(request)
      case Flatten => FlattenPlan(request)
      case ReducePosition(_) => ReducePlan(request)
      case PauseStrategy => Ok(Plan([Pause], []))
      case CancelWorkingOrders => CancelPlan(request)
  }

  // ----- dispatch

  datatype DispatchResult =
    | OrderSubmitted(orderId: int, symbol: string, usedBrackets: bool)
    | OrderCancelled(orderId: int, symbol: string)
    | PositionLiquidated(orderId: int, contractId: int)
    | StrategyPaused

  function ResultOf(action: Action, orderId: int): DispatchResult {
    match action
    case SubmitOrder(order) => OrderSubmitted(orderId, order.symbol, false)
    case SubmitOso(oso) => OrderSubmitted(orderId, oso.entry.symbol, true)
    case CancelOrder(_, symbol) => OrderCancelled(orderId, symbol)
    case LiquidatePosition(contractId) => PositionLiquidated(orderId, contractId)
    case Pause => StrategyPaused
  }

  /**
   * Runs the actions in order and stops at the first one the broker refuses. `replies[i]` is the broker's answer
   * to action `i`: an order id, or none if it fails; pausing asks the broker nothing.
   */
  method ExecutePlan(plan: Plan, replies: seq<Option<int>>) returns (report: Option<seq<DispatchResult>>, done: nat)
    requires |replies| == |plan.actions|
    ensures done <= |plan.actions|
    ensures forall i :: 0 <= i < done ==> plan.actions[i].Pause? || replies[i].Some?
    ensures done < |plan.actions| ==> !plan.actions[done].Pause? && replies[done].None?
    ensures report.Some? <==> done == |plan.actions|
    ensures report.Some? ==> |report.value| == |plan.actions| && forall i :: 0 <= i < |plan.actions| ==>
      report.value[i] == ResultOf(plan.actions[i], replies[i].GetOr(0))
  {
    var results: seq<DispatchResult> := [];
    done := 0;
    while done < |plan.actions|
      invariant done <= |plan.actions|
      invariant forall i :: 0 <= i < done ==> plan.actions[i].Pause? || replies[i].Some?
      invariant |results| == done
      invariant forall i :: 0 <= i < done ==> results[i] == ResultOf(plan.actions[i], replies[i].GetOr(0))
    {
      var action := plan.actions[done];
      if !action.Pause? && replies[done].None? {
        return None, done;
      }
      results := results + [ResultOf(action, replies[done].GetOr(0))];
      done := done + 1;
    }
    report := Some(results);
  }
}
