// Risk evaluation, planning and the broker adapter together.
module OrderPipeline {
  import opened Prelude
  import opened MarketTypes
  import opened BrokerTypes
  import opened StrategyTypes
  import opened TradovateOrders
  import opened ExecutionPlanner
  import opened PlanLaws
  import Risk = RiskEngine

  // ----- the adapter's validation

  predicate Submits(action: Action) {
    action.SubmitOrder? || action.SubmitOso?
  }

  predicate AdapterAccepts(action: Action) {
    match action
    case SubmitOrder(order) => ValidateOrder(order).None?
    case SubmitOso(oso) => ValidateOso(oso).None?
    case _ => true
  }

  lemma BracketsAreGood(management: TradeManagement, side: Side, quantity: u32, tickSize: Decimal, reference: Decimal)
    requires quantity > 0 && ProtectiveBrackets(management, side, quantity, tickSize, reference).Ok?
    ensures var brackets := ProtectiveBrackets(management, side, quantity, tickSize, reference).value;
      1 <= |brackets| <= 2 && forall i :: 0 <= i < |brackets| ==> GoodBracket(brackets[i], quantity)
  {
    var stop, profit := StopBracket(management, side, quantity, tickSize, reference),
      TakeProfitBracket(management, side, quantity, tickSize, reference);
    var brackets := stop + profit;
    forall i | 0 <= i < |brackets| ensures GoodBracket(brackets[i], quantity) {
      assert brackets[i] == if i < |stop| then stop[i] else profit[i - |stop|];
    }
  }

  /** An entry order carries the reference price where its type needs one, and no other price. */
  lemma EntryOrderIsPriced(instrument: InstrumentContext, side: Side, orderType: EntryOrderType, quantity: u32)
    requires EntryOrder(instrument, side, orderType, quantity).Ok?
    ensures var order := EntryOrder(instrument, side, orderType, quantity).value;
      var reference := instrument.entryReferencePrice;
      && order.symbol == instrument.symbol && order.quantity == quantity && order.side == side
      && HasRequiredPrices(order.orderType, order.limitPrice, order.stopPrice)
      && order.orderType.Market? == orderType.MarketEntry? && order.orderType.Limit? == orderType.LimitEntry?
      && order.orderType.Stop? == orderType.StopEntry?
      && order.limitPrice == (if orderType.LimitEntry? then reference else None)
      && order.stopPrice == (if orderType.StopEntry? then reference else None)
  {
  }

  lemma EntryActionValid(request: ExecutionRequest, quantity: u32)
    requires request.intent.Enter? && quantity > 0 && EntryAction(request, quantity).Ok?
    ensures AdapterAccepts(EntryAction(request, quantity).value) <==> !Blank(request.instrument.symbol)
  {
    hide ProtectiveBrackets, EntryOrder, Blank, HasRequiredPrices, GoodBracket;
    var intent := request.intent;
    EntryOrderIsPriced(request.instrument, intent.side, intent.orderType, quantity);
    if intent.bracketsExpected {
      BracketsAreGood(request.strategy.management, intent.side, quantity, request.instrument.tickSize,
                      request.instrument.entryReferencePrice.value);
    }
  }

  /** The adapter accepts everything a plan submits, exactly when the instrument's symbol is not blank. */
  lemma AdapterAcceptsPlans(request: ExecutionRequest, plan: Plan)
    requires PlanTradovate(request) == Ok(plan)
    ensures (forall a :: a in plan.actions ==> AdapterAccepts(a)) <==>
      !Blank(request.instrument.symbol) || forall a :: a in plan.actions ==> !Submits(a)
  {
    hide EntryAction, ResolveContractId, CancelActions, EntryPlan, Blank, FlattenPlan;
    match request.intent
    case Enter(_, _, _, _) =>
      EntryShape(request, plan);
      var quantity := OrderedQuantity(request);
      var entry := EntryAction(request, quantity).value;
      EntryActionValid(request, quantity);
      EntryActionFacts(request, quantity);
      assert plan.actions[|plan.actions| - 1] == entry && entry in plan.actions;
    case ReducePosition(_) =>
      SubmitsNothingToFlatten(request);
      assert plan.actions != [] ==> plan.actions[0] in plan.actions;
    case CancelWorkingOrders =>
      CancelReachesAll(request, request.state.workingOrders);
    case Exit =>
      SubmitsNothingToFlatten(request);
    case Flatten =>
      SubmitsNothingToFlatten(request);
    case PauseStrategy =>
  }

  lemma SubmitsNothingToFlatten(request: ExecutionRequest)
    ensures FlattenPlan(request).Ok? ==> forall a :: a in FlattenPlan(request).value.actions ==> a.LiquidatePosition?
  {
  }

  // ----- one intent from risk to broker

  /** The request the planner gets: the adjusted intent, for the strategy that was evaluated. */
  ghost predicate Follows(request: ExecutionRequest, risk: Risk.RiskRequest) {
    && risk.intent.Enter? && Risk.Evaluate(risk).status == Risk.Accepted
    && request.strategy == risk.strategy && request.intent == Risk.Evaluate(risk).adjustedIntent
  }

  lemma AcceptedIntent(request: ExecutionRequest, risk: Risk.RiskRequest)
    requires Follows(request, risk)
    ensures Risk.EntryQuantity(risk).Ok? && request.intent == risk.intent.(quantity := Risk.EntryQuantity(risk).value)
  {
    hide Risk.LimitReached, Risk.EntryQuantity, Risk.Missing, Risk.MissingWith, Risk.WarningsOf;
  }

  /** The price of a stop on the losing side of an entry, a number of ticks away. */
  predicate LosingSide(side: Side, reference: Decimal, stop: Decimal) {
    match side
    case Buy => stop < reference
    case Sell => stop > reference
  }

  lemma StopIsOnLosingSide(reference: Decimal, tickSize: Decimal, ticks: u32, side: Side)
    requires tickSize > 0 && ticks > 0
    ensures LosingSide(side, reference, OffsetPrice(reference, tickSize, ticks, Opposite(side)))
    ensures Abs(reference - OffsetPrice(reference, tickSize, ticks, Opposite(side))) == ticks * tickSize
  {
    Risk.ProductPositive(tickSize, ticks);
  }

  /** What an OSO entry carries when a stop is configured. */
  lemma FirstBracketIsTheStop(request: ExecutionRequest, quantity: u32)
    requires request.intent.Enter? && request.intent.bracketsExpected && EntryAction(request, quantity).Ok?
    requires request.strategy.management.initialStopTicks > 0 && request.instrument.tickSize > 0
    ensures var oso, side := EntryAction(request, quantity).value.oso, request.intent.side;
      && request.instrument.entryReferencePrice.Some? && oso.brackets != []
      && var reference, stop := request.instrument.entryReferencePrice.value, oso.brackets[0];
         && stop.orderType == Stop && stop.side == Opposite(side)
         && stop.quantity == Some(quantity) && stop.stopPrice.Some?
         && LosingSide(side, reference, stop.stopPrice.value)
         && Abs(reference - stop.stopPrice.value)
            == request.strategy.management.initialStopTicks * request.instrument.tickSize
  {
    hide OffsetPrice, LosingSide, TakeProfitBracket;
    StopIsOnLosingSide(request.instrument.entryReferencePrice.value, request.instrument.tickSize,
                       request.strategy.management.initialStopTicks, request.intent.side);
    hide EntryOrder;
  }

  /** The price of a take-profit on the winning side of an entry. */
  predicate WinningSide(side: Side, reference: Decimal, limit: Decimal) {
    LosingSide(Opposite(side), reference, limit)
  }

  /**
   * The brackets are the configured ones and no others; a take-profit comes last, its ticks away on the winning
   * side.
   */
  lemma LastBracketIsTheTakeProfit(request: ExecutionRequest, quantity: u32)
    requires request.intent.Enter? && request.intent.bracketsExpected && EntryAction(request, quantity).Ok?
    requires request.instrument.tickSize > 0
    ensures var management, brackets := request.strategy.management, EntryAction(request, quantity).value.oso.brackets;
      && request.instrument.entryReferencePrice.Some?
      && |brackets|
         == (if management.initialStopTicks > 0 then 1 else 0) + (if management.takeProfitTicks > 0 then 1 else 0)
      && (management.takeProfitTicks > 0 ==>
            var reference, last := request.instrument.entryReferencePrice.value, brackets[|brackets| - 1];
            && last.orderType == Limit && last.side == Opposite(request.intent.side) && last.quantity == Some(quantity)
            && last.stopPrice.None? && last.limitPrice.Some?
            && WinningSide(request.intent.side, reference, last.limitPrice.value)
            && Abs(reference - last.limitPrice.value) == management.takeProfitTicks * request.instrument.tickSize)
  {
    hide OffsetPrice, LosingSide;
    if request.strategy.management.takeProfitTicks > 0 {
      StopIsOnLosingSide(request.instrument.entryReferencePrice.value, request.instrument.tickSize,
                         request.strategy.management.takeProfitTicks, Opposite(request.intent.side));
    }
    hide EntryOrder;
  }

  /**
   * From risk to broker. An accepted entry that is planned submits one order, its last action: for the approved
   * quantity, plus the opposite position only on a direct reversal, non-zero and within the contract bounds. A
   * broker-required stop travels with the order, on the losing side of the reference price.
   */
  lemma AcceptedEntriesReachTheBroker(request: ExecutionRequest, risk: Risk.RiskRequest, plan: Plan)
    requires Follows(request, risk) && PlanTradovate(request) == Ok(plan)
    ensures var approved, sizing := Risk.Evaluate(risk).approvedQuantity, request.strategy.sizing;
      var net, side := request.state.Net(), request.intent.side;
      && plan.actions != [] && approved.Some? && approved.value > 0
      && (sizing.minContracts.Some? ==> sizing.minContracts.value <= approved.value)
      && (sizing.maxContracts.Some? ==> approved.value <= sizing.maxContracts.value)
      && var last := plan.actions[|plan.actions| - 1];
         && EntryAction(request, OrderedQuantity(request)) == Ok(last)
         && (forall n, held :: AfterAction(n, held, last) == n + Signed(side, OrderedQuantity(request)))
         && (net == 0 || SideForPosition(net) == side || request.strategy.execution.reversalMode == FlattenFirst ==>
               OrderedQuantity(request) == approved.value)
         && (forall i :: 0 <= i < |plan.actions| - 1 ==> plan.actions[i].LiquidatePosition?)
         && (!Blank(request.instrument.symbol) ==> AdapterAccepts(last))
         && (request.strategy.execution.stopLoss == BrokerRequired ==>
               && last.SubmitOso? && last.oso.brackets != [] && request.instrument.entryReferencePrice.Some?
               && var stop := last.oso.brackets[0];
                  && stop.orderType == Stop && stop.side == Opposite(side) && stop.stopPrice.Some?
                  && LosingSide(side, request.instrument.entryReferencePrice.value, stop.stopPrice.value))
  {
    hide PlanTradovate, EntryAction, Risk.EntryQuantity, Risk.Evaluate, Blank, LosingSide, Risk.LimitReached;
    AcceptedIntent(request, risk);
    Risk.EntryDecision(risk);
    Risk.ApprovedWithinBounds(risk);
    EntryShape(request, plan);
    var quantity := OrderedQuantity(request);
    EntryActionFacts(request, quantity);
    EntryActionValid(request, quantity);
    RequiredStopIsConfigured(request, plan);
    if request.strategy.execution.stopLoss == BrokerRequired {
      FirstBracketIsTheStop(request, quantity);
    }
  }

  lemma RequiredStopIsConfigured(request: ExecutionRequest, plan: Plan)
    requires request.intent.Enter? && PlanTradovate(request) == Ok(plan)
    ensures request.strategy.execution.stopLoss == BrokerRequired ==>
      request.intent.bracketsExpected && request.strategy.management.initialStopTicks > 0
  {
    hide EntryAction, Reversal, ManagementSupport;
  }

  /**
   * What the stop costs, both sides times the tick size. The approved contracts lose at most `maxRiskUsd` at their
   * stop exactly if the budget pays for one contract and the minimum stays within it. The stop order itself covers
   * the whole entry order, so its fill stays within the budget exactly if that order does; after a direct reversal
   * it also covers the position that was reversed.
   */
  lemma StopLossWithinBudget(request: ExecutionRequest, risk: Risk.RiskRequest, plan: Plan)
    requires Follows(request, risk) && PlanTradovate(request) == Ok(plan)
    requires request.intent.bracketsExpected && request.strategy.sizing.mode == RiskBasedSizing
    ensures request.strategy.sizing.maxRiskUsd.GetOr(0) > 0 && risk.tickValueUsd.Some?
    ensures Risk.RiskPerContract(request.strategy, risk.tickValueUsd.value) > 0
    ensures plan.actions != [] && plan.actions[|plan.actions| - 1].SubmitOso?
    ensures var oso, tickValue := plan.actions[|plan.actions| - 1].oso, risk.tickValueUsd.value;
      var maxRisk := request.strategy.sizing.maxRiskUsd.value;
      var budget := maxRisk * request.instrument.tickSize;
      var affordable := Risk.AffordableContracts(maxRisk, Risk.RiskPerContract(request.strategy, tickValue));
      && request.instrument.entryReferencePrice.Some? && oso.brackets != [] && oso.brackets[0].stopPrice.Some?
      && oso.brackets[0].quantity == Some(OrderedQuantity(request))
      && var distance := Abs(request.instrument.entryReferencePrice.value - oso.brackets[0].stopPrice.value);
         && (distance * tickValue * request.intent.quantity <= budget
             <==> affordable >= 1 && request.strategy.sizing.minContracts.GetOr(0) <= affordable)
         && (distance * tickValue * OrderedQuantity(request) <= budget <==> OrderedQuantity(request) <= affordable)
  {
    hide PlanTradovate, EntryAction, LosingSide, Risk.RiskPerContract, Risk.AffordableContracts;
    AcceptedIntent(request, risk);
    var strategy, tickValue := request.strategy, risk.tickValueUsd.value;
    var q, ordered := request.intent.quantity, OrderedQuantity(request);
    EntryShape(request, plan);
    EntryActionFacts(request, ordered);
    Risk.RiskSizingSucceeds(strategy, Some(tickValue));
    Risk.RiskBudget(strategy, tickValue);
    FirstBracketIsTheStop(request, ordered);
    var unit, maxRisk := Risk.RiskPerContract(strategy, tickValue), strategy.sizing.maxRiskUsd.value;
    Risk.AffordableIsFloor(maxRisk, unit, ordered);
    LossAtStop(strategy, request.instrument.tickSize, tickValue, q, maxRisk);
    LossAtStop(strategy, request.instrument.tickSize, tickValue, ordered, maxRisk);
  }

  lemma LossAtStop(strategy: CompiledStrategy, tickSize: Decimal, tickValue: Decimal, q: int, maxRisk: Decimal)
    requires tickSize > 0
    ensures strategy.management.initialStopTicks * tickSize * tickValue * q <= maxRisk * tickSize
       <==> q * Risk.RiskPerContract(strategy, tickValue) <= maxRisk
  {
    var ticks := strategy.management.initialStopTicks;
    var loss := q * (ticks * tickValue);
    assert ticks * tickSize * tickValue * q == loss * tickSize;
    if loss <= maxRisk {
      Risk.MultiplyMonotone(loss, maxRisk, tickSize);
    } else {
      Risk.MultiplyMonotone(maxRisk + 1, loss, tickSize);
      assert (maxRisk + 1) * tickSize == maxRisk * tickSize + tickSize;
    }
  }

  /**
   * A stop that fills in full takes back exactly what its entry ordered: the position returns to what it was when
   * the order was sent. So it leaves the account flat exactly when the entry started flat or flattened the contract
   * held first; after a direct reversal it restores the opposite position, because the bracket covers the whole order.
   */
  lemma StopTakesBackTheOrder(request: ExecutionRequest, held: int, plan: Plan)
    requires request.intent.Enter? && request.intent.bracketsExpected && PlanTradovate(request) == Ok(plan)
    requires request.strategy.management.initialStopTicks > 0
    ensures plan.actions != [] && plan.actions[|plan.actions| - 1].SubmitOso?
    ensures var oso, net := plan.actions[|plan.actions| - 1].oso, request.state.Net();
      && oso.brackets != []
      && var stopped := Outcome(request, held, plan) + Signed(oso.brackets[0].side, oso.brackets[0].quantity.GetOr(0));
         && stopped == AfterActions(net, held, plan.actions[..|plan.actions| - 1])
         && (stopped == 0 <==> net == 0 || (|plan.actions| == 2 && ResolveContractId(request) == Some(held)))
         && (|plan.actions| == 2 <==> net != 0 && SideForPosition(net) != request.intent.side
                                      && request.strategy.execution.reversalMode == FlattenFirst)
  {
    hide PlanTradovate, EntryAction, ResolveContractId, LosingSide;
    EntryShape(request, plan);
    EntryResolves(request, plan);
    var quantity := OrderedQuantity(request);
    EntryActionFacts(request, quantity);
    FirstBracketIsTheStop(request, quantity);
    AfterNone(request.state.Net(), held);
    if |plan.actions| == 2 {
      assert plan.actions[..1] == [plan.actions[0]];
      AfterOne(request.state.Net(), held, plan.actions[0]);
    }
  }
}
