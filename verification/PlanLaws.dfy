// What plans mean: their effect on the net position, also when their execution is cut short.
module PlanLaws {
  import opened Prelude
  import opened MarketTypes
  import opened BrokerTypes
  import opened StrategyTypes
  import opened ExecutionPlanner

  // ----- the meaning of actions

  function Signed(side: Side, quantity: int): int {
    match side
    case Buy => quantity
    case Sell => -quantity
  }

  /**
   * The net position in the contract `held` once an action has been carried out and filled; brackets only rest at
   * the broker, and liquidating another contract leaves this position alone.
   */
  function AfterAction(net: int, held: int, action: Action): int {
    match action
    case SubmitOrder(order) => net + Signed(order.side, order.quantity)
    case SubmitOso(oso) => net + Signed(oso.entry.side, oso.entry.quantity)
    case LiquidatePosition(contractId) => if contractId == held then 0 else net
    case CancelOrder(_, _) => net
    case Pause => net
  }

  function AfterActions(net: int, held: int, actions: seq<Action>): int {
    if actions == [] then net
    else AfterAction(AfterActions(net, held, actions[..|actions| - 1]), held, actions[|actions| - 1])
  }

  lemma AfterOne(net: int, held: int, a: Action)
    ensures AfterActions(net, held, [a]) == AfterAction(net, held, a)
  {
    assert [a][..0] == [];
  }

  lemma AfterTwo(net: int, held: int, a: Action, b: Action)
    ensures AfterActions(net, held, [a, b]) == AfterAction(AfterAction(net, held, a), held, b)
  {
    assert [a, b][..1] == [a];
    AfterOne(net, held, a);
  }

  function Outcome(request: ExecutionRequest, held: int, plan: Plan): int {
    AfterActions(request.state.Net(), held, plan.actions)
  }

  // ----- entries

  /** The order an entry submits: its side, and the quantity with the opposite position added on a direct reversal. */
  function OrderedQuantity(request: ExecutionRequest): u32
    requires request.intent.Enter?
  {
    var net, q := request.state.Net(), request.intent.quantity;
    var opposite := net != 0 && SideForPosition(net) != request.intent.side;
    if opposite && request.strategy.execution.reversalMode == DirectReverse
    then SaturatingAddU32(q, Abs(net))
    else q
  }

  /** An accepted entry is its order, preceded by a liquidation exactly on a flatten-first reversal. */
  lemma EntryShape(request: ExecutionRequest, plan: Plan)
    requires request.intent.Enter? && PlanTradovate(request) == Ok(plan)
    ensures var net, side := request.state.Net(), request.intent.side;
      var entry, flips := EntryAction(request, OrderedQuantity(request)), net != 0 && SideForPosition(net) != side;
      && request.intent.quantity > 0 && request.instrument.tickSize > 0 && entry.Ok?
      && plan.actions == if flips && request.strategy.execution.reversalMode == FlattenFirst
                         then [LiquidatePosition(ResolveContractId(request).GetOr(0)), entry.value] else [entry.value]
  {
    hide EntryAction, ManagementSupport, ProtectionConfigured, ResolveContractId;
    assert EntryPlan(request) == Ok(plan);
    assert Reversal(request).Ok?;
  }

  /** A flatten-first reversal has a contract to liquidate. */
  lemma EntryResolves(request: ExecutionRequest, plan: Plan)
    requires request.intent.Enter? && PlanTradovate(request) == Ok(plan)
    ensures var flips := request.state.Net() != 0 && SideForPosition(request.state.Net()) != request.intent.side;
      flips && request.strategy.execution.reversalMode == FlattenFirst ==> ResolveContractId(request).Some?
  {
    hide EntryAction, ManagementSupport, ProtectionConfigured, ResolveContractId;
    assert Reversal(request).Ok?;
  }

  lemma EntryActionFacts(request: ExecutionRequest, quantity: u32)
    requires request.intent.Enter? && EntryAction(request, quantity).Ok?
    ensures var action := EntryAction(request, quantity).value;
      && (action.SubmitOso? <==> request.intent.bracketsExpected) && (action.SubmitOrder? || action.SubmitOso?)
      && forall net, held :: AfterAction(net, held, action) == net + Signed(request.intent.side, quantity)
  {
    hide ProtectiveBrackets;
  }

  /**
   * An accepted entry moves a flat or same-side position by its quantity. An opposite position ends at the bare
   * quantity on the new side: flattening first exactly when the liquidated contract is the one held, and on a direct
   * reversal exactly when the order that covers both fits 32 bits.
   */
  lemma EntryMeansItsIntent(request: ExecutionRequest, held: int, plan: Plan)
    requires request.intent.Enter? && PlanTradovate(request) == Ok(plan)
    ensures var net, side, q := request.state.Net(), request.intent.side, request.intent.quantity;
      var flips := net != 0 && SideForPosition(net) != side;
      && (!flips ==> Outcome(request, held, plan) == net + Signed(side, q))
      && (flips && request.strategy.execution.reversalMode == FlattenFirst ==>
            (Outcome(request, held, plan) == Signed(side, q) <==> ResolveContractId(request) == Some(held)))
      && (flips && request.strategy.execution.reversalMode == DirectReverse ==>
            (Outcome(request, held, plan) == Signed(side, q) <==> q + Abs(net) <= U32_MAX))
  {
    hide PlanTradovate, EntryAction, ResolveContractId, AfterActions;
    EntryShape(request, plan);
    EntryResolves(request, plan);
    var quantity := OrderedQuantity(request);
    EntryActionFacts(request, quantity);
    var entry := EntryAction(request, quantity).value;
    AfterOne(request.state.Net(), held, entry);
    AfterTwo(request.state.Net(), held, LiquidatePosition(ResolveContractId(request).GetOr(0)), entry);
  }

  /**
   * Both reversal modes lead to the same position when nothing has to be reversed, or when the flattened contract is
   * the one held and the reversing order fits 32 bits; apart from an order that is saturated either way, only then.
   */
  lemma ReversalModesAgree(request: ExecutionRequest, other: ExecutionRequest, held: int, plan: Plan, otherPlan: Plan)
    requires request.intent.Enter? && PlanTradovate(request) == Ok(plan) && PlanTradovate(other) == Ok(otherPlan)
    requires request.strategy.execution.reversalMode == FlattenFirst
    requires other == request.(strategy := request.strategy.(execution :=
                        request.strategy.execution.(reversalMode := DirectReverse)))
    ensures Outcome(request, held, plan) == Outcome(other, held, otherPlan) <==>
      var net, resolved := request.state.Net(), ResolveContractId(request) == Some(held);
      || net == 0 || SideForPosition(net) == request.intent.side
      || (resolved && request.intent.quantity + Abs(net) <= U32_MAX)
      || (!resolved && request.intent.quantity == U32_MAX)
  {
    hide PlanTradovate, AfterActions, EntryAction, ResolveContractId;
    EntryShape(request, plan);
    EntryResolves(request, plan);
    EntryShape(other, otherPlan);
    var net, flat := request.state.Net(), LiquidatePosition(ResolveContractId(request).GetOr(0));
    EntryActionFacts(request, OrderedQuantity(request));
    EntryActionFacts(other, OrderedQuantity(other));
    var entry, reversing := EntryAction(request, OrderedQuantity(request)).value,
      EntryAction(other, OrderedQuantity(other)).value;
    AfterOne(net, held, entry);
    AfterTwo(net, held, flat, entry);
    AfterOne(net, held, reversing);
  }

  /** When an entry is planned at all. */
  lemma EntryIsPlannedWhen(request: ExecutionRequest)
    requires request.intent.Enter?
    ensures var strategy, net := request.strategy, request.state.Net();
      var opposite := net != 0 && SideForPosition(net) != request.intent.side;
      PlanTradovate(request).Ok? <==>
        && request.instrument.tickSize > 0 && request.state.runtimeCanSubmitOrders && request.state.newEntriesAllowed
        && request.intent.quantity > 0
        && !strategy.management.partialTakeProfitActive
        && (strategy.management.trailingEnabled ==> strategy.execution.trailingStop != BrokerRequired)
        && ProtectionConfigured(strategy, request.intent.bracketsExpected)
        && (net != 0 && !opposite ==> strategy.execution.allowScaleIn && Abs(net) < strategy.execution.maxLegs)
        && (opposite && strategy.execution.reversalMode == FlattenFirst ==> ResolveContractId(request).Some?)
        && request.intent.orderType != StopLimitEntry
        && (request.intent.orderType != MarketEntry || request.intent.bracketsExpected ==>
              request.instrument.entryReferencePrice.Some?)
        && (request.intent.bracketsExpected ==>
              strategy.management.initialStopTicks > 0 || strategy.management.takeProfitTicks > 0)
  {
    hide ProtectionConfigured, ResolveContractId;
  }

  // ----- leaving a position

  /**
   * Leaving works whatever the submission flags say and liquidates the resolved contract. It ends flat exactly if
   * nothing was held or that contract is the one held: an active contract takes precedence over the position's own.
   */
  lemma FlattenEndsFlat(request: ExecutionRequest, held: int)
    requires request.intent.Exit? || request.intent.Flatten?
    ensures PlanTradovate(request).Ok? <==>
      request.instrument.tickSize > 0 && (request.state.Net() == 0 || ResolveContractId(request).Some?)
    ensures PlanTradovate(request).Ok? ==>
      (Outcome(request, held, PlanTradovate(request).value) == 0
       <==> request.state.Net() == 0 || ResolveContractId(request) == Some(held))
    ensures PlanTradovate(request).Ok? ==>
      var actions := PlanTradovate(request).value.actions;
      actions == if request.state.Net() == 0 then [] else [LiquidatePosition(ResolveContractId(request).value)]
  {
    hide ResolveContractId;
    if ResolveContractId(request).Some? {
      AfterOne(request.state.Net(), held, LiquidatePosition(ResolveContractId(request).value));
    }
  }

  /** A position named after its own contract resolves to it, unless another contract is configured as active. */
  lemma OwnContractResolves(request: ExecutionRequest, held: int)
    requires -0x8000_0000_0000_0000 <= held <= 0x7FFF_FFFF_FFFF_FFFF && request.state.currentPosition.Some?
    requires request.state.currentPosition.value.symbol == CONTRACT_PREFIX + IntString(held)
    ensures ResolveContractId(request) == Some(held) <==> request.instrument.activeContractId.GetOr(held) == held
  {
    hide ContractIdOfSymbol;
    ContractSymbolResolves(held);
  }

  function Sign(n: int): int { if n > 0 then 1 else if n < 0 then -1 else 0 }

  /**
   * Reducing takes the quantity off the position, down to nothing at most: exactly if some of it is to stay or the
   * contract to liquidate is the one held.
   */
  lemma ReduceNeverFlips(request: ExecutionRequest, held: int, plan: Plan)
    requires request.intent.ReducePosition? && PlanTradovate(request) == Ok(plan)
    ensures var net := request.state.Net();
      && (Outcome(request, held, plan) == Sign(net) * Max(Abs(net) - request.intent.reduceBy, 0)
          <==> request.intent.reduceBy < Abs(net) || ResolveContractId(request) == Some(held))
      && (Outcome(request, held, plan) == net
          || Abs(Outcome(request, held, plan)) == Max(Abs(net) - request.intent.reduceBy, 0))
      && Abs(Outcome(request, held, plan)) <= Abs(net) && Sign(Outcome(request, held, plan)) * Sign(net) >= 0
  {
    hide ResolveContractId;
    var net := request.state.Net();
    if |plan.actions| == 1 {
      assert plan.actions == [plan.actions[0]];
      AfterOne(net, held, plan.actions[0]);
    }
  }

  lemma {:induction false} CancelsKeepNet(net: int, held: int, actions: seq<Action>)
    requires forall a :: a in actions ==> a.CancelOrder?
    ensures AfterActions(net, held, actions) == net
  {
    if actions != [] {
      assert actions[|actions| - 1] in actions;
      assert forall a :: a in actions[..|actions| - 1] ==> a in actions;
      CancelsKeepNet(net, held, actions[..|actions| - 1]);
    }
  }

  /** Between two positions: on the way from one to the other, or at zero. */
  predicate OnTheWay(net: int, target: int, at: int) {
    at == net || at == target || at == 0
  }

  /**
   * Interrupted execution. However many actions of a plan are carried out before the broker refuses one, the
   * position is the original one, the target, or flat; and only an entry can enlarge it or change its side.
   */
  lemma InterruptedPlansAreSafe(request: ExecutionRequest, held: int, plan: Plan, done: nat)
    requires PlanTradovate(request) == Ok(plan) && done <= |plan.actions|
    ensures var net, at := request.state.Net(), AfterActions(request.state.Net(), held, plan.actions[..done]);
      && OnTheWay(net, Outcome(request, held, plan), at)
      && (!request.intent.Enter? ==> Abs(at) <= Abs(net) && Sign(at) * Sign(net) >= 0)
  {
    hide EntryPlan, ReducePlan, FlattenPlan, CancelActions, AfterActions, EntryAction;
    var net := request.state.Net();
    assert plan.actions[..|plan.actions|] == plan.actions;
    AfterNone(net, held);
    match request.intent
    case Enter(_, _, _, _) =>
      EntryShape(request, plan);
      if done == 1 && |plan.actions| == 2 {
        assert plan.actions[..1] == [plan.actions[0]];
        AfterOne(net, held, plan.actions[0]);
      }
    case Exit =>
      SingleAction(request, plan, done);
      FlattenEndsFlat(request, held);
      FlattenNet(request, held);
    case Flatten =>
      SingleAction(request, plan, done);
      FlattenEndsFlat(request, held);
      FlattenNet(request, held);
    case ReducePosition(q) =>
      SingleAction(request, plan, done);
      ReduceNeverFlips(request, held, plan);
    case PauseStrategy =>
      AfterOne(net, held, Pause);
    case CancelWorkingOrders =>
      CancelReachesAll(request, request.state.workingOrders);
      assert forall a :: a in plan.actions[..done] ==> a in plan.actions;
      CancelsKeepNet(net, held, plan.actions[..done]);
      CancelsKeepNet(net, held, plan.actions);
  }

  lemma FlattenNet(request: ExecutionRequest, held: int)
    requires request.intent.Exit? || request.intent.Flatten?
    ensures PlanTradovate(request).Ok? ==>
      Outcome(request, held, PlanTradovate(request).value) in {0, request.state.Net()}
  {
    hide ResolveContractId;
    if ResolveContractId(request).Some? {
      AfterOne(request.state.Net(), held, LiquidatePosition(ResolveContractId(request).value));
    }
  }

  lemma AfterNone(net: int, held: int)
    ensures AfterActions(net, held, []) == net
  {
  }

  lemma SingleAction(request: ExecutionRequest, plan: Plan, done: nat)
    requires request.intent.Exit? || request.intent.Flatten? || request.intent.ReducePosition?
    requires PlanTradovate(request) == Ok(plan) && done <= |plan.actions|
    ensures |plan.actions| <= 1 && (done == 0 || done == |plan.actions|)
    ensures plan.actions[..done] == [] || plan.actions[..done] == plan.actions
  {
    hide ResolveContractId;
  }
}
