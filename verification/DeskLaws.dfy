// Positions over whole runs: intents, interrupted plans, and the protective orders that stay at the broker and fill
// later.
module DeskLaws {
  import opened Prelude
  import opened MarketTypes
  import opened BrokerTypes
  import opened StrategyTypes
  import opened TradovateOrders
  import opened ExecutionPlanner
  import opened PlanLaws
  import opened OrderPipeline
  import Risk = RiskEngine

  // ----- the desk

  /** The net position and the protective orders resting at the broker. */
  datatype Desk = Desk(net: int, resting: seq<BracketOrder>)

  const EMPTY_DESK := Desk(0, [])

  /** One intent as the runtime handles it; `done` actions are carried out before the broker refuses one. */
  datatype Handling = Handling(
    intent: ExecutionIntent,
    tickValueUsd: Option<Decimal>,
    riskState: Risk.RiskState,
    instrument: InstrumentContext,
    canSubmit: bool,
    newEntriesAllowed: bool,
    reported: BrokerPosition,
    omitFlat: bool,
    workingOrders: seq<BrokerOrder>,
    done: nat)

  /**
   * What happens: an intent is handled, a resting protective order fills, in part or in full, or one goes away. The
   * broker is free in the last two, so every rule of its own, such as cancelling a bracket's partner or the brackets
   * of a liquidated position, gives some of these runs.
   */
  datatype DeskOp =
    | Handle(handling: Handling)
    | BracketFills(index: nat, quantity: nat)
    | BracketGone(index: nat)

  function RiskRequestOf(strategy: CompiledStrategy, h: Handling): Risk.RiskRequest {
    Risk.RiskRequest(strategy, h.tickValueUsd, h.riskState, h.intent)
  }

  /** The planner sees the broker's report of the current net position, or none while flat. */
  function ExecutionRequestOf(strategy: CompiledStrategy, net: int, h: Handling, intent: ExecutionIntent)
    : (r: ExecutionRequest)
    ensures r.state.Net() == net && r.strategy == strategy && r.intent == intent
  {
    var position := if net == 0 && h.omitFlat then None else Some(h.reported.(quantity := net));
    ExecutionRequest(strategy, h.instrument,
                     ExecutionState(h.canSubmit, h.newEntriesAllowed, position, h.workingOrders), intent)
  }

  function QuantityAtRest(bracket: BracketOrder): nat {
    bracket.quantity.GetOr(0)
  }

  function Leaves(action: Action): seq<BracketOrder> {
    match action
    case SubmitOso(oso) => oso.brackets
    case _ => []
  }

  /** The protective orders some actions leave at the broker. */
  function AllLeave(actions: seq<Action>): seq<BracketOrder> {
    if actions == [] then []
    else AllLeave(actions[..|actions| - 1]) + Leaves(actions[|actions| - 1])
  }

  function CarriedOut(desk: Desk, held: int, actions: seq<Action>): Desk {
    Desk(AfterActions(desk.net, held, actions), desk.resting + AllLeave(actions))
  }

  /** The actions of one handled intent that reach the broker. */
  function ActionsOf(strategy: CompiledStrategy, net: int, h: Handling): seq<Action> {
    var outcome := Risk.Evaluate(RiskRequestOf(strategy, h));
    if outcome.status != Risk.Accepted then []
    else
      match PlanTradovate(ExecutionRequestOf(strategy, net, h, outcome.adjustedIntent))
      case Ok(plan) => plan.actions[..Min(h.done, |plan.actions|)]
      case Err(_) => []
  }

  function Without(resting: seq<BracketOrder>, i: nat): seq<BracketOrder>
    requires i < |resting|
  {
    resting[..i] + resting[i + 1..]
  }

  function Fill(desk: Desk, i: nat, quantity: nat): Desk {
    if i >= |desk.resting| || quantity == 0 || quantity > QuantityAtRest(desk.resting[i]) then desk
    else
      var b := desk.resting[i];
      Desk(desk.net + Signed(b.side, quantity),
           if quantity == QuantityAtRest(b) then Without(desk.resting, i)
           else desk.resting[i := b.(quantity := Some(b.quantity.value - quantity))])
  }

  function DeskStep(strategy: CompiledStrategy, held: int, desk: Desk, op: DeskOp): Desk {
    match op
    case Handle(h) => CarriedOut(desk, held, ActionsOf(strategy, desk.net, h))
    case BracketFills(i, quantity) => Fill(desk, i, quantity)
    case BracketGone(i) => if i < |desk.resting| then desk.(resting := Without(desk.resting, i)) else desk
  }

  function DeskFrom(strategy: CompiledStrategy, held: int, desk: Desk, ops: seq<DeskOp>): Desk {
    if ops == [] then desk
    else DeskStep(strategy, held, DeskFrom(strategy, held, desk, ops[..|ops| - 1]), ops[|ops| - 1])
  }

  function DeskRun(strategy: CompiledStrategy, held: int, ops: seq<DeskOp>): Desk {
    DeskFrom(strategy, held, EMPTY_DESK, ops)
  }

  lemma {:induction false} RunConcat(strategy: CompiledStrategy, held: int, desk: Desk, a: seq<DeskOp>, b: seq<DeskOp>)
    ensures DeskFrom(strategy, held, desk, a + b) == DeskFrom(strategy, held, DeskFrom(strategy, held, desk, a), b)
  {
    hide DeskStep;
    if b == [] {
      assert a + b == a;
    } else {
      RunConcat(strategy, held, desk, a, b[..|b| - 1]);
      assert (a + b)[..|a + b| - 1] == a + b[..|b| - 1];
    }
  }

  lemma RunSnoc(strategy: CompiledStrategy, held: int, ops: seq<DeskOp>, op: DeskOp)
    ensures DeskRun(strategy, held, ops + [op]) == DeskStep(strategy, held, DeskRun(strategy, held, ops), op)
  {
    hide DeskStep;
    assert (ops + [op])[..|ops|] == ops;
  }

  lemma RunNone(strategy: CompiledStrategy, held: int)
    ensures DeskRun(strategy, held, []) == EMPTY_DESK
  {
  }

  // ----- what handling an intent can do to the position

  /** The largest position a strategy can order: one entry on top of the last position that allows one. */
  function LargestPosition(strategy: CompiledStrategy): nat {
    Max(strategy.execution.maxLegs - 1, 0) + strategy.sizing.maxContracts.GetOr(U32_MAX)
  }

  lemma EntryStaysWithin(request: ExecutionRequest, held: int, plan: Plan, limit: nat, excess: nat)
    requires request.intent.Enter? && PlanTradovate(request) == Ok(plan) && request.intent.quantity <= limit
    requires Abs(request.state.Net()) <= Max(request.strategy.execution.maxLegs - 1, 0) + limit + excess
    ensures Abs(Outcome(request, held, plan)) <= Max(request.strategy.execution.maxLegs - 1, 0) + limit + excess
  {
    hide PlanTradovate, EntryAction, ResolveContractId, AfterActions, ProtectionConfigured;
    EntryIsPlannedWhen(request);
    EntryShape(request, plan);
    var net, quantity := request.state.Net(), OrderedQuantity(request);
    EntryActionFacts(request, quantity);
    var entry := EntryAction(request, quantity).value;
    AfterOne(net, held, entry);
    AfterTwo(net, held, LiquidatePosition(ResolveContractId(request).GetOr(0)), entry);
  }

  lemma HandlingStaysWithin(strategy: CompiledStrategy, held: int, net: int, h: Handling, excess: nat)
    requires Abs(net) <= LargestPosition(strategy) + excess
    ensures Abs(AfterActions(net, held, ActionsOf(strategy, net, h))) <= LargestPosition(strategy) + excess
  {
    hide PlanTradovate, Risk.Evaluate, AfterActions, Risk.EntryQuantity, Risk.LimitReached, ExecutionRequestOf;
    var risk := RiskRequestOf(strategy, h);
    var outcome := Risk.Evaluate(risk);
    AfterNone(net, held);
    if outcome.status == Risk.Accepted {
      var request := ExecutionRequestOf(strategy, net, h, outcome.adjustedIntent);
      if PlanTradovate(request).Ok? {
        var plan := PlanTradovate(request).value;
        InterruptedPlansAreSafe(request, held, plan, Min(h.done, |plan.actions|));
        OtherIntentsUntouched(risk);
        if h.intent.Enter? {
          Risk.EntryDecision(risk);
          Risk.ApprovedWithinBounds(risk);
          EntryStaysWithin(request, held, plan, strategy.sizing.maxContracts.GetOr(U32_MAX), excess);
        }
      }
    }
  }

  lemma OtherIntentsUntouched(risk: Risk.RiskRequest)
    ensures !risk.intent.Enter? ==> Risk.Evaluate(risk).adjustedIntent == risk.intent
  {
  }

  // ----- the bound of a run

  /** By how much an operation of a run enlarges the position through a resting order. */
  function Overfill(desk: Desk, op: DeskOp): nat {
    match op
    case BracketFills(i, quantity) => Max(Abs(Fill(desk, i, quantity).net) - Abs(desk.net), 0)
    case _ => 0
  }

  /** The total a run owes to resting orders that filled without a position to take them. */
  function TotalOverfill(strategy: CompiledStrategy, held: int, ops: seq<DeskOp>): nat {
    if ops == [] then 0
    else
      var before := ops[..|ops| - 1];
      TotalOverfill(strategy, held, before) + Overfill(DeskRun(strategy, held, before), ops[|ops| - 1])
  }

  /**
   * Position safety over whole runs. Whatever intents arrive, whatever the broker refuses half-way, whatever the
   * flags and overrides are and whichever protective orders fill or go away, a strategy that starts flat never holds
   * more than `maxLegs - 1` contracts plus one approved entry plus what stale protective orders added.
   */
  lemma {:induction false} PositionBound(strategy: CompiledStrategy, held: int, ops: seq<DeskOp>)
    ensures Abs(DeskRun(strategy, held, ops).net) <= LargestPosition(strategy) + TotalOverfill(strategy, held, ops)
  {
    hide ActionsOf, AfterActions, LargestPosition, AllLeave;
    if ops != [] {
      var n := |ops| - 1;
      PositionBound(strategy, held, ops[..n]);
      var desk := DeskRun(strategy, held, ops[..n]);
      match ops[n]
      case Handle(h) => HandlingStaysWithin(strategy, held, desk.net, h, TotalOverfill(strategy, held, ops[..n]));
      case BracketFills(_, _) =>
      case BracketGone(_) =>
    }
  }

  /** While protective orders only ever reduce the position, it never exceeds the strategy's largest one. */
  lemma PositionStaysBounded(strategy: CompiledStrategy, held: int, ops: seq<DeskOp>)
    requires TotalOverfill(strategy, held, ops) == 0
    ensures Abs(DeskRun(strategy, held, ops).net) <= LargestPosition(strategy)
  {
    PositionBound(strategy, held, ops);
  }

  // ----- worst-case exposure

  function AtRest(resting: seq<BracketOrder>, side: Side): nat {
    if resting == [] then 0
    else
      var b := resting[|resting| - 1];
      AtRest(resting[..|resting| - 1], side) + if b.side == side then QuantityAtRest(b) else 0
  }

  lemma {:induction false} AtRestConcat(a: seq<BracketOrder>, b: seq<BracketOrder>, side: Side)
    ensures AtRest(a + b, side) == AtRest(a, side) + AtRest(b, side)
  {
    if b == [] {
      assert a + b == a;
    } else {
      AtRestConcat(a, b[..|b| - 1], side);
      assert (a + b)[..|a + b| - 1] == a + b[..|b| - 1];
    }
  }

  lemma AtRestSplit(resting: seq<BracketOrder>, i: nat, side: Side)
    requires i < |resting|
    ensures AtRest(resting, side)
         == AtRest(Without(resting, i), side) + if resting[i].side == side then QuantityAtRest(resting[i]) else 0
  {
    var a, b, c := resting[..i], [resting[i]], resting[i + 1..];
    assert resting == a + b + c;
    AtRestConcat(a + b, c, side);
    AtRestConcat(a, b, side);
    AtRestConcat(a, c, side);
    assert b[..0] == [];
  }

  /** All that rests on one side, filled in full from the last order down. */
  function FillSide(resting: seq<BracketOrder>, side: Side): seq<DeskOp> {
    if resting == [] then []
    else
      var n := |resting| - 1;
      var b := resting[n];
      (if b.side == side && QuantityAtRest(b) > 0 then [BracketFills(n, QuantityAtRest(b))] else [])
      + FillSide(resting[..n], side)
  }

  predicate IsBracketOp(op: DeskOp) {
    !op.Handle?
  }

  lemma {:induction false} FillSideReaches(
    strategy: CompiledStrategy, held: int, net: int, prefix: seq<BracketOrder>, rest: seq<BracketOrder>, side: Side)
    ensures DeskFrom(strategy, held, Desk(net, prefix + rest), FillSide(prefix, side)).net
         == net + Signed(side, AtRest(prefix, side))
    ensures forall op :: op in FillSide(prefix, side) ==> op.BracketFills?
    decreases |prefix|
  {
    if prefix != [] {
      hide CarriedOut, ActionsOf;
      var n := |prefix| - 1;
      var b, shorter := prefix[n], prefix[..n];
      var desk := Desk(net, prefix + rest);
      if b.side == side && QuantityAtRest(b) > 0 {
        var first := BracketFills(n, QuantityAtRest(b));
        var next := Desk(net + Signed(side, QuantityAtRest(b)), shorter + rest);
        assert desk.resting[n] == b && Without(desk.resting, n) == shorter + rest;
        assert [first][..0] == [];
        assert DeskFrom(strategy, held, desk, [first]) == DeskStep(strategy, held, desk, first) == next;
        RunConcat(strategy, held, desk, [first], FillSide(shorter, side));
        FillSideReaches(strategy, held, next.net, shorter, rest, side);
      } else {
        assert [] + FillSide(shorter, side) == FillSide(shorter, side);
        assert prefix + rest == shorter + ([b] + rest);
        FillSideReaches(strategy, held, net, shorter, [b] + rest, side);
      }
    }
  }

  /** One fill or disappearance never widens the worst case on either side. */
  lemma BracketOpNarrows(strategy: CompiledStrategy, held: int, desk: Desk, op: DeskOp)
    requires IsBracketOp(op)
    ensures var after := DeskStep(strategy, held, desk, op);
      && after.net + AtRest(after.resting, Buy) <= desk.net + AtRest(desk.resting, Buy)
      && desk.net - AtRest(desk.resting, Sell) <= after.net - AtRest(after.resting, Sell)
  {
    hide AtRest;
    if op.index < |desk.resting| {
      AtRestSplit(desk.resting, op.index, Buy);
      AtRestSplit(desk.resting, op.index, Sell);
      var after := DeskStep(strategy, held, desk, op);
      if op.BracketFills? && 0 < op.quantity < QuantityAtRest(desk.resting[op.index]) {
        AtRestSplit(after.resting, op.index, Buy);
        AtRestSplit(after.resting, op.index, Sell);
        assert Without(after.resting, op.index) == Without(desk.resting, op.index);
      }
    }
  }

  lemma {:induction false} BracketOpsNarrow(strategy: CompiledStrategy, held: int, desk: Desk, ops: seq<DeskOp>)
    requires forall op :: op in ops ==> IsBracketOp(op)
    ensures var after := DeskFrom(strategy, held, desk, ops);
      && after.net + AtRest(after.resting, Buy) <= desk.net + AtRest(desk.resting, Buy)
      && desk.net - AtRest(desk.resting, Sell) <= after.net - AtRest(after.resting, Sell)
  {
    hide DeskStep, IsBracketOp, AtRest;
    if ops != [] {
      var n := |ops| - 1;
      assert ops[n] in ops && forall op :: op in ops[..n] ==> op in ops;
      BracketOpsNarrow(strategy, held, desk, ops[..n]);
      BracketOpNarrows(strategy, held, DeskFrom(strategy, held, desk, ops[..n]), ops[n]);
    }
  }

  /** Whatever rests on either side could fill without leaving the limit. */
  predicate WorstCaseWithin(desk: Desk, limit: nat) {
    desk.net + AtRest(desk.resting, Buy) <= limit && AtRest(desk.resting, Sell) - desk.net <= limit
  }

  /**
   * The exact condition on a desk, checkable before anything fills: no sequence of fills and disappearances takes the
   * position beyond a limit if and only if the position with everything at rest on one side stays within it.
   */
  lemma WorstCaseIsExact(strategy: CompiledStrategy, held: int, desk: Desk, limit: nat)
    ensures (forall ops: seq<DeskOp> :: (forall op :: op in ops ==> IsBracketOp(op)) ==>
               Abs(DeskFrom(strategy, held, desk, ops).net) <= limit)
       <==> WorstCaseWithin(desk, limit)
  {
    hide DeskFrom;
    if WorstCaseWithin(desk, limit) {
      forall ops: seq<DeskOp> | forall op :: op in ops ==> IsBracketOp(op)
        ensures Abs(DeskFrom(strategy, held, desk, ops).net) <= limit
      {
        BracketOpsNarrow(strategy, held, desk, ops);
      }
    } else {
      var side := if desk.net + AtRest(desk.resting, Buy) > limit then Buy else Sell;
      assert desk.resting + [] == desk.resting;
      FillSideReaches(strategy, held, desk.net, desk.resting, [], side);
      var ops := FillSide(desk.resting, side);
      assert Abs(DeskFrom(strategy, held, desk, ops).net) > limit;
    }
  }

  // ----- which strategies keep the bound in every run

  /**
   * The strategy's sizing approves a quantity for some entry. Decimals count their smallest unit, so the last way is
   * open to a budget that pays for one contract at the smallest tick value there is.
   */
  predicate CanSize(strategy: CompiledStrategy) {
    var sizing, ticks := strategy.sizing, strategy.management.initialStopTicks;
    && Risk.BoundsOrdered(sizing) && sizing.maxContracts != Some(0)
    && match sizing.mode
       case FixedSizing => sizing.contracts != Some(0)
       case RiskBasedSizing =>
         && sizing.maxRiskUsd.GetOr(0) > 0 && ticks > 0
         && (sizing.minContracts.GetOr(0) > 0 || sizing.fallbackFixedContracts.GetOr(0) > 0
             || sizing.maxRiskUsd.value >= ticks)
  }

  /** The strategy can send an entry that leaves protective orders at the broker. */
  predicate LeavesBrackets(strategy: CompiledStrategy) {
    && (strategy.management.initialStopTicks > 0 || strategy.management.takeProfitTicks > 0)
    && !strategy.management.partialTakeProfitActive
    && (strategy.management.trailingEnabled ==> strategy.execution.trailingStop != BrokerRequired)
    && ProtectionConfigured(strategy, true)
    && strategy.risk.maxTradesPerDay > 0 && strategy.risk.maxConsecutiveLosses > 0
    && CanSize(strategy)
  }

  lemma QuotientFits(maxRisk: int, ticks: int)
    requires ticks > 0
    ensures (exists tv: int :: tv > 0 && ticks * tv > 0 && 1 <= maxRisk / (ticks * tv) <= U32_MAX) ==> maxRisk >= ticks
    ensures maxRisk >= ticks ==> var tv := maxRisk / ticks;
      tv > 0 && ticks * tv > 0 && maxRisk / (ticks * tv) == 1
  {
    forall tv: int | tv > 0 && ticks * tv > 0 && 1 <= maxRisk / (ticks * tv) <= U32_MAX ensures maxRisk >= ticks {
      QuotientPositive(maxRisk, ticks * tv);
      Risk.MultiplyMonotone(1, tv, ticks);
    }
    if maxRisk >= ticks {
      var tv := maxRisk / ticks;
      QuotientOne(maxRisk, ticks);
    }
  }

  lemma QuotientPositive(a: int, b: int)
    requires b > 0
    ensures a / b >= 1 ==> a >= b
  {
    assert a < b ==> a / b <= 0;
  }

  lemma QuotientOne(a: int, b: int)
    requires a >= b > 0
    ensures var q := a / b; q > 0 && b * q > 0 && a / (b * q) == 1
  {
    var q := a / b;
    assert q <= 0 ==> a < b;
    Risk.ProductPositive(b, q);
    Risk.MultiplyMonotone(1, q, b);
    DivisionIsUnique(a, b * q, 1, a - b * q);
  }

  /** An entry that is accepted and planned with brackets comes from such a strategy. */
  lemma BracketsComeFromSuch(request: ExecutionRequest, risk: Risk.RiskRequest, plan: Plan)
    requires Follows(request, risk) && PlanTradovate(request) == Ok(plan) && request.intent.bracketsExpected
    ensures LeavesBrackets(request.strategy)
  {
    hide PlanTradovate, Risk.Evaluate, ResolveContractId, Risk.EntryQuantity;
    AcceptedIntent(request, risk);
    Risk.EntryDecision(risk);
    EntryIsPlannedWhen(request);
    Risk.ApprovedWithinBounds(risk);
    SizedStrategiesCanSize(risk);
  }

  lemma SizedStrategiesCanSize(risk: Risk.RiskRequest)
    requires risk.intent.Enter? && Risk.EntryQuantity(risk).Ok? && Risk.EntryQuantity(risk).value > 0
    ensures CanSize(risk.strategy)
  {
    hide Risk.AffordableContracts, Risk.RiskPerContract;
    var strategy := risk.strategy;
    Risk.ApprovedWithinBounds(risk);
    if strategy.sizing.mode == RiskBasedSizing {
      Risk.RiskSizingSucceeds(strategy, risk.tickValueUsd);
      RiskBasedCanSize(strategy, risk.tickValueUsd);
    }
  }

  lemma RiskBasedCanSize(strategy: CompiledStrategy, tickValueUsd: Option<Decimal>)
    requires Risk.RiskBasedQuantity(strategy, tickValueUsd).Ok?
    ensures strategy.sizing.minContracts.GetOr(0) > 0 || strategy.sizing.fallbackFixedContracts.GetOr(0) > 0
            || strategy.sizing.maxRiskUsd.value >= strategy.management.initialStopTicks
  {
    Risk.RiskSizingSucceeds(strategy, tickValueUsd);
    var ticks, tv := strategy.management.initialStopTicks, tickValueUsd.value;
    Risk.ProductPositive(ticks, tv);
    QuotientFits(strategy.sizing.maxRiskUsd.value, ticks);
  }

  predicate LeavesNothing(action: Action) {
    !action.SubmitOso?
  }

  lemma {:induction false} NothingLeft(actions: seq<Action>)
    requires forall a :: a in actions ==> LeavesNothing(a)
    ensures AllLeave(actions) == []
  {
    if actions != [] {
      var n := |actions| - 1;
      assert actions[n] in actions && forall a :: a in actions[..n] ==> a in actions;
      NothingLeft(actions[..n]);
    }
  }

  /** Only an entry that expects brackets sends any. */
  lemma OnlyEntriesLeave(request: ExecutionRequest, plan: Plan)
    requires PlanTradovate(request) == Ok(plan) && (request.intent.Enter? ==> !request.intent.bracketsExpected)
    ensures forall a :: a in plan.actions ==> LeavesNothing(a)
  {
    hide EntryAction, ResolveContractId, CancelActions, EntryPlan;
    match request.intent
    case Enter(_, _, _, _) =>
      EntryShape(request, plan);
      EntryActionFacts(request, OrderedQuantity(request));
    case CancelWorkingOrders =>
      CancelReachesAll(request, request.state.workingOrders);
    case ReducePosition(_) =>
    case Exit =>
    case Flatten =>
    case PauseStrategy =>
  }

  lemma HandlingLeavesNothing(strategy: CompiledStrategy, net: int, h: Handling)
    requires !LeavesBrackets(strategy)
    ensures AllLeave(ActionsOf(strategy, net, h)) == []
  {
    hide PlanTradovate, Risk.Evaluate, LeavesBrackets, AllLeave, LeavesNothing;
    var risk := RiskRequestOf(strategy, h);
    var outcome := Risk.Evaluate(risk);
    var request := ExecutionRequestOf(strategy, net, h, outcome.adjustedIntent);
    OtherIntentsUntouched(risk);
    if outcome.status == Risk.Accepted && PlanTradovate(request).Ok? {
      var plan := PlanTradovate(request).value;
      EntryKeepsExpectation(risk);
      if h.intent.Enter? && h.intent.bracketsExpected {
        assert Follows(request, risk);
        BracketsComeFromSuch(request, risk, plan);
      } else {
        OnlyEntriesLeave(request, plan);
        assert forall a :: a in ActionsOf(strategy, net, h) ==> a in plan.actions;
      }
    }
    NothingLeft(ActionsOf(strategy, net, h));
  }

  lemma EntryKeepsExpectation(risk: Risk.RiskRequest)
    ensures risk.intent.Enter? ==>
      var adjusted := Risk.Evaluate(risk).adjustedIntent;
      adjusted.Enter? && adjusted.bracketsExpected == risk.intent.bracketsExpected
  {
    hide Risk.LimitReached, Risk.EntryQuantity, Risk.Missing, Risk.MissingWith, Risk.WarningsOf;
  }

  lemma {:induction false} NothingEverRests(strategy: CompiledStrategy, held: int, ops: seq<DeskOp>)
    requires !LeavesBrackets(strategy)
    ensures DeskRun(strategy, held, ops).resting == [] && TotalOverfill(strategy, held, ops) == 0
  {
    hide ActionsOf, AfterActions, LeavesBrackets, AllLeave;
    if ops != [] {
      var n := |ops| - 1;
      NothingEverRests(strategy, held, ops[..n]);
      var desk := DeskRun(strategy, held, ops[..n]);
      if ops[n].Handle? {
        HandlingLeavesNothing(strategy, desk.net, ops[n].handling);
      }
    }
  }

  // ----- a run that breaks it

  const NO_REPORT := BrokerPosition(None, "", 0, None, None, None, false, 0)

  /** One contract loses exactly the budget, or as little as the scale can say. */
  function SureTickValue(strategy: CompiledStrategy): Decimal {
    var budget, ticks := strategy.sizing.maxRiskUsd.GetOr(0), strategy.management.initialStopTicks;
    if ticks > 0 && budget >= ticks then budget / ticks else 1
  }

  /** An intent handled on a good day: nothing spent, every protection supported, both flags set, all carried out. */
  function GoodDay(strategy: CompiledStrategy, held: int, intent: ExecutionIntent): Handling {
    Handling(intent, Some(SureTickValue(strategy)),
             Risk.RiskState(0, 0, None, Risk.BrokerSupport(true, true, true, true), false),
             InstrumentContext("ES", 1, Some(0), Some(held)), true, true, NO_REPORT, false, [], 2)
  }

  function SureEntry(strategy: CompiledStrategy, held: int, side: Side): Handling {
    GoodDay(strategy, held, Enter(side, MarketEntry, 1, true))
  }

  lemma SureEntryIsSized(strategy: CompiledStrategy, held: int, side: Side)
    requires CanSize(strategy)
    ensures var risk := RiskRequestOf(strategy, SureEntry(strategy, held, side));
      Risk.EntryQuantity(risk).Ok? && Risk.EntryQuantity(risk).value > 0
  {
    hide Risk.AffordableContracts, Risk.RiskPerContract;
    var risk := RiskRequestOf(strategy, SureEntry(strategy, held, side));
    if strategy.sizing.mode == RiskBasedSizing {
      SureBudgetSizes(strategy);
    }
    Risk.ApprovedWithinBounds(risk);
  }

  lemma SureBudgetSizes(strategy: CompiledStrategy)
    requires CanSize(strategy) && strategy.sizing.mode == RiskBasedSizing
    ensures Risk.RiskBasedQuantity(strategy, Some(SureTickValue(strategy))).Ok?
  {
    var budget, ticks := strategy.sizing.maxRiskUsd.value, strategy.management.initialStopTicks;
    QuotientFits(budget, ticks);
    Risk.RiskSizingSucceeds(strategy, Some(SureTickValue(strategy)));
  }

  lemma SureEntryIsAccepted(strategy: CompiledStrategy, held: int, side: Side)
    requires LeavesBrackets(strategy)
    ensures var risk := RiskRequestOf(strategy, SureEntry(strategy, held, side));
      && Risk.Evaluate(risk).status == Risk.Accepted && Risk.EntryQuantity(risk).Ok?
         && Risk.EntryQuantity(risk).value > 0
      && Risk.Evaluate(risk).adjustedIntent == Enter(side, MarketEntry, Risk.EntryQuantity(risk).value, true)
  {
    hide Risk.Evaluate, Risk.EntryQuantity, CanSize;
    var risk := RiskRequestOf(strategy, SureEntry(strategy, held, side));
    SureEntryIsSized(strategy, held, side);
    Risk.EntryDecision(risk);
    assert Risk.LimitReached(risk).None?;
    assert forall p :: !Risk.Missing(risk, p, BrokerRequired);
  }

  /** What such an entry sends while flat, or against the position when it reverses directly. */
  lemma SureEntryActs(strategy: CompiledStrategy, held: int, net: int, side: Side)
    requires LeavesBrackets(strategy)
    requires net == 0 || (SideForPosition(net) != side && strategy.execution.reversalMode == DirectReverse)
    ensures var risk := RiskRequestOf(strategy, SureEntry(strategy, held, side));
      var actions := ActionsOf(strategy, net, SureEntry(strategy, held, side));
      && Risk.EntryQuantity(risk).Ok?
      && var approved := Risk.EntryQuantity(risk).value;
         var quantity := if net == 0 then approved else SaturatingAddU32(approved, Abs(net));
         && approved > 0 && |actions| == 1 && actions[0].SubmitOso?
         && (forall n, h :: AfterAction(n, h, actions[0]) == n + Signed(side, quantity))
         && actions[0].oso.brackets != []
         && forall b :: b in actions[0].oso.brackets ==> b.side == Opposite(side) && b.quantity == Some(quantity)
  {
    hide PlanTradovate, Risk.Evaluate, Risk.EntryQuantity, EntryAction, ResolveContractId;
    SureEntryIsAccepted(strategy, held, side);
    var h := SureEntry(strategy, held, side);
    var risk := RiskRequestOf(strategy, h);
    var request := ExecutionRequestOf(strategy, net, h, Risk.Evaluate(risk).adjustedIntent);
    EntryIsPlannedWhen(request);
    var plan := PlanTradovate(request).value;
    EntryShape(request, plan);
    EntryActionFacts(request, OrderedQuantity(request));
    BracketsFaceTheEntry(request, OrderedQuantity(request));
    assert plan.actions[..1] == plan.actions;
  }

  lemma BracketsFaceTheEntry(request: ExecutionRequest, quantity: u32)
    requires request.intent.Enter? && request.intent.bracketsExpected && EntryAction(request, quantity).Ok?
    ensures var brackets := EntryAction(request, quantity).value.oso.brackets;
      && brackets != []
      && forall b :: b in brackets ==> b.side == Opposite(request.intent.side) && b.quantity == Some(quantity)
  {
    hide EntryOrder, OffsetPrice;
  }

  lemma {:induction false} AllAtRest(brackets: seq<BracketOrder>, side: Side)
    requires brackets != [] && forall b :: b in brackets ==> b.side == side && QuantityAtRest(b) > 0
    ensures AtRest(brackets, side) > 0
  {
    assert brackets[|brackets| - 1] in brackets;
  }

  /** Buying and leaving again, a number of times: each time the brackets of the entry stay behind. */
  function InAndOut(strategy: CompiledStrategy, held: int, times: nat): seq<DeskOp> {
    if times == 0 then []
    else
      InAndOut(strategy, held, times - 1)
      + [Handle(SureEntry(strategy, held, Buy))] + [Handle(GoodDay(strategy, held, Exit))]
  }

  lemma ExitFlattens(strategy: CompiledStrategy, held: int, net: int)
    ensures AfterActions(net, held, ActionsOf(strategy, net, GoodDay(strategy, held, Exit))) == 0
    ensures AllLeave(ActionsOf(strategy, net, GoodDay(strategy, held, Exit))) == []
  {
    hide AfterActions, AllLeave, LeavesNothing;
    var h := GoodDay(strategy, held, Exit);
    var request := ExecutionRequestOf(strategy, net, h, Exit);
    FlattenEndsFlat(request, held);
    var plan := PlanTradovate(request).value;
    OnlyEntriesLeave(request, plan);
    NothingLeft(plan.actions);
    assert plan.actions[..|plan.actions|] == plan.actions;
    assert ActionsOf(strategy, net, h) == plan.actions;
  }

  lemma InOutLeaves(strategy: CompiledStrategy, held: int, desk: Desk)
    requires LeavesBrackets(strategy) && desk.net == 0
    ensures var after := DeskStep(strategy, held,
                                  DeskStep(strategy, held, desk, Handle(SureEntry(strategy, held, Buy))),
                                  Handle(GoodDay(strategy, held, Exit)));
      after.net == 0 && AtRest(after.resting, Sell) > AtRest(desk.resting, Sell)
  {
    hide ActionsOf, SureEntry, GoodDay, LeavesBrackets, AtRest;
    SureEntryActs(strategy, held, 0, Buy);
    var actions := ActionsOf(strategy, 0, SureEntry(strategy, held, Buy));
    var brackets := actions[0].oso.brackets;
    assert actions[..0] == [];
    assert AllLeave(actions) == [] + brackets == brackets;
    AllAtRest(brackets, Sell);
    AtRestConcat(desk.resting, brackets, Sell);
    var entered := DeskStep(strategy, held, desk, Handle(SureEntry(strategy, held, Buy)));
    ExitFlattens(strategy, held, entered.net);
    assert entered.resting + [] == entered.resting;
  }

  lemma {:induction false} InAndOutLeaves(strategy: CompiledStrategy, held: int, times: nat)
    requires LeavesBrackets(strategy)
    ensures var desk := DeskRun(strategy, held, InAndOut(strategy, held, times));
      desk.net == 0 && AtRest(desk.resting, Sell) >= times
  {
    hide DeskStep, SureEntry, GoodDay, LeavesBrackets, AtRest;
    if times > 0 {
      InAndOutLeaves(strategy, held, times - 1);
      var before := InAndOut(strategy, held, times - 1);
      InOutLeaves(strategy, held, DeskRun(strategy, held, before));
      var entry, exit := Handle(SureEntry(strategy, held, Buy)), Handle(GoodDay(strategy, held, Exit));
      RunSnoc(strategy, held, before, entry);
      RunSnoc(strategy, held, before + [entry], exit);
    }
  }

  /** Every limit is exceeded by some run, whose brackets outlive the positions they protected. */
  lemma BracketsBreakAnyLimit(strategy: CompiledStrategy, held: int, limit: nat) returns (ops: seq<DeskOp>)
    requires LeavesBrackets(strategy)
    ensures Abs(DeskRun(strategy, held, ops).net) > limit
  {
    hide DeskFrom, LeavesBrackets, InAndOut;
    var before := InAndOut(strategy, held, limit + 1);
    InAndOutLeaves(strategy, held, limit + 1);
    var resting := DeskRun(strategy, held, before).resting;
    assert resting + [] == resting;
    FillSideReaches(strategy, held, 0, resting, [], Sell);
    ops := before + FillSide(resting, Sell);
    RunConcat(strategy, held, EMPTY_DESK, before, FillSide(resting, Sell));
  }

  ghost predicate AlwaysWithin(strategy: CompiledStrategy, limit: nat) {
    forall held, ops :: Abs(DeskRun(strategy, held, ops).net) <= limit
  }

  /**
   * The exact strategies whose position bound holds in every run: those that can never leave a protective order at
   * the broker. For every other strategy no bound holds at all, since plans cancel nothing and brackets pile up.
   */
  lemma BoundHoldsInEveryRun(strategy: CompiledStrategy)
    ensures AlwaysWithin(strategy, LargestPosition(strategy)) <==> !LeavesBrackets(strategy)
    ensures (exists limit :: AlwaysWithin(strategy, limit)) <==> !LeavesBrackets(strategy)
  {
    hide DeskRun, LargestPosition, LeavesBrackets;
    if LeavesBrackets(strategy) {
      forall limit: nat ensures !AlwaysWithin(strategy, limit) {
        var ops := BracketsBreakAnyLimit(strategy, 0, limit);
      }
    } else {
      forall held, ops ensures Abs(DeskRun(strategy, held, ops).net) <= LargestPosition(strategy) {
        NothingEverRests(strategy, held, ops);
        PositionStaysBounded(strategy, held, ops);
      }
    }
  }

  // ----- direct reversals alone break it

  /** Buying and selling in turn: no action of these plans liquidates or cancels anything. */
  function ToAndFro(strategy: CompiledStrategy, held: int, times: nat): seq<DeskOp> {
    if times == 0 then []
    else
      ToAndFro(strategy, held, times - 1)
      + [Handle(SureEntry(strategy, held, Buy))] + [Handle(SureEntry(strategy, held, Sell))]
  }

  lemma ReversalLeaves(strategy: CompiledStrategy, held: int, desk: Desk, side: Side)
    requires LeavesBrackets(strategy) && strategy.execution.reversalMode == DirectReverse
    requires Abs(desk.net) <= U32_MAX && Signed(side, desk.net) <= 0
    ensures var after := DeskStep(strategy, held, desk, Handle(SureEntry(strategy, held, side)));
      && Abs(after.net) <= U32_MAX && Signed(side, after.net) >= 0
      && AtRest(after.resting, Opposite(side)) > AtRest(desk.resting, Opposite(side))
      && AtRest(after.resting, side) >= AtRest(desk.resting, side)
  {
    hide ActionsOf, SureEntry, LeavesBrackets, AtRest, AfterActions, AfterAction, Risk.EntryQuantity, RiskRequestOf;
    SureEntryActs(strategy, held, desk.net, side);
    var actions := ActionsOf(strategy, desk.net, SureEntry(strategy, held, side));
    var brackets := actions[0].oso.brackets;
    assert actions == [actions[0]] && actions[..0] == [];
    assert AllLeave(actions) == [] + brackets == brackets;
    AfterOne(desk.net, held, actions[0]);
    AllAtRest(brackets, Opposite(side));
    AtRestConcat(desk.resting, brackets, Opposite(side));
    AtRestConcat(desk.resting, brackets, side);
  }

  lemma {:induction false} ToAndFroLeaves(strategy: CompiledStrategy, held: int, times: nat)
    requires LeavesBrackets(strategy) && strategy.execution.reversalMode == DirectReverse
    ensures var desk := DeskRun(strategy, held, ToAndFro(strategy, held, times));
      -U32_MAX <= desk.net <= 0 && AtRest(desk.resting, Sell) >= times
  {
    hide DeskStep, DeskRun, LeavesBrackets, AtRest, SureEntry;
    RunNone(strategy, held);
    if times > 0 {
      ToAndFroLeaves(strategy, held, times - 1);
      var before := ToAndFro(strategy, held, times - 1);
      var long, short := Handle(SureEntry(strategy, held, Buy)), Handle(SureEntry(strategy, held, Sell));
      RunSnoc(strategy, held, before, long);
      RunSnoc(strategy, held, before + [long], short);
      ReversalLeaves(strategy, held, DeskRun(strategy, held, before), Buy);
      ReversalLeaves(strategy, held, DeskRun(strategy, held, before + [long]), Sell);
    }
  }

  lemma {:induction false} ToAndFroEnters(strategy: CompiledStrategy, held: int, times: nat)
    ensures OnlyEntriesAndFills(ToAndFro(strategy, held, times))
  {
    if times > 0 {
      ToAndFroEnters(strategy, held, times - 1);
    }
  }

  predicate OnlyEntriesAndFills(ops: seq<DeskOp>) {
    forall op :: op in ops ==> if op.Handle? then op.handling.intent.Enter? else op.BracketFills?
  }

  /**
   * With direct reversals it takes entries and fills alone: nothing is liquidated and no protective order goes
   * away.
   */
  lemma ReversalsBreakAnyLimit(strategy: CompiledStrategy, held: int, limit: nat) returns (ops: seq<DeskOp>)
    requires LeavesBrackets(strategy) && strategy.execution.reversalMode == DirectReverse
    ensures OnlyEntriesAndFills(ops) && Abs(DeskRun(strategy, held, ops).net) > limit
  {
    hide DeskFrom, LeavesBrackets, ToAndFro, AtRest;
    var before := ToAndFro(strategy, held, limit + 1);
    ToAndFroLeaves(strategy, held, limit + 1);
    ToAndFroEnters(strategy, held, limit + 1);
    var desk := DeskRun(strategy, held, before);
    assert desk.resting + [] == desk.resting && Desk(desk.net, desk.resting) == desk;
    FillSideReaches(strategy, held, desk.net, desk.resting, [], Sell);
    ops := before + FillSide(desk.resting, Sell);
    RunConcat(strategy, held, EMPTY_DESK, before, FillSide(desk.resting, Sell));
  }

  const FIVE_LOTS := CompiledStrategy(
    PositionSizing(FixedSizing, Some(5), None, None, Some(5), None),
    RiskLimits(false, 10, 10, None),
    TradeManagement(8, 0, false, false, false),
    ExecutionSpec(DirectReverse, false, 1, BrokerRequired, BotAllowed, BotAllowed))

  function LongThenShort(held: int): seq<DeskOp> {
    [Handle(SureEntry(FIVE_LOTS, held, Buy)), Handle(SureEntry(FIVE_LOTS, held, Sell))]
  }

  /**
   * Long five, then reversed to short five, at the strategy's largest position: the stop of the first entry still
   * rests, no plan cancels it, and its fill makes ten short.
   */
  lemma StaleStopBreaksBound(held: int)
    ensures LargestPosition(FIVE_LOTS) == 5
    ensures DeskRun(FIVE_LOTS, held, LongThenShort(held)).net == -5
    ensures DeskRun(FIVE_LOTS, held, LongThenShort(held) + [BracketFills(0, 5)]).net == -10
  {
    hide DeskRun, SureEntry, DeskStep;
    var desk := Entered(held, EMPTY_DESK, Buy);
    var reversed := Entered(held, desk, Sell);
    var long, short := Handle(SureEntry(FIVE_LOTS, held, Buy)), Handle(SureEntry(FIVE_LOTS, held, Sell));
    RunNone(FIVE_LOTS, held);
    RunSnoc(FIVE_LOTS, held, [], long);
    RunSnoc(FIVE_LOTS, held, [long], short);
    assert [] + [long] == [long] && [long] + [short] == LongThenShort(held);
    RunSnoc(FIVE_LOTS, held, LongThenShort(held), BracketFills(0, 5));
    StaleStopFills(held, desk, reversed);
  }

  lemma StaleStopFills(held: int, before: Desk, desk: Desk)
    requires before.resting != [] && before.resting <= desk.resting && desk.net == -5
    requires forall b :: b in before.resting ==> b.side == Sell && b.quantity == Some(5)
    ensures DeskStep(FIVE_LOTS, held, desk, BracketFills(0, 5)).net == -10
  {
    assert desk.resting[0] == before.resting[0] && before.resting[0] in before.resting;
  }

  lemma Entered(held: int, desk: Desk, side: Side) returns (after: Desk)
    requires desk.net == 0 || (desk.net == 5 && side == Sell)
    ensures after == DeskStep(FIVE_LOTS, held, desk, Handle(SureEntry(FIVE_LOTS, held, side)))
    ensures after.net == Signed(side, 5)
    ensures desk.resting <= after.resting && |after.resting| > |desk.resting|
    ensures forall b :: b in after.resting[|desk.resting|..] ==>
      b.side == Opposite(side) && b.quantity == Some(5 + Abs(desk.net))
  {
    hide ActionsOf, SureEntry, LeavesBrackets, AfterActions, AllLeave;
    var actions := FiveLotsActs(held, desk.net, side);
    after := DeskStep(FIVE_LOTS, held, desk, Handle(SureEntry(FIVE_LOTS, held, side)));
    assert after.resting[|desk.resting|..] == AllLeave(actions);
  }

  lemma FiveLotsActs(held: int, net: int, side: Side) returns (actions: seq<Action>)
    requires net == 0 || (net == 5 && side == Sell)
    ensures actions == ActionsOf(FIVE_LOTS, net, SureEntry(FIVE_LOTS, held, side))
    ensures AfterActions(net, held, actions) == Signed(side, 5) && AllLeave(actions) != []
    ensures forall b :: b in AllLeave(actions) ==> b.side == Opposite(side) && b.quantity == Some(5 + Abs(net))
  {
    hide ActionsOf, SureEntry, LeavesBrackets, Risk.EntryQuantity, RiskRequestOf, AfterActions, AfterAction;
    FiveLotsSized(held, side);
    SureEntryActs(FIVE_LOTS, held, net, side);
    actions := ActionsOf(FIVE_LOTS, net, SureEntry(FIVE_LOTS, held, side));
    assert actions == [actions[0]] && actions[..0] == [];
    AfterOne(net, held, actions[0]);
    assert AllLeave(actions) == [] + actions[0].oso.brackets == actions[0].oso.brackets;
  }

  lemma FiveLotsSized(held: int, side: Side)
    ensures LeavesBrackets(FIVE_LOTS)
    ensures Risk.EntryQuantity(RiskRequestOf(FIVE_LOTS, SureEntry(FIVE_LOTS, held, side))) == Ok(5)
  {
  }
}
