// Risk evaluation: sizing an entry, the limits that refuse one, and protections the broker has to offer.
module RiskEngine {
  import opened Prelude
  import opened MarketTypes
  import opened StrategyTypes

  datatype Protection = StopLoss | TakeProfit | TrailingStop | DailyLoss

  datatype BrokerSupport = BrokerSupport(stopLoss: bool, takeProfit: bool, trailingStop: bool, dailyLossLimit: bool)

  datatype RiskState = RiskState(
    tradesToday: u32,
    consecutiveLosses: u32,
    unrealizedPnl: Option<Decimal>,
    support: BrokerSupport,
    hardOverrideActive: bool)

  datatype RiskRequest = RiskRequest(
    strategy: CompiledStrategy,
    tickValueUsd: Option<Decimal>,
    state: RiskState,
    intent: ExecutionIntent)

  datatype RiskStatus = Accepted | Rejected | RequiresOverride

  datatype Refusal =
    | TrailingStopUnavailable
    | MaxTradesReached
    | MaxLossesReached
    | MaxDrawdownReached
    | MinAboveMax
    | NoFixedQuantity
    | NoMaxRisk
    | MaxRiskNotPositive
    | NoStopTicks
    | NoTickValue
    | TickValueNotPositive
    | ZeroContracts

  datatype RiskWarning = HandledLocally(protection: Protection) | Unavailable(protection: Protection)

  datatype RiskOutcome = RiskOutcome(
    status: RiskStatus,
    refusal: Option<Refusal>,
    warnings: seq<RiskWarning>,
    adjustedIntent: ExecutionIntent,
    approvedQuantity: Option<u32>,
    hardOverrideReasons: seq<Protection>)

  // ----- protections

  /** Whether the strategy configures a protection at all. */
  predicate Configured(strategy: CompiledStrategy, p: Protection) {
    match p
    case StopLoss => strategy.management.initialStopTicks > 0
    case TakeProfit => strategy.management.takeProfitTicks > 0
    case TrailingStop => strategy.management.trailingEnabled
    case DailyLoss => strategy.risk.brokerDailyLossRequired
  }

  function Preference(strategy: CompiledStrategy, p: Protection): BrokerPreference {
    match p
    case StopLoss => strategy.execution.stopLoss
    case TakeProfit => strategy.execution.takeProfit
    case TrailingStop => strategy.execution.trailingStop
    case DailyLoss => BrokerRequired
  }

  predicate Supported(support: BrokerSupport, p: Protection) {
    match p
    case StopLoss => support.stopLoss
    case TakeProfit => support.takeProfit
    case TrailingStop => support.trailingStop
    case DailyLoss => support.dailyLossLimit
  }

  predicate Missing(request: RiskRequest, p: Protection, preference: BrokerPreference) {
    && Configured(request.strategy, p) && !Supported(request.state.support, p)
    && Preference(request.strategy, p) == preference
  }

  function Only(keep: bool, p: Protection): seq<Protection> { if keep then [p] else [] }

  function Gap(request: RiskRequest, preference: BrokerPreference, p: Protection): seq<Protection> {
    Only(Missing(request, p, preference), p)
  }

  function MissingWith(request: RiskRequest, preference: BrokerPreference): seq<Protection> {
    Gap(request, preference, StopLoss) + Gap(request, preference, TakeProfit)
    + Gap(request, preference, TrailingStop) + Gap(request, preference, DailyLoss)
  }

  lemma MissingWithIsExact(request: RiskRequest, preference: BrokerPreference)
    ensures forall p :: p in MissingWith(request, preference) <==> Missing(request, p, preference)
    ensures MissingWith(request, preference) == [] <==> forall p :: !Missing(request, p, preference)
  {
    var a, b, c, d := Gap(request, preference, StopLoss), Gap(request, preference, TakeProfit),
      Gap(request, preference, TrailingStop), Gap(request, preference, DailyLoss);
    forall p ensures p in MissingWith(request, preference) <==> Missing(request, p, preference) {
      assert p in a + b + c + d <==> p in a || p in b || p in c || p in d;
    }
    if p: Protection :| Missing(request, p, preference) {
      assert p in MissingWith(request, preference);
    }
    if MissingWith(request, preference) != [] {
      assert MissingWith(request, preference)[0] in MissingWith(request, preference);
    }
  }

  /** One configured protection: nothing if supported, else a reason to refuse, a warning, or nothing. */
  method EvaluateFeature(request: RiskRequest, p: Protection, warnings: seq<Protection>, reasons: seq<Protection>)
    returns (warned: seq<Protection>, refused: seq<Protection>)
    requires Configured(request.strategy, p)
    ensures warned == warnings + Gap(request, BrokerPreferred, p)
    ensures refused == reasons + Gap(request, BrokerRequired, p)
  {
    warned, refused := warnings, reasons;
    if Supported(request.state.support, p) {
      return;
    }
    match Preference(request.strategy, p) {
      case BrokerRequired => refused := refused + [p];
      case BrokerPreferred => warned := warned + [p];
      case BotAllowed =>
    }
  }

  lemma NoGap(request: RiskRequest, preference: BrokerPreference, p: Protection, before: seq<Protection>)
    requires !Missing(request, p, preference)
    ensures Gap(request, preference, p) == [] && before + Gap(request, preference, p) == before
  {
  }

  method EvaluateProtections(request: RiskRequest) returns (warnings: seq<Protection>, reasons: seq<Protection>)
    ensures warnings == MissingWith(request, BrokerPreferred)
    ensures reasons == MissingWith(request, BrokerRequired)
  {
    hide Gap;
    var strategy, support := request.strategy, request.state.support;
    warnings, reasons := [], [];
    if strategy.management.initialStopTicks > 0 {
      warnings, reasons := EvaluateFeature(request, StopLoss, warnings, reasons);
    } else {
      NoGap(request, BrokerPreferred, StopLoss, warnings);
      NoGap(request, BrokerRequired, StopLoss, reasons);
    }
    if strategy.management.takeProfitTicks > 0 {
      warnings, reasons := EvaluateFeature(request, TakeProfit, warnings, reasons);
    } else {
      NoGap(request, BrokerPreferred, TakeProfit, warnings);
      NoGap(request, BrokerRequired, TakeProfit, reasons);
    }
    if strategy.management.trailingEnabled {
      warnings, reasons := EvaluateFeature(request, TrailingStop, warnings, reasons);
    } else {
      NoGap(request, BrokerPreferred, TrailingStop, warnings);
      NoGap(request, BrokerRequired, TrailingStop, reasons);
    }
    NoGap(request, BrokerPreferred, DailyLoss, warnings);
    if strategy.risk.brokerDailyLossRequired && !support.dailyLossLimit {
      ghost var before := reasons;
      reasons := reasons + [DailyLoss];
      DailyLossGap(request, before);
    } else {
      NoGap(request, BrokerRequired, DailyLoss, reasons);
    }
  }

  lemma DailyLossGap(request: RiskRequest, before: seq<Protection>)
    requires Missing(request, DailyLoss, BrokerRequired)
    ensures before + Gap(request, BrokerRequired, DailyLoss) == before + [DailyLoss]
  {
  }

  // ----- sizing

  predicate BoundsOrdered(sizing: PositionSizing) {
    sizing.minContracts.Some? && sizing.maxContracts.Some? ==> sizing.minContracts.value <= sizing.maxContracts.value
  }

  /** Raised to the minimum first, then cut to the maximum. */
  function ApplyBounds(quantity: u32, sizing: PositionSizing): u32 {
    var raised := if sizing.minContracts.Some? then Max(quantity, sizing.minContracts.value) else quantity;
    if sizing.maxContracts.Some? then Min(raised, sizing.maxContracts.value) else raised
  }

  function FixedQuantity(sizing: PositionSizing, requested: u32): Result<u32, Refusal> {
    var quantity := sizing.contracts.GetOr(requested);
    if quantity == 0 then Err(NoFixedQuantity) else Ok(ApplyBounds(quantity, sizing))
  }

  /** What one contract loses when its stop is hit. */
  function RiskPerContract(strategy: CompiledStrategy, tickValue: Decimal): Decimal {
    strategy.management.initialStopTicks * tickValue
  }

  /** How many contracts the risk budget pays for. */
  function AffordableContracts(maxRisk: Decimal, riskPerContract: Decimal): nat
    requires maxRisk > 0 && riskPerContract > 0
  {
    maxRisk / riskPerContract
  }

  function RiskBasedQuantity(strategy: CompiledStrategy, tickValueUsd: Option<Decimal>): Result<u32, Refusal> {
    var sizing := strategy.sizing;
    if sizing.maxRiskUsd.None? then Err(NoMaxRisk)
    else if sizing.maxRiskUsd.value <= 0 then Err(MaxRiskNotPositive)
    else if strategy.management.initialStopTicks == 0 then Err(NoStopTicks)
    else if tickValueUsd.None? then Err(NoTickValue)
    else if tickValueUsd.value <= 0 then Err(TickValueNotPositive)
    else
      var affordable := AffordableContracts(sizing.maxRiskUsd.value, RiskPerContract(strategy, tickValueUsd.value));
      var computed: u32 := if affordable <= U32_MAX then affordable else 0;
      var quantity := if computed == 0 then sizing.fallbackFixedContracts.GetOr(0) else computed;
      var bounded := ApplyBounds(quantity, sizing);
      if bounded == 0 then Err(ZeroContracts) else Ok(bounded)
  }

  function EntryQuantity(request: RiskRequest): Result<u32, Refusal>
    requires request.intent.Enter?
  {
    if !BoundsOrdered(request.strategy.sizing) then Err(MinAboveMax)
    else
      match request.strategy.sizing.mode
      case FixedSizing => FixedQuantity(request.strategy.sizing, request.intent.quantity)
      case RiskBasedSizing => RiskBasedQuantity(request.strategy, request.tickValueUsd)
  }

  // ----- the decision

  function LimitReached(request: RiskRequest): Option<Refusal> {
    var limits, state := request.strategy.risk, request.state;
    if state.tradesToday >= limits.maxTradesPerDay then Some(MaxTradesReached)
    else if state.consecutiveLosses >= limits.maxConsecutiveLosses then Some(MaxLossesReached)
    else if limits.maxUnrealizedDrawdownUsd.Some? && state.unrealizedPnl.Some? && state.unrealizedPnl.value < 0
            && -state.unrealizedPnl.value >= limits.maxUnrealizedDrawdownUsd.value then Some(MaxDrawdownReached)
    else None
  }

  function WarningsOf(preferred: seq<Protection>, required: seq<Protection>): seq<RiskWarning> {
    seq(|preferred|, i requires 0 <= i < |preferred| => HandledLocally(preferred[i]))
    + seq(|required|, i requires 0 <= i < |required| => Unavailable(required[i]))
  }

  function OverrideOutcome(request: RiskRequest, intent: ExecutionIntent, approved: Option<u32>,
                           preferred: seq<Protection>, required: seq<Protection>): RiskOutcome
  {
    var status := if required == [] || request.state.hardOverrideActive then Accepted else RequiresOverride;
    RiskOutcome(status, None, WarningsOf(preferred, required), intent, approved, required)
  }

  function RejectedOutcome(request: RiskRequest, refusal: Refusal, preferred: seq<Protection>,
                           required: seq<Protection>)
    : RiskOutcome
  {
    RiskOutcome(Rejected, Some(refusal), WarningsOf(preferred, required), request.intent, None, required)
  }

  function Evaluate(request: RiskRequest): RiskOutcome {
    if !request.intent.Enter? then OverrideOutcome(request, request.intent, None, [], [])
    else
      var preferred, required := MissingWith(request, BrokerPreferred), MissingWith(request, BrokerRequired);
      if Missing(request, TrailingStop, BrokerRequired) then
        RejectedOutcome(request, TrailingStopUnavailable, preferred, required).(hardOverrideReasons := [])
      else
        match LimitReached(request)
        case Some(refusal) => RejectedOutcome(request, refusal, preferred, required)
        case None =>
          match EntryQuantity(request)
          case Err(refusal) => RejectedOutcome(request, refusal, preferred, required)
          case Ok(quantity) =>
            OverrideOutcome(request, request.intent.(quantity := quantity), Some(quantity), preferred, required)
  }

  method EvaluateRequest(request: RiskRequest) returns (outcome: RiskOutcome)
    ensures outcome == Evaluate(request)
  {
    if !request.intent.Enter? {
      return OverrideOutcome(request, request.intent, None, [], []);
    }
    var preferred, required := EvaluateProtections(request);
    if request.strategy.management.trailingEnabled && request.strategy.execution.trailingStop == BrokerRequired
       && !request.state.support.trailingStop
    {
      return RejectedOutcome(request, TrailingStopUnavailable, preferred, required).(hardOverrideReasons := []);
    }
    var limit := LimitReached(request);
    if limit.Some? {
      return RejectedOutcome(request, limit.value, preferred, required);
    }
    match EntryQuantity(request) {
      case Err(refusal) => outcome := RejectedOutcome(request, refusal, preferred, required);
      case Ok(quantity) =>
        outcome := OverrideOutcome(request, request.intent.(quantity := quantity), Some(quantity), preferred, required);
    }
  }

  // ----- what the decision promises

  /**
   * The budget law. A risk-based quantity stays within the budget exactly when the budget pays for at least
   * one contract and the configured minimum does not exceed what it pays for: the fallback quantity and the
   * minimum are applied whatever they cost. Within the budget the quantity is also as large as allowed.
   */
  lemma RiskBudget(strategy: CompiledStrategy, tickValue: Decimal)
    requires BoundsOrdered(strategy.sizing) && RiskBasedQuantity(strategy, Some(tickValue)).Ok?
    ensures strategy.sizing.maxRiskUsd.Some? && strategy.sizing.maxRiskUsd.value > 0
    ensures RiskPerContract(strategy, tickValue) > 0
    ensures var q := RiskBasedQuantity(strategy, Some(tickValue)).value;
      var sizing, unit := strategy.sizing, RiskPerContract(strategy, tickValue);
      var affordable := AffordableContracts(sizing.maxRiskUsd.value, unit);
      var sound := affordable >= 1 && sizing.minContracts.GetOr(0) <= affordable;
      && (q * unit <= sizing.maxRiskUsd.value <==> sound)
      && (sound && affordable <= U32_MAX ==> Some(q) == sizing.maxContracts || (q + 1) * unit > sizing.maxRiskUsd.value)
  {
    ProductPositive(strategy.management.initialStopTicks, tickValue);
    var q: int := RiskBasedQuantity(strategy, Some(tickValue)).value;
    var sizing, unit := strategy.sizing, RiskPerContract(strategy, tickValue);
    hide RiskPerContract;
    AffordableIsFloor(sizing.maxRiskUsd.value, unit, q);
    AffordableIsFloor(sizing.maxRiskUsd.value, unit, q + 1);
  }

  lemma ProductPositive(a: int, b: int)
    requires a > 0 && b > 0
    ensures a * b > 0
  {
  }

  /** A quantity fits the budget exactly when it is at most what the budget pays for. */
  lemma AffordableIsFloor(maxRisk: Decimal, unit: Decimal, q: nat)
    requires maxRisk > 0 && unit > 0
    ensures q * unit <= maxRisk <==> q <= AffordableContracts(maxRisk, unit)
  {
    var f := maxRisk / unit;
    assert f * unit <= maxRisk < (f + 1) * unit;
    if q <= f {
      MultiplyMonotone(q, f, unit);
    } else {
      MultiplyMonotone(f + 1, q, unit);
    }
  }

  lemma MultiplyMonotone(a: int, b: int, c: int)
    requires a <= b && c >= 0
    ensures a * c <= b * c
  {
  }

  /** Risk-based sizing succeeds exactly when every input is usable and the bounds leave something to trade. */
  lemma RiskSizingSucceeds(strategy: CompiledStrategy, tickValueUsd: Option<Decimal>)
    ensures RiskBasedQuantity(strategy, tickValueUsd).Ok? <==>
      && strategy.sizing.maxRiskUsd.GetOr(0) > 0 && strategy.management.initialStopTicks > 0
         && tickValueUsd.GetOr(0) > 0
      && strategy.sizing.maxContracts != Some(0)
      && (|| strategy.sizing.minContracts.GetOr(0) > 0 || strategy.sizing.fallbackFixedContracts.GetOr(0) > 0
          || 1 <= strategy.sizing.maxRiskUsd.value / RiskPerContract(strategy, tickValueUsd.value) <= U32_MAX)
  {
    if strategy.management.initialStopTicks > 0 && tickValueUsd.GetOr(0) > 0 {
      ProductPositive(strategy.management.initialStopTicks, tickValueUsd.value);
    }
  }

  /** Entry sizes respect both bounds; only fixed sizing under a maximum of zero approves nothing at all. */
  lemma ApprovedWithinBounds(request: RiskRequest)
    requires request.intent.Enter? && EntryQuantity(request).Ok?
    ensures var q, sizing := EntryQuantity(request).value, request.strategy.sizing;
      && (sizing.maxContracts.Some? ==> q <= sizing.maxContracts.value)
      && (sizing.minContracts.Some? ==> sizing.minContracts.value <= q)
      && (q == 0 <==> sizing.mode == FixedSizing && sizing.maxContracts == Some(0))
  {
    hide AffordableContracts, RiskPerContract;
    if request.strategy.sizing.mode == RiskBasedSizing {
      RiskQuantityIsBounded(request.strategy, request.tickValueUsd);
    }
  }

  lemma RiskQuantityIsBounded(strategy: CompiledStrategy, tickValueUsd: Option<Decimal>)
    requires RiskBasedQuantity(strategy, tickValueUsd).Ok?
    ensures RiskBasedQuantity(strategy, tickValueUsd).value > 0
    ensures exists raw: u32 :: RiskBasedQuantity(strategy, tickValueUsd).value == ApplyBounds(raw, strategy.sizing)
  {
    hide ApplyBounds;
    ProductPositive(strategy.management.initialStopTicks, tickValueUsd.value);
    var affordable := AffordableContracts(strategy.sizing.maxRiskUsd.value,
                                          RiskPerContract(strategy, tickValueUsd.value));
    var computed: u32 := if affordable <= U32_MAX then affordable else 0;
    var raw := if computed == 0 then strategy.sizing.fallbackFixedContracts.GetOr(0) else computed;
    assert RiskBasedQuantity(strategy, tickValueUsd).value == ApplyBounds(raw, strategy.sizing);
  }

  /**
   * The decision on an entry, in terms of the request alone: accepted exactly when no limit is reached, sizing
   * succeeds and each required protection is there or overridden; a required trailing stop cannot be overridden.
   */
  lemma EntryDecision(request: RiskRequest)
    requires request.intent.Enter?
    ensures var outcome := Evaluate(request);
      var required := exists p :: Missing(request, p, BrokerRequired);
      var admissible := && !Missing(request, TrailingStop, BrokerRequired) && LimitReached(request).None?
                        && EntryQuantity(request).Ok?;
      && (outcome.status == Rejected <==> !admissible)
      && (outcome.status == RequiresOverride <==> admissible && required && !request.state.hardOverrideActive)
      && (outcome.status != Rejected ==>
            && outcome.approvedQuantity == Some(EntryQuantity(request).value)
            && outcome.adjustedIntent == request.intent.(quantity := EntryQuantity(request).value))
      && (outcome.status == Rejected ==> outcome.approvedQuantity.None? && outcome.adjustedIntent == request.intent)
      && (forall p :: Unavailable(p) in outcome.warnings <==> Missing(request, p, BrokerRequired))
      && (forall p :: HandledLocally(p) in outcome.warnings <==> Missing(request, p, BrokerPreferred))
  {
    hide LimitReached, EntryQuantity, Missing, MissingWith, WarningsOf;
    MissingWithIsExact(request, BrokerRequired);
    MissingWithIsExact(request, BrokerPreferred);
    WarningsAreExact(MissingWith(request, BrokerPreferred), MissingWith(request, BrokerRequired));
  }

  lemma WarningsAreExact(preferred: seq<Protection>, required: seq<Protection>)
    ensures forall p :: Unavailable(p) in WarningsOf(preferred, required) <==> p in required
    ensures forall p :: HandledLocally(p) in WarningsOf(preferred, required) <==> p in preferred
  {
    var warnings := WarningsOf(preferred, required);
    forall p ensures Unavailable(p) in warnings <==> p in required {
      if p in required {
        var i :| 0 <= i < |required| && required[i] == p;
        assert warnings[|preferred| + i] == Unavailable(p);
      }
    }
    forall p ensures HandledLocally(p) in warnings <==> p in preferred {
      if p in preferred {
        var i :| 0 <= i < |preferred| && preferred[i] == p;
        assert warnings[i] == HandledLocally(p);
      }
    }
  }
}
