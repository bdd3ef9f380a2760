// The parts of a compiled strategy that sizing and order planning read, and the intents they work on.
module StrategyTypes {
  import opened Prelude
  import opened MarketTypes
  import opened BrokerTypes

  datatype BrokerPreference = BrokerRequired | BrokerPreferred | BotAllowed

  datatype ReversalMode = FlattenFirst | DirectReverse

  datatype SizingMode = FixedSizing | RiskBasedSizing

  datatype PositionSizing = PositionSizing(
    mode: SizingMode,
    contracts: Option<u32>,
    maxRiskUsd: Option<Decimal>,
    minContracts: Option<u32>,
    maxContracts: Option<u32>,
    fallbackFixedContracts: Option<u32>)

  datatype RiskLimits = RiskLimits(
    brokerDailyLossRequired: bool,
    maxTradesPerDay: u32,
    maxConsecutiveLosses: u32,
    maxUnrealizedDrawdownUsd: Option<Decimal>)

  datatype TradeManagement = TradeManagement(
    initialStopTicks: u32,
    takeProfitTicks: u32,
    breakEvenEnabled: bool,
    trailingEnabled: bool,
    partialTakeProfitActive: bool)

  datatype ExecutionSpec = ExecutionSpec(
    reversalMode: ReversalMode,
    allowScaleIn: bool,
    maxLegs: u32,
    stopLoss: BrokerPreference,
    takeProfit: BrokerPreference,
    trailingStop: BrokerPreference)

  datatype CompiledStrategy = CompiledStrategy(
    sizing: PositionSizing,
    risk: RiskLimits,
    management: TradeManagement,
    execution: ExecutionSpec)

  datatype ExecutionIntent =
    | Enter(side: Side, orderType: EntryOrderType, quantity: u32, bracketsExpected: bool)
    | Exit
    | Flatten
    | CancelWorkingOrders
    | ReducePosition(reduceBy: u32)
    | PauseStrategy
}
