// Orders as they are sent to Tradovate, and the adapter's validation of them.
module TradovateOrders {
  import opened Prelude
  import opened MarketTypes
  import opened BrokerTypes

  datatype TradovateOrderType =
    | Market | Limit | Stop | StopLimit | MarketIfTouched | Qts | TrailingStopOrder | TrailingStopLimit

  datatype TimeInForce = Day | Fok | Gtc | Gtd | Ioc

  datatype OrderPlacement = OrderPlacement(
    symbol: string,
    side: Side,
    quantity: u32,
    orderType: TradovateOrderType,
    limitPrice: Option<Decimal>,
    stopPrice: Option<Decimal>,
    timeInForce: Option<TimeInForce>,
    isAutomated: bool)

  datatype BracketOrder = BracketOrder(
    side: Side,
    quantity: Option<u32>,
    orderType: TradovateOrderType,
    limitPrice: Option<Decimal>,
    stopPrice: Option<Decimal>,
    timeInForce: Option<TimeInForce>)

  /** An entry order with the protective orders it triggers; the entry's fields are the same as a plain order's. */
  datatype OsoOrderPlacement = OsoOrderPlacement(entry: OrderPlacement, brackets: seq<BracketOrder>)

  datatype InvalidRequest = SymbolMissing | QuantityZero | LimitPriceMissing | StopPriceMissing | BracketCount

  predicate HasRequiredPrices(orderType: TradovateOrderType, limitPrice: Option<Decimal>, stopPrice: Option<Decimal>) {
    && (orderType in {Limit, StopLimit} ==> limitPrice.Some?)
    && (orderType in {Stop, StopLimit} ==> stopPrice.Some?)
  }

  function CheckPrices(orderType: TradovateOrderType, limitPrice: Option<Decimal>, stopPrice: Option<Decimal>)
    : (r: Option<InvalidRequest>)
    ensures r.None? <==> HasRequiredPrices(orderType, limitPrice, stopPrice)
  {
    var needsLimit := orderType.Limit? || orderType.StopLimit?;
    var needsStop := orderType.Stop? || orderType.StopLimit?;
    if needsLimit && limitPrice.None? then Some(LimitPriceMissing)
    else if needsStop && stopPrice.None? then Some(StopPriceMissing)
    else None
  }

  function ValidateOrder(order: OrderPlacement): (r: Option<InvalidRequest>)
    ensures r.None? <==>
      && !Blank(order.symbol) && order.quantity > 0
      && HasRequiredPrices(order.orderType, order.limitPrice, order.stopPrice)
  {
    if Blank(order.symbol) then Some(SymbolMissing)
    else if order.quantity == 0 then Some(QuantityZero)
    else CheckPrices(order.orderType, order.limitPrice, order.stopPrice)
  }

  predicate GoodBracket(bracket: BracketOrder, parentQuantity: u32) {
    && bracket.quantity.GetOr(parentQuantity) > 0
    && HasRequiredPrices(bracket.orderType, bracket.limitPrice, bracket.stopPrice)
  }

  function ValidateBracket(bracket: BracketOrder, parentQuantity: u32): (r: Option<InvalidRequest>)
    ensures r.None? <==> GoodBracket(bracket, parentQuantity)
  {
    if bracket.quantity.GetOr(parentQuantity) == 0 then Some(QuantityZero)
    else CheckPrices(bracket.orderType, bracket.limitPrice, bracket.stopPrice)
  }

  /** The first error among the brackets. */
  function ValidateBrackets(brackets: seq<BracketOrder>, parentQuantity: u32): (r: Option<InvalidRequest>)
    ensures r.None? <==> forall i :: 0 <= i < |brackets| ==> GoodBracket(brackets[i], parentQuantity)
  {
    if brackets == [] then None
    else
      var first := ValidateBracket(brackets[0], parentQuantity);
      if first.Some? then first else ValidateBrackets(brackets[1..], parentQuantity)
  }

  function ValidateOso(order: OsoOrderPlacement): (r: Option<InvalidRequest>)
    ensures r.None? <==>
      && ValidateOrder(order.entry).None? && 1 <= |order.brackets| <= 2
      && forall i :: 0 <= i < |order.brackets| ==> GoodBracket(order.brackets[i], order.entry.quantity)
  {
    var entry := ValidateOrder(order.entry);
    if entry.Some? then entry
    else if order.brackets == [] || |order.brackets| > 2 then Some(BracketCount)
    else ValidateBrackets(order.brackets, order.entry.quantity)
  }
}
