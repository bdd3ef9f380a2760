// Broker-side entities shared by the sync cache, the session and the history recorder.
module BrokerTypes {
  import opened Prelude
  import opened MarketTypes

  datatype Side = Buy | Sell

  function Opposite(side: Side): Side {
    match side case Buy => Sell case Sell => Buy
  }

  datatype EntryOrderType = MarketEntry | LimitEntry | StopEntry | StopLimitEntry

  datatype OrderStatus = PendingOrder | WorkingOrder | FilledOrder | CancelledOrder | RejectedOrder

  datatype BrokerOrder = BrokerOrder(
    orderId: string,
    accountId: Option<string>,
    symbol: string,
    side: Option<Side>,
    quantity: Option<nat>,
    orderType: Option<EntryOrderType>,
    status: OrderStatus,
    filledQuantity: nat,
    limitPrice: Option<Decimal>,
    stopPrice: Option<Decimal>,
    averageFillPrice: Option<Decimal>,
    updatedAt: Time)

  datatype BrokerPosition = BrokerPosition(
    accountId: Option<string>,
    symbol: string,
    quantity: int,
    averagePrice: Option<Decimal>,
    realizedPnl: Option<Decimal>,
    unrealizedPnl: Option<Decimal>,
    protectiveOrdersPresent: bool,
    capturedAt: Time)

  datatype BrokerFill = BrokerFill(
    fillId: string,
    orderId: Option<string>,
    accountId: Option<string>,
    symbol: string,
    side: Side,
    quantity: nat,
    price: Decimal,
    fee: Option<Decimal>,
    commission: Option<Decimal>,
    occurredAt: Time)

  datatype BrokerAccount = BrokerAccount(
    accountId: string,
    realizedPnl: Option<Decimal>,
    unrealizedPnl: Option<Decimal>,
    capturedAt: Time)

  // ----- `eq_ignore_ascii_case`

  function AsciiLower(c: char): char {
    if 'A' <= c <= 'Z' then ((c as int) + 32) as char else c
  }

  function FoldCase(s: string): (r: string)
    ensures |r| == |s|
  {
    if s == [] then [] else [AsciiLower(s[0])] + FoldCase(s[1..])
  }

  predicate SameSymbol(a: string, b: string) {
    FoldCase(a) == FoldCase(b)
  }

  // ----- white space

  /** Rust's `char::is_whitespace`: Unicode's `White_Space` property. */
  predicate IsWhitespace(c: char) {
    var n := c as int;
    || 0x9 <= n <= 0xD || n == 0x20 || n == 0x85 || n == 0xA0 || n == 0x1680 || 0x2000 <= n <= 0x200A
    || n == 0x2028 || n == 0x2029 || n == 0x202F || n == 0x205F || n == 0x3000
  }

  /** A text that is empty once trimmed. */
  predicate Blank(s: string) {
    forall i :: 0 <= i < |s| ==> IsWhitespace(s[i])
  }

  function Trim(s: string): string {
    if s == [] then []
    else if IsWhitespace(s[0]) then Trim(s[1..])
    else if IsWhitespace(s[|s| - 1]) then Trim(s[..|s| - 1])
    else s
  }
}
