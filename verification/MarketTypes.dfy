// Market events, timeframes and the window grid.
module MarketTypes {
  import opened Prelude

  /** A decimal number as an exact count of its smallest unit. */
  type Decimal = int

  /** Nanoseconds since the Unix epoch. */
  type Time = int

  const NANOS_PER_SECOND: int := 1_000_000_000
  const U32_MAX: int := 0xFFFF_FFFF
  const U64_MAX: int := 0xFFFF_FFFF_FFFF_FFFF

  type u32 = x: int | 0 <= x <= U32_MAX

  type u64 = x: int | 0 <= x <= U64_MAX

  function SaturatingAdd(a: u64, b: u64): (r: u64)
    ensures r == Min(U64_MAX, a + b)
  {
    if a + b > U64_MAX then U64_MAX else a + b
  }

  datatype Timeframe = OneSecond | OneMinute | FiveMinute

  function Seconds(timeframe: Timeframe): int {
    match timeframe
    case OneSecond => 1
    case OneMinute => 60
    case FiveMinute => 300
  }

  function Duration(timeframe: Timeframe): int {
    Seconds(timeframe) * NANOS_PER_SECOND
  }

  datatype Bar = Bar(
    symbol: string,
    timeframe: Timeframe,
    open: Decimal,
    high: Decimal,
    low: Decimal,
    close: Decimal,
    volume: u64,
    closedAt: Time)
  {
    predicate Sane() {
      low <= open <= high && low <= close <= high
    }
  }

  datatype MarketEvent =
    | TradeEvent(symbol: string, price: Decimal, quantity: u64, occurredAt: Time)
    | BarEvent(bar: Bar)
    | HeartbeatEvent(dataset: string, occurredAt: Time)

  function EventTimestamp(event: MarketEvent): Time {
    match event
    case TradeEvent(_, _, _, occurredAt) => occurredAt
    case BarEvent(bar) => bar.closedAt
    case HeartbeatEvent(_, occurredAt) => occurredAt
  }

  /** Sorting and removing neighbouring duplicates, over the three timeframes there are. */
  function SortDedup(timeframes: seq<Timeframe>): seq<Timeframe> {
    var a := if OneSecond in timeframes then [OneSecond] else [];
    var b := if OneMinute in timeframes then a + [OneMinute] else a;
    if FiveMinute in timeframes then b + [FiveMinute] else b
  }

  /** Nothing is lost, nothing is added, and durations strictly increase. */
  lemma SortDedupIsTheSortedSet(timeframes: seq<Timeframe>, t: Timeframe)
    ensures t in SortDedup(timeframes) <==> t in timeframes
    ensures forall i, j :: 0 <= i < j < |SortDedup(timeframes)| ==>
              Duration(SortDedup(timeframes)[i]) < Duration(SortDedup(timeframes)[j])
  {
    match t case OneSecond => case OneMinute => case FiveMinute =>
  }

  // ----- the window grid

  function AlignWindowStart(timestamp: Time, timeframe: Timeframe): Time {
    var seconds := timestamp / NANOS_PER_SECOND;
    (seconds - seconds % Seconds(timeframe)) * NANOS_PER_SECOND
  }

  ghost predicate OnGrid(t: Time, timeframe: Timeframe) {
    t % Duration(timeframe) == 0
  }

  lemma MultipleHasNoRemainder(q: int, d: int)
    requires d > 0
    ensures (q * d) % d == 0
  {
    DivisionIsUnique(q * d, d, q, 0);
  }

  lemma AbsorbsNoMultiple(k: int, d: int, r: int)
    requires d > 0 && -d < r < d && k * d == r
    ensures k == 0
  {
    assert k >= 1 ==> k * d >= d;
    assert k <= -1 ==> k * d <= -d;
  }

  lemma DivisionIsUnique(x: int, d: int, q: int, r: int)
    requires d > 0 && 0 <= r < d && x == q * d + r
    ensures x / d == q && x % d == r
  {
    var q', r' := x / d, x % d;
    assert x == q' * d + r' && (q - q') * d == r' - r;
    AbsorbsNoMultiple(q - q', d, r' - r);
  }

  /** A number written with two remainders, with one remainder instead. */
  lemma Recombine(q: int, k: int, a: int, n: int, b: int)
    requires 0 <= a < k && 0 <= b < n
    ensures (q * k + a) * n + b == q * (k * n) + (a * n + b)
    ensures 0 <= a * n + b < k * n
  {
    assert (q * k + a) * n == q * k * n + a * n;
    assert (a + 1) * n <= k * n;
  }

  lemma DivideTwice(t: int, n: int, k: int)
    requires n > 0 && k > 0
    ensures k * n > 0 && t / (k * n) == t / n / k
  {
    var s, b := t / n, t % n;
    var q, a := s / k, s % k;
    Recombine(q, k, a, n, b);
    assert t == (q * k + a) * n + b;
    DivisionIsUnique(t, k * n, q, a * n + b);
  }

  /** With q whole windows before the timestamp, the aligned start is q window lengths. */
  lemma AlignQuotient(t: Time, timeframe: Timeframe)
    ensures var q := t / Duration(timeframe);
            AlignWindowStart(t, timeframe) == q * Duration(timeframe)
  {
    var s, k := t / NANOS_PER_SECOND, Seconds(timeframe);
    DivideTwice(t, NANOS_PER_SECOND, k);
    assert s - s % k == s / k * k;
    assert s / k * k * NANOS_PER_SECOND == s / k * (k * NANOS_PER_SECOND);
  }

  /** The aligned start is the one grid point whose window contains the timestamp. */
  lemma AlignIsTheContainingWindow(t: Time, timeframe: Timeframe, g: Time)
    ensures OnGrid(AlignWindowStart(t, timeframe), timeframe)
    ensures AlignWindowStart(t, timeframe) <= t < AlignWindowStart(t, timeframe) + Duration(timeframe)
    ensures OnGrid(g, timeframe) && g <= t < g + Duration(timeframe) ==> g == AlignWindowStart(t, timeframe)
  {
    var d := Duration(timeframe);
    AlignQuotient(t, timeframe);
    MultipleHasNoRemainder(t / d, d);
    if OnGrid(g, timeframe) && g <= t < g + d {
      DivisionIsUnique(t, d, g / d, t - g);
    }
  }

  lemma AlignMonotone(t: Time, u: Time, timeframe: Timeframe)
    requires t <= u
    ensures AlignWindowStart(t, timeframe) <= AlignWindowStart(u, timeframe)
  {
    match timeframe
    case OneSecond =>
    case OneMinute =>
    case FiveMinute =>
  }

  /** Windows nest: aligning to a fine grid first does not change the coarse window. */
  lemma AlignNests(t: Time, fine: Timeframe, coarse: Timeframe)
    requires Duration(fine) <= Duration(coarse)
    ensures AlignWindowStart(AlignWindowStart(t, fine), coarse) == AlignWindowStart(t, coarse)
  {
    var g := AlignWindowStart(t, coarse);
    AlignIsTheContainingWindow(t, coarse, g);
    AlignIsTheContainingWindow(t, fine, t);
    CoarseGridIsFine(g, fine, coarse);
    AlignMonotone(g, t, fine);
    AlignIsTheContainingWindow(g, fine, g);
    AlignIsTheContainingWindow(AlignWindowStart(t, fine), coarse, g);
  }

  lemma CoarseGridIsFine(g: Time, fine: Timeframe, coarse: Timeframe)
    requires OnGrid(g, coarse) && Duration(fine) <= Duration(coarse)
    ensures OnGrid(g, fine)
  {
    var ratio := Seconds(coarse) / Seconds(fine);
    var q := g / Duration(coarse);
    WholeWindows(fine, coarse);
    assert g == q * Duration(coarse);
    assert q * (ratio * Duration(fine)) == (q * ratio) * Duration(fine);
    MultipleHasNoRemainder(q * ratio, Duration(fine));
  }

  /** A coarse window is a whole number of fine ones. */
  lemma WholeWindows(fine: Timeframe, coarse: Timeframe)
    requires Duration(fine) <= Duration(coarse)
    ensures Duration(coarse) == Seconds(coarse) / Seconds(fine) * Duration(fine)
  {
  }
}
