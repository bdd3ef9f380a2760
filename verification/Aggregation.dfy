// Multi-timeframe bar aggregation: the window arithmetic, one ingest step as a function of the
// open windows, and the class that performs it in place.
module Aggregation {
  import opened Prelude
  import opened MarketTypes

  datatype AggregationWindow = AggregationWindow(
    symbol: string,
    timeframe: Timeframe,
    start: Time,
    open: Decimal,
    high: Decimal,
    low: Decimal,
    close: Decimal,
    volume: u64)
  {
    function Update(bar: Bar): AggregationWindow {
      this.(
        high := if bar.high > high then bar.high else high,
        low := if bar.low < low then bar.low else low,
        close := bar.close,
        volume := SaturatingAdd(volume, bar.volume))
    }

    function IntoBar(): Bar {
      Bar(symbol, timeframe, open, high, low, close, volume, start + Duration(timeframe))
    }
  }

  type WindowKey = (string, Timeframe)

  type Windows = map<WindowKey, AggregationWindow>

  /** Every stored window carries the symbol and timeframe it is filed under. */
  ghost predicate Keyed(windows: Windows) {
    forall k :: k in windows ==> windows[k].symbol == k.0 && windows[k].timeframe == k.1
  }

  function WindowStartOf(bar: Bar, source: Timeframe, target: Timeframe): Time {
    AlignWindowStart(bar.closedAt - Duration(source), target)
  }

  function OpenWindow(bar: Bar, source: Timeframe, target: Timeframe): AggregationWindow {
    AggregationWindow(bar.symbol, target, WindowStartOf(bar, source, target),
                      bar.open, bar.high, bar.low, bar.close, bar.volume)
  }

  /** What one source bar does to the open window of one target: the window left open and the bars completed. */
  function Advance(window: Option<AggregationWindow>, bar: Bar, source: Timeframe, target: Timeframe)
    : (Option<AggregationWindow>, seq<Bar>)
  {
    var start := WindowStartOf(bar, source, target);
    var current := match window
      case Some(w) => if w.start == start then w.Update(bar) else OpenWindow(bar, source, target)
      case None => OpenWindow(bar, source, target);
    var displaced := match window
      case Some(w) => if w.start == start then [] else [w.IntoBar()]
      case None => [];
    if bar.closedAt >= start + Duration(target) then
      (None, displaced + [current.IntoBar()])
    else
      (Some(current), displaced)
  }

  /** One source bar against the windows of a list of targets. */
  function IngestTargets(windows: Windows, bar: Bar, source: Timeframe, targets: seq<Timeframe>)
    : (Windows, seq<Bar>)
  {
    if targets == [] then (windows, [])
    else
      var last := targets[|targets| - 1];
      var (before, emitted) := IngestTargets(windows, bar, source, targets[..|targets| - 1]);
      var key := (bar.symbol, last);
      var (window, completed) := Advance(Get(before, key), bar, source, last);
      (Put(before, key, window), emitted + completed)
  }

  /** One event: everything but a bar of the source timeframe is ignored. */
  function IngestEvent(windows: Windows, event: MarketEvent, source: Timeframe, targets: seq<Timeframe>)
    : (Windows, seq<Bar>)
  {
    if event.BarEvent? && event.bar.timeframe == source then
      IngestTargets(windows, event.bar, source, targets)
    else
      (windows, [])
  }

  // ----- flushing

  predicate FlushLeq(a: Bar, b: Bar) {
    if a.symbol != b.symbol then StrLeq(a.symbol, b.symbol)
    else if a.timeframe != b.timeframe then Duration(a.timeframe) < Duration(b.timeframe)
    else a.closedAt <= b.closedAt
  }

  lemma FlushLeqIsTotal()
    ensures TotalPreorder(FlushLeq)
  {
    forall a, b ensures FlushLeq(a, b) || FlushLeq(b, a) {
      StrLeqTotal(a.symbol, b.symbol);
    }
    forall a, b, c | FlushLeq(a, b) && FlushLeq(b, c) ensures FlushLeq(a, c) {
      if StrLeq(a.symbol, b.symbol) && StrLeq(b.symbol, c.symbol) {
        StrLeqTransitive(a.symbol, b.symbol, c.symbol);
      }
      if a.symbol == c.symbol && a.symbol != b.symbol {
        StrLeqAntisymmetric(a.symbol, b.symbol);
      }
    }
  }

  /** The bars of one symbol and timeframe, in order. */
  function Select(bars: seq<Bar>, symbol: string, timeframe: Timeframe): seq<Bar> {
    if bars == [] then []
    else
      var rest := Select(bars[..|bars| - 1], symbol, timeframe);
      var last := bars[|bars| - 1];
      if last.symbol == symbol && last.timeframe == timeframe then rest + [last] else rest
  }

  lemma {:induction false} SelectConcat(a: seq<Bar>, b: seq<Bar>, symbol: string, timeframe: Timeframe)
    ensures Select(a + b, symbol, timeframe) == Select(a, symbol, timeframe) + Select(b, symbol, timeframe)
  {
    if b == [] {
      assert a + b == a;
    } else {
      SelectConcat(a, b[..|b| - 1], symbol, timeframe);
      assert (a + b)[..|a + b| - 1] == a + b[..|b| - 1];
    }
  }

  lemma SelectFront(x: Bar, bars: seq<Bar>, symbol: string, timeframe: Timeframe)
    ensures Select([x] + bars, symbol, timeframe)
         == if x.symbol == symbol && x.timeframe == timeframe then [x] + Select(bars, symbol, timeframe)
            else Select(bars, symbol, timeframe)
    ensures Select([x], symbol, timeframe) == if x.symbol == symbol && x.timeframe == timeframe then [x] else []
    ensures Select([], symbol, timeframe) == []
  {
    assert [x][..0] == [];
    SelectConcat([x], bars, symbol, timeframe);
    assert [] + Select(bars, symbol, timeframe) == Select(bars, symbol, timeframe);
  }

  function Closing(window: Option<AggregationWindow>): seq<Bar> {
    match window
    case Some(w) => [w.IntoBar()]
    case None => []
  }

  /** A flush of `windows`: sorted, and exactly one closing bar for each window. */
  ghost predicate IsFlush(windows: Windows, bars: seq<Bar>) {
    && SortedBy(FlushLeq, bars)
    && forall k: WindowKey {:trigger Get(windows, k)} :: Select(bars, k.0, k.1) == Closing(Get(windows, k))
  }

  lemma {:induction false} SelectInsert(x: Bar, bars: seq<Bar>, symbol: string, timeframe: Timeframe)
    requires Select(bars, x.symbol, x.timeframe) == []
    ensures Select(InsertBy(FlushLeq, x, bars), symbol, timeframe)
         == if symbol == x.symbol && timeframe == x.timeframe then [x] else Select(bars, symbol, timeframe)
  {
    hide Select, FlushLeq;
    SelectFront(x, bars, symbol, timeframe);
    if bars != [] && !FlushLeq(x, bars[0]) {
      assert bars == [bars[0]] + bars[1..];
      SelectFront(bars[0], bars[1..], x.symbol, x.timeframe);
      SelectFront(bars[0], bars[1..], symbol, timeframe);
      SelectFront(bars[0], InsertBy(FlushLeq, x, bars[1..]), symbol, timeframe);
      SelectInsert(x, bars[1..], symbol, timeframe);
    }
  }

  /** Sorting drained bars of pairwise different keys keeps every selection. */
  lemma {:induction false} SelectSort(bars: seq<Bar>, symbol: string, timeframe: Timeframe)
    requires forall s, t :: |Select(bars, s, t)| <= 1
    ensures Select(SortBy(FlushLeq, bars), symbol, timeframe) == Select(bars, symbol, timeframe)
  {
    hide InsertBy, FlushLeq, Select;
    if bars != [] {
      var x, rest := bars[0], bars[1..];
      assert bars == [x] + rest;
      forall s, t ensures |Select(rest, s, t)| <= 1 {
        SelectFront(x, rest, s, t);
        assert |Select(bars, s, t)| <= 1;
      }
      SelectFront(x, rest, x.symbol, x.timeframe);
      SelectFront(x, rest, symbol, timeframe);
      assert |Select(bars, x.symbol, x.timeframe)| <= 1;
      SelectSort(rest, symbol, timeframe);
      SelectSort(rest, x.symbol, x.timeframe);
      SelectInsert(x, SortBy(FlushLeq, rest), symbol, timeframe);
    }
  }

  // ----- windows stay filed under their key

  ghost predicate FiledUnder(window: Option<AggregationWindow>, symbol: string, target: Timeframe) {
    window.Some? ==> window.value.symbol == symbol && window.value.timeframe == target
  }

  lemma AdvanceOutputs(window: Option<AggregationWindow>, bar: Bar, source: Timeframe, target: Timeframe)
    requires FiledUnder(window, bar.symbol, target)
    ensures FiledUnder(Advance(window, bar, source, target).0, bar.symbol, target)
    ensures forall b :: b in Advance(window, bar, source, target).1 ==> b.symbol == bar.symbol && b.timeframe == target
  {
    hide AlignWindowStart;
  }

  lemma AdvanceStaysFiled(window: Option<AggregationWindow>, bar: Bar, source: Timeframe, target: Timeframe,
                          symbol: string, timeframe: Timeframe)
    requires FiledUnder(window, bar.symbol, target)
    ensures var (window', out) := Advance(window, bar, source, target);
            FiledUnder(window', bar.symbol, target)
            && Select(out, symbol, timeframe) == if symbol == bar.symbol && timeframe == target then out else []
  {
    hide AlignWindowStart;
    var (window', out) := Advance(window, bar, source, target);
    assert forall i :: 0 <= i < |out| ==> out[i].symbol == bar.symbol && out[i].timeframe == target;
    SelectUniform(out, bar.symbol, target, symbol, timeframe);
  }

  lemma {:induction false} SelectUniform(bars: seq<Bar>, symbol: string, timeframe: Timeframe, s: string, t: Timeframe)
    requires forall i :: 0 <= i < |bars| ==> bars[i].symbol == symbol && bars[i].timeframe == timeframe
    ensures Select(bars, s, t) == if s == symbol && t == timeframe then bars else []
  {
    if bars != [] {
      SelectUniform(bars[..|bars| - 1], symbol, timeframe, s, t);
    }
  }

  lemma SelectNone(symbol: string, target: Timeframe)
    ensures Select([], symbol, target) == []
  {
  }

  lemma KeyedSlot(windows: Windows, key: WindowKey)
    requires Keyed(windows)
    ensures FiledUnder(Get(windows, key), key.0, key.1)
  {
  }

  lemma PutSlot(windows: Windows, key: WindowKey, window: Option<AggregationWindow>, other: WindowKey)
    requires Keyed(windows) && FiledUnder(window, key.0, key.1)
    ensures Keyed(Put(windows, key, window))
    ensures Get(Put(windows, key, window), other) == if other == key then window else Get(windows, other)
  {
  }

  // ----- the aggregator object

  datatype AggregatorError =
    | AggregatorRequiresTargets
    | InvalidAggregationTarget(source: Timeframe, target: Timeframe)

  ghost predicate ValidTargets(source: Timeframe, targets: seq<Timeframe>) {
    && (forall i :: 0 <= i < |targets| ==> Duration(targets[i]) > Duration(source))
    && (forall i, j :: 0 <= i < j < |targets| ==> targets[i] != targets[j])
  }

  class MultiTimeframeAggregator {
    const sourceTimeframe: Timeframe
    const targetTimeframes: seq<Timeframe>
    var windows: Windows

    ghost predicate Valid()
      reads this
    {
      targetTimeframes != [] && ValidTargets(sourceTimeframe, targetTimeframes) && Keyed(windows)
    }

    constructor (source: Timeframe, targets: seq<Timeframe>)
      requires targets != [] && ValidTargets(source, targets)
      ensures Valid() && fresh(this)
      ensures sourceTimeframe == source && targetTimeframes == targets && windows == map[]
    {
      sourceTimeframe, targetTimeframes, windows := source, targets, map[];
    }

    static method New(source: Timeframe, targets: seq<Timeframe>)
      returns (r: Result<MultiTimeframeAggregator, AggregatorError>)
      ensures r.Ok? <==> targets != [] && forall t :: t in targets ==> Duration(t) > Duration(source)
      ensures r.Ok? ==>
        && fresh(r.value) && r.value.Valid() && r.value.windows == map[]
        && r.value.sourceTimeframe == source && r.value.targetTimeframes == SortDedup(targets)
      ensures targets == [] ==> r == Err(AggregatorRequiresTargets)
      ensures r.Err? && targets != [] ==>
        exists i :: 0 <= i < |targets| && r == Err(InvalidAggregationTarget(source, targets[i]))
                    && Duration(targets[i]) <= Duration(source)
                    && forall j :: 0 <= j < i ==> Duration(targets[j]) > Duration(source)
    {
      if targets == [] {
        return Err(AggregatorRequiresTargets);
      }
      for i := 0 to |targets|
        invariant forall j :: 0 <= j < i ==> Duration(targets[j]) > Duration(source)
      {
        if Duration(targets[i]) <= Duration(source) {
          return Err(InvalidAggregationTarget(source, targets[i]));
        }
      }
      var deduped := SortDedup(targets);
      forall t ensures t in deduped <==> t in targets { SortDedupIsTheSortedSet(targets, t); }
      assert targets[0] in deduped;
      var aggregator := new MultiTimeframeAggregator(source, deduped);
      return Ok(aggregator);
    }

    /** The body of the loop over targets: one source bar against one open window. */
    method AdvanceTarget(bar: Bar, target: Timeframe) returns (completed: seq<Bar>)
      requires Keyed(windows)
      modifies this`windows
      ensures Keyed(windows)
      ensures windows == Put(old(windows), (bar.symbol, target),
                             Advance(Get(old(windows), (bar.symbol, target)), bar, sourceTimeframe, target).0)
      ensures completed == Advance(Get(old(windows), (bar.symbol, target)), bar, sourceTimeframe, target).1
    {
      completed := [];
      var start := AlignWindowStart(bar.closedAt - Duration(sourceTimeframe), target);
      var key := (bar.symbol, target);
      var end := start + Duration(target);

      if key in windows && windows[key].start == start {
        windows := windows[key := windows[key].Update(bar)];
      } else if key in windows {
        var finished := windows[key];
        windows := windows - {key};
        completed := completed + [finished.IntoBar()];
        windows := windows[key := OpenWindow(bar, sourceTimeframe, target)];
      } else {
        windows := windows[key := OpenWindow(bar, sourceTimeframe, target)];
      }

      if bar.closedAt >= end {
        var finished := windows[key];
        windows := windows - {key};
        completed := completed + [finished.IntoBar()];
      }
    }

    method Ingest(event: MarketEvent) returns (completed: seq<Bar>)
      requires Valid()
      modifies this`windows
      ensures Valid()
      ensures (windows, completed) == IngestEvent(old(windows), event, sourceTimeframe, targetTimeframes)
    {
      completed := [];
      if !event.BarEvent? || event.bar.timeframe != sourceTimeframe {
        return;
      }
      var i := 0;
      while i < |targetTimeframes|
        invariant 0 <= i <= |targetTimeframes| && Keyed(windows)
        invariant (windows, completed)
               == IngestTargets(old(windows), event.bar, sourceTimeframe, targetTimeframes[..i])
      {
        assert targetTimeframes[..i + 1][..i] == targetTimeframes[..i];
        var finished := AdvanceTarget(event.bar, targetTimeframes[i]);
        completed := completed + finished;
        i := i + 1;
      }
      assert targetTimeframes[..i] == targetTimeframes;
    }

    method Flush() returns (events: seq<Bar>)
      requires Valid()
      modifies this`windows
      ensures Valid() && windows == map[]
      ensures IsFlush(old(windows), events)
    {
      events := [];
      while windows.Keys != {}
        invariant Keyed(windows) && windows.Keys <= old(windows).Keys
        invariant forall k :: k in windows ==> windows[k] == old(windows)[k]
        invariant forall s, t ::
          Select(events, s, t) == if (s, t) in windows then [] else Closing(Get(old(windows), (s, t)))
        decreases windows.Keys
      {
        var key :| key in windows;
        var bar := windows[key].IntoBar();
        forall s, t
          ensures Select(events + [bar], s, t)
               == if (s, t) in windows - {key} then [] else Closing(Get(old(windows), (s, t)))
        {
          assert (events + [bar])[..|events|] == events;
        }
        windows := windows - {key};
        events := events + [bar];
      }
      FlushLeqIsTotal();
      SortBySorts(FlushLeq, events);
      forall k: WindowKey
        ensures Select(SortBy(FlushLeq, events), k.0, k.1) == Closing(Get(old(windows), k))
      {
        SelectSort(events, k.0, k.1);
        assert k == (k.0, k.1);
      }
      events := SortBy(FlushLeq, events);
    }
  }
}
