// What a whole run of recorded events leaves in the warm-up buffers, and in which order.
module CoordinatorLaws {
  import opened Prelude
  import opened MarketTypes
  import opened Aggregation
  import opened BatchAggregation
  import opened StreamingLaws
  import opened Warmup
  import opened Coordinator

  function RecordAll(c: CoordinatorState, events: seq<MarketEvent>): CoordinatorState {
    if events == [] then c
    else Record(RecordAll(c, events[..|events| - 1]), events[|events| - 1])
  }

  /** Every event handled over a run, in handling order. */
  function HandledAll(c: CoordinatorState, events: seq<MarketEvent>): seq<MarketEvent> {
    if events == [] then []
    else
      var n := |events| - 1;
      HandledAll(c, events[..n]) + HandledEvents(RecordAll(c, events[..n]), events[n])
  }

  /** A coordinator that has just been built or whose aggregator holds no window. */
  ghost predicate FreshPlan(c: CoordinatorState) {
    c.plan.Some? && PlanValid(c.plan) && c.windows == map[]
  }

  lemma {:induction false} IngestConcat(s: TrackerState, a: seq<MarketEvent>, b: seq<MarketEvent>)
    ensures s.IngestAll(a + b) == s.IngestAll(a).IngestAll(b)
  {
    hide TrackerState.Ingest;
    if b == [] {
      assert a + b == a;
    } else {
      IngestConcat(s, a, b[..|b| - 1]);
      assert (a + b)[..|a + b| - 1] == a + b[..|b| - 1];
    }
  }

  /** Handling inert events touches the tracker, in order, and leaves the windows alone. */
  lemma {:induction false} HandleInert(c: CoordinatorState, events: seq<MarketEvent>)
    requires PlanValid(c.plan) && Keyed(c.windows)
    requires forall e :: e in events ==> !FeedsAggregator(c, e)
    ensures HandleAll(c, events).tracker == c.tracker.IngestAll(events)
    ensures HandleAll(c, events).windows == c.windows && HandleAll(c, events).plan == c.plan
    decreases |events|
  {
    hide TrackerState.Ingest, IngestEvent, MarkFeed;
    if events != [] {
      CompletedBarsAreInert(c, events[0]);
      var next := HandleOne(c, events[0]);
      forall e | e in events[1..] ensures !FeedsAggregator(next, e) {
        assert e in events;
      }
      HandleInert(next, events[1..]);
      IngestConcat(c.tracker, [events[0]], events[1..]);
      assert [events[0]][..0] == [] && [events[0]] + events[1..] == events;
    }
  }

  lemma RecordIsIngest(c: CoordinatorState, event: MarketEvent)
    requires PlanValid(c.plan) && Keyed(c.windows)
    ensures var after := Record(c, event);
      && after.tracker == c.tracker.IngestAll(HandledEvents(c, event))
      && after.windows == Aggregate(c, event).0 && after.plan == c.plan && Keyed(after.windows)
  {
    hide TrackerState.Ingest, IngestEvent, MarkFeed;
    CompletedBarsAreInert(c, event);
    var bars := Aggregate(c, event).1;
    var next := HandleOne(c, event);
    forall e | e in NewestFirst(bars) ensures !FeedsAggregator(next, e) {
      var i :| 0 <= i < |bars| && NewestFirst(bars)[i] == e;
      assert bars[|bars| - 1 - i] in bars;
      assert !FeedsAggregator(c, BarEvent(bars[|bars| - 1 - i]));
    }
    HandleInert(next, NewestFirst(bars));
    IngestConcat(c.tracker, [event], NewestFirst(bars));
    assert [event][..0] == [];
  }

  /** The tracker has ingested exactly the handled events, and the windows are those of a bare aggregator run. */
  lemma {:induction false} RunIsIngest(c: CoordinatorState, events: seq<MarketEvent>)
    requires FreshPlan(c)
    ensures var after := RecordAll(c, events);
      && after.plan == c.plan && Keyed(after.windows)
      && after.tracker == c.tracker.IngestAll(HandledAll(c, events))
      && after.windows == IngestAll(events, c.plan.value.source, c.plan.value.targets).0
  {
    hide TrackerState.Ingest, IngestEvent, Record, HandledEvents;
    if events != [] {
      var n := |events| - 1;
      RunIsIngest(c, events[..n]);
      var before := RecordAll(c, events[..n]);
      RecordIsIngest(before, events[n]);
      IngestConcat(c.tracker, HandledAll(c, events[..n]), HandledEvents(before, events[n]));
    }
  }

  // ----- delivery order

  lemma {:induction false} DeliveredConcat(a: seq<MarketEvent>, b: seq<MarketEvent>, symbol: string, t: Timeframe)
    ensures Delivered(a + b, symbol, t) == Delivered(a, symbol, t) + Delivered(b, symbol, t)
  {
    if b == [] {
      assert a + b == a;
    } else {
      DeliveredConcat(a, b[..|b| - 1], symbol, t);
      assert (a + b)[..|a + b| - 1] == a + b[..|b| - 1];
    }
  }

  lemma DeliveredFront(event: MarketEvent, rest: seq<MarketEvent>, symbol: string, t: Timeframe)
    ensures Delivered([event] + rest, symbol, t)
         == if event.BarEvent? && event.bar.symbol == symbol && event.bar.timeframe == t
            then [event.bar] + Delivered(rest, symbol, t) else Delivered(rest, symbol, t)
  {
    DeliveredConcat([event], rest, symbol, t);
    assert [event][..0] == [];
    assert [] + Delivered(rest, symbol, t) == Delivered(rest, symbol, t);
  }

  lemma {:induction false} DeliveredNewestFirst(bars: seq<Bar>, symbol: string, t: Timeframe)
    ensures Delivered(NewestFirst(bars), symbol, t) == Reversed(Select(bars, symbol, t))
  {
    hide Delivered;
    if bars == [] {
      DeliveredNone(symbol, t);
    } else {
      var n := |bars| - 1;
      DeliveredNewestFirst(bars[..n], symbol, t);
      DeliveredFront(BarEvent(bars[n]), NewestFirst(bars[..n]), symbol, t);
      var rest := Select(bars[..n], symbol, t);
      assert (rest + [bars[n]])[..|rest|] == rest;
    }
  }

  lemma DeliveredNone(symbol: string, t: Timeframe)
    ensures Delivered([], symbol, t) == []
  {
  }

  /** Bars of a target timeframe only reach the coordinator by being completed in it. */
  ghost predicate NeverDirect(events: seq<MarketEvent>, symbol: string, t: Timeframe) {
    Delivered(events, symbol, t) == []
  }

  /**
   * Two neighbouring source bars of which the second completes two windows: it lies in another window than the
   * first, which did not finish its own, and it finishes the window it lies in.
   */
  predicate Overtakes(first: Bar, second: Bar, source: Timeframe, target: Timeframe) {
    && WindowStartOf(first, source, target) != WindowStartOf(second, source, target)
    && first.closedAt < WindowStartOf(first, source, target) + Duration(target)
    && second.closedAt >= WindowStartOf(second, source, target) + Duration(target)
  }

  /** Whether a stream holds such a pair: a property of its timestamps alone. */
  ghost predicate DoubleEmits(bars: seq<Bar>, source: Timeframe, target: Timeframe) {
    exists i :: 0 <= i < |bars| - 1 && Overtakes(bars[i], bars[i + 1], source, target)
  }

  /** A window is open exactly when the last bar did not finish its own, and it is that bar's. */
  lemma OpenAfter(bars: seq<Bar>, source: Timeframe, target: Timeframe)
    requires bars != []
    ensures var last, window := bars[|bars| - 1], Follow(bars, source, target).0;
      && (window.Some? <==> last.closedAt < WindowStartOf(last, source, target) + Duration(target))
      && (window.Some? ==> window.value.start == WindowStartOf(last, source, target))
  {
    hide AlignWindowStart;
  }

  /** One more bar completes two windows exactly when it overtakes its neighbour. */
  lemma EmitsTwo(bars: seq<Bar>, bar: Bar, source: Timeframe, target: Timeframe)
    ensures |Advance(Follow(bars, source, target).0, bar, source, target).1| == 2
       <==> bars != [] && Overtakes(bars[|bars| - 1], bar, source, target)
  {
    if bars == [] {
      hide AlignWindowStart;
    } else {
      OpenAfter(bars, source, target);
      hide AlignWindowStart, Follow;
    }
  }

  lemma DoubleEmitsGrows(bars: seq<Bar>, bar: Bar, source: Timeframe, target: Timeframe)
    ensures DoubleEmits(bars + [bar], source, target)
       <==> DoubleEmits(bars, source, target) || (bars != [] && Overtakes(bars[|bars| - 1], bar, source, target))
    ensures !DoubleEmits([], source, target)
  {
    hide Overtakes;
    var more, n := bars + [bar], |bars|;
    assert forall i :: 0 <= i < n ==> more[i] == bars[i];
    if i :| 0 <= i < n - 1 && Overtakes(bars[i], bars[i + 1], source, target) {
      assert Overtakes(more[i], more[i + 1], source, target);
    }
    if i :| 0 <= i < n && Overtakes(more[i], more[i + 1], source, target) {
      if i < n - 1 {
        assert Overtakes(bars[i], bars[i + 1], source, target);
      }
    }
    if bars != [] && Overtakes(bars[n - 1], bar, source, target) {
      assert Overtakes(more[n - 1], more[n - 1 + 1], source, target);
    }
  }

  /** What one recorded event delivers for a target: its completed bars, newest first. */
  lemma StepDelivers(c: CoordinatorState, event: MarketEvent, symbol: string, target: Timeframe)
    requires c.plan.Some? && PlanValid(c.plan) && Keyed(c.windows) && target in c.plan.value.targets
    requires !(event.BarEvent? && event.bar.symbol == symbol && event.bar.timeframe == target)
    ensures Delivered(HandledEvents(c, event), symbol, target)
         == Reversed(Select(Aggregate(c, event).1, symbol, target))
  {
    hide IngestEvent, Select;
    var bars := Aggregate(c, event).1;
    DeliveredConcat([event], NewestFirst(bars), symbol, target);
    DeliveredNewestFirst(bars, symbol, target);
    assert [event][..0] == [];
    assert Delivered([event], symbol, target) == [];
    var delivered := Reversed(Select(bars, symbol, target));
    assert [] + delivered == delivered;
  }

  lemma AdvanceEmitsDistinct(window: Option<AggregationWindow>, bar: Bar, source: Timeframe, target: Timeframe)
    requires FiledUnder(window, bar.symbol, target)
    ensures var out := Advance(window, bar, source, target).1;
      |out| <= 2 && (|out| == 2 ==> out[0].closedAt != out[1].closedAt)
  {
    hide AlignWindowStart;
  }

  /** What the last of some events completes for a target, and in which order it is delivered. */
  lemma LastEventDelivers(c: CoordinatorState, events: seq<MarketEvent>, symbol: string, target: Timeframe)
    returns (chunk: seq<Bar>)
    requires FreshPlan(c) && target in c.plan.value.targets && NeverDirect(events, symbol, target) && events != []
    ensures var n, source := |events| - 1, c.plan.value.source;
      var bars, before := SourceBars(events, symbol, source), SourceBars(events[..n], symbol, source);
      && NeverDirect(events[..n], symbol, target)
      && Delivered(HandledAll(c, events), symbol, target)
           == Delivered(HandledAll(c, events[..n]), symbol, target) + Reversed(chunk)
      && Follow(bars, source, target).1 == Follow(before, source, target).1 + chunk
      && |chunk| <= 2 && (|chunk| == 2 ==> chunk[0] != chunk[1])
      && (DoubleEmits(bars, source, target) <==> DoubleEmits(before, source, target) || |chunk| == 2)
  {
    hide Advance, Select, AlignWindowStart, IngestTargets, Record, HandledEvents, DoubleEmits, Overtakes;
    var n := |events| - 1;
    var source, targets := c.plan.value.source, c.plan.value.targets;
    RunIsIngest(c, events[..n]);
    var before := RecordAll(c, events[..n]);
    StepDelivers(before, events[n], symbol, target);
    DeliveredConcat(HandledAll(c, events[..n]), HandledEvents(before, events[n]), symbol, target);
    var bars := SourceBars(events[..n], symbol, source);
    SlotFollowsItsSymbol(events[..n], source, targets, symbol, target);
    SelectNone(symbol, target);
    chunk := Select(Aggregate(before, events[n]).1, symbol, target);
    if FeedsAggregator(before, events[n]) {
      TargetsAreIndependent(before.windows, events[n].bar, source, targets, symbol, target);
      if events[n].bar.symbol == symbol {
        var window := Follow(bars, source, target).0;
        KeyedSlot(before.windows, (symbol, target));
        AdvanceEmitsDistinct(window, events[n].bar, source, target);
        EmitsTwo(bars, events[n].bar, source, target);
        DoubleEmitsGrows(bars, events[n].bar, source, target);
        assert (bars + [events[n].bar])[..|bars|] == bars;
        assert chunk == Advance(window, events[n].bar, source, target).1;
      }
    }
  }

  /**
   * Order of delivery. The worklist is a stack, so the bars reach the tracker in the order in which they
   * were completed if and only if no source bar of the stream overtakes its neighbour.
   */
  lemma {:induction false} DeliveryOrder(c: CoordinatorState, events: seq<MarketEvent>, symbol: string,
                                         target: Timeframe)
    requires FreshPlan(c) && target in c.plan.value.targets && NeverDirect(events, symbol, target)
    ensures var source := c.plan.value.source;
      var delivered := Delivered(HandledAll(c, events), symbol, target);
      var completed := Follow(SourceBars(events, symbol, source), source, target).1;
      && |delivered| == |completed|
      && (delivered == completed <==> !DoubleEmits(SourceBars(events, symbol, source), source, target))
  {
    hide Advance, Record, HandledEvents, DoubleEmits, HandledAll, NeverDirect, Follow, SourceBars, Delivered;
    if events == [] {
      NothingDelivered(c, symbol, target);
    } else {
      var n := |events| - 1;
      var chunk := LastEventDelivers(c, events, symbol, target);
      DeliveryOrder(c, events[..n], symbol, target);
      ChunkOrder(Delivered(HandledAll(c, events[..n]), symbol, target),
                 Follow(SourceBars(events[..n], symbol, c.plan.value.source), c.plan.value.source, target).1, chunk);
    }
  }

  lemma NothingDelivered(c: CoordinatorState, symbol: string, target: Timeframe)
    requires c.plan.Some?
    ensures var source := c.plan.value.source;
      && Delivered(HandledAll(c, []), symbol, target) == [] && SourceBars([], symbol, source) == []
      && Follow([], source, target).1 == [] && !DoubleEmits([], source, target)
  {
  }

  lemma ChunkOrder(delivered: seq<Bar>, completed: seq<Bar>, chunk: seq<Bar>)
    requires |delivered| == |completed| && |chunk| <= 2
    requires |chunk| == 2 ==> chunk[0] != chunk[1]
    ensures delivered + Reversed(chunk) == completed + chunk <==> delivered == completed && |chunk| != 2
  {
    var a, b, n := delivered + Reversed(chunk), completed + chunk, |delivered|;
    assert a[..n] == delivered && b[..n] == completed && a[n..] == Reversed(chunk) && b[n..] == chunk;
    if |chunk| == 2 {
      assert Reversed(chunk)[0] == chunk[1];
    } else {
      assert Reversed(chunk) == chunk;
    }
  }

  // ----- gap-free streams

  ghost predicate GapFree(bars: seq<Bar>, source: Timeframe) {
    && (forall i :: 0 <= i < |bars| ==> OnGrid(bars[i].closedAt, source))
    && (forall i :: 0 <= i < |bars| - 1 ==> bars[i + 1].closedAt == bars[i].closedAt + Duration(source))
  }

  lemma {:induction false} GapFreeIncreases(bars: seq<Bar>, source: Timeframe)
    requires GapFree(bars, source)
    ensures GridAlignedIncreasing(bars, source)
  {
    if bars != [] {
      var n := |bars| - 1;
      GapFreeIncreases(bars[..n], source);
      if n > 0 {
        assert bars[(n - 1) + 1].closedAt == bars[n - 1].closedAt + Duration(source) > bars[n - 1].closedAt;
      }
    }
  }

  /** The window, if one is open, is on the grid and still contains the closing time of the last bar. */
  ghost predicate StillOpen(window: Option<AggregationWindow>, closedAt: Time, target: Timeframe) {
    window.Some? ==>
      OnGrid(window.value.start, target)
      && window.value.start <= closedAt < window.value.start + Duration(target)
  }

  lemma GapFreeStep(window: Option<AggregationWindow>, bar: Bar, source: Timeframe, target: Timeframe)
    requires StillOpen(window, bar.closedAt - Duration(source), target)
    ensures |Advance(window, bar, source, target).1| <= 1
    ensures StillOpen(Advance(window, bar, source, target).0, bar.closedAt, target)
  {
    hide AlignWindowStart, OnGrid;
    var started := bar.closedAt - Duration(source);
    AlignIsTheContainingWindow(started, target, if window.Some? then window.value.start else 0);
    assert Duration(source) > 0;
  }

  /** A window left open by the previous bar is the window of the next one, so nothing is ever displaced. */
  lemma {:induction false} GapFreeNeverDoubleEmits(bars: seq<Bar>, source: Timeframe, target: Timeframe)
    requires GapFree(bars, source)
    ensures !DoubleEmits(bars, source, target)
    ensures bars == [] ==> Follow(bars, source, target).0 == None
    ensures bars != [] ==> StillOpen(Follow(bars, source, target).0, bars[|bars| - 1].closedAt, target)
  {
    hide Advance, StillOpen, OnGrid, DoubleEmits, Overtakes, AlignWindowStart, WindowStartOf, Duration;
    if bars == [] {
      DoubleEmitsGrows([], MinuteBar("", 0), source, target);
    } else {
      var n := |bars| - 1;
      GapFreeNeverDoubleEmits(bars[..n], source, target);
      EmitsTwo(bars[..n], bars[n], source, target);
      DoubleEmitsGrows(bars[..n], bars[n], source, target);
      assert bars == bars[..n] + [bars[n]];
      var window := Follow(bars[..n], source, target).0;
      if n > 0 {
        assert bars[(n - 1) + 1].closedAt == bars[n - 1].closedAt + Duration(source);
      } else {
        NothingOpen(bars[n].closedAt - Duration(source), target);
      }
      GapFreeStep(window, bars[n], source, target);
    }
  }

  lemma NothingOpen(t: Time, target: Timeframe)
    ensures StillOpen(None, t, target)
  {
  }

  /**
   * On a gap-free stream each target's buffer is the newest `capacity` completed bars of the batch
   * grouping of everything recorded; the batch's remaining bar, if any, is the window still open.
   */
  lemma GapFreeBuffers(c: CoordinatorState, now: Time, events: seq<MarketEvent>, target: Timeframe)
    requires FreshPlan(c) && c.tracker == c.tracker.Reset(now)
    requires target in c.plan.value.targets && target in c.tracker.required
    requires var symbol := c.tracker.symbol;
      && NeverDirect(events, symbol, target)
      && GapFree(SourceBars(events, symbol, c.plan.value.source), c.plan.value.source)
    ensures var source, symbol := c.plan.value.source, c.tracker.symbol;
      var after := RecordAll(c, events);
      var completed := Follow(SourceBars(events, symbol, source), source, target).1;
      && target in after.tracker.buffers
      && after.tracker.buffers[target] == LastN(completed, RetainedCapacity(target, c.tracker.required[target]))
      && completed + Closing(Get(after.windows, (symbol, target)))
           == Batch(SourceBars(events, symbol, source), Aligned(source, target), target)
  {
    hide Advance, AlignWindowStart, Batch, Record, HandledEvents, RetainedCapacity, LastN, GapFree;
    var source, symbol := c.plan.value.source, c.tracker.symbol;
    var bars := SourceBars(events, symbol, source);
    RunIsIngest(c, events);
    BuffersAreTheNewestBars(c.tracker, now, HandledAll(c, events), target);
    DeliveryOrder(c, events, symbol, target);
    GapFreeNeverDoubleEmits(bars, source, target);
    GapFreeIncreases(bars, source);
    GridBarsDoNotOverlap(bars, source);
    FollowIsBatch(bars, source, target);
    SlotFollowsItsSymbol(events, source, c.plan.value.targets, symbol, target);
  }

  /** The source timeframe's own buffer is the newest source bars, on any stream. */
  lemma SourceBuffer(c: CoordinatorState, now: Time, events: seq<MarketEvent>)
    requires FreshPlan(c) && c.tracker == c.tracker.Reset(now) && c.plan.value.source in c.tracker.required
    ensures var source := c.plan.value.source;
      var after := RecordAll(c, events);
      && source in after.tracker.buffers
      && after.tracker.buffers[source]
           == LastN(SourceBars(events, c.tracker.symbol, source), RetainedCapacity(source, c.tracker.required[source]))
  {
    hide Record, RetainedCapacity, LastN;
    RunIsIngest(c, events);
    BuffersAreTheNewestBars(c.tracker, now, HandledAll(c, events), c.plan.value.source);
    SourceDelivered(c, events, c.tracker.symbol);
  }

  lemma {:induction false} SourceDelivered(c: CoordinatorState, events: seq<MarketEvent>, symbol: string)
    requires FreshPlan(c)
    ensures Delivered(HandledAll(c, events), symbol, c.plan.value.source)
         == SourceBars(events, symbol, c.plan.value.source)
  {
    hide Record, IngestEvent, Select;
    if events != [] {
      var n := |events| - 1;
      var source := c.plan.value.source;
      SourceDelivered(c, events[..n], symbol);
      RunIsIngest(c, events[..n]);
      var before := RecordAll(c, events[..n]);
      var bars := Aggregate(before, events[n]).1;
      CompletedBarsAreInert(before, events[n]);
      forall b | b in bars ensures b.timeframe != source {
        assert !FeedsAggregator(before, BarEvent(b));
      }
      SelectForeign(bars, symbol, source);
      DeliveredNewestFirst(bars, symbol, source);
      DeliveredConcat([events[n]], NewestFirst(bars), symbol, source);
      DeliveredConcat(HandledAll(c, events[..n]), HandledEvents(before, events[n]), symbol, source);
      assert [events[n]][..0] == [];
    }
  }

  lemma {:induction false} SelectForeign(bars: seq<Bar>, symbol: string, t: Timeframe)
    requires forall b :: b in bars ==> b.timeframe != t
    ensures Select(bars, symbol, t) == []
  {
    if bars != [] {
      var n := |bars| - 1;
      SelectForeign(bars[..n], symbol, t);
      assert bars[n] in bars;
    }
  }

  // ----- a gap can reverse the order

  function MinuteBar(symbol: string, minute: int): Bar {
    Bar(symbol, OneMinute, 1, 1, 1, 1, 1, minute * Duration(OneMinute))
  }

  /** A coordinator that aggregates minutes to five minutes. */
  function FiveMinuteCoordinator(): CoordinatorState {
    CoordinatorState(None, map[], Subscribed, None, Some(AggregationPlan(OneMinute, [FiveMinute])), map[],
                     TrackerState("ES", true, map[], map[], None, 0, None), 0, None, None, 0)
  }

  /**
   * With a gap the order does break: minute one opens the first five-minute window, minute ten then displaces it
   * and finishes the second window at once, and the tracker gets the second window's bar before the first's.
   */
  lemma GapReversesDelivery()
    ensures var c, bars := FiveMinuteCoordinator(), [MinuteBar("ES", 1), MinuteBar("ES", 10)];
      var completed := Follow(bars, OneMinute, FiveMinute).1;
      && FreshPlan(c) && GridAlignedIncreasing(bars, OneMinute) && |completed| == 2
      && completed[0].closedAt == Duration(FiveMinute) && completed[1].closedAt == 2 * Duration(FiveMinute)
      && Delivered(HandledAll(c, [BarEvent(bars[0]), BarEvent(bars[1])]), "ES", FiveMinute)
          == [completed[1], completed[0]]
  {
    var first, second := MinuteBar("ES", 1), MinuteBar("ES", 10);
    ExampleCompletes(first, second);
    ExampleStream(first, second);
    hide HandledAll, Advance, Follow, SourceBars, MinuteBar, NeverDirect, GridAlignedIncreasing, FreshPlan, Duration;
    NothingAfterOne(first, second);
    ReversedAfterTwo(first, second);
    TwoReversed(Follow([first, second], OneMinute, FiveMinute).1);
  }

  lemma TwoReversed(bars: seq<Bar>)
    ensures |bars| == 2 ==> Reversed(bars) == [bars[1], bars[0]]
  {
  }

  lemma NothingAfterOne(first: Bar, second: Bar)
    requires first == MinuteBar("ES", 1) && second == MinuteBar("ES", 10)
    ensures Delivered(HandledAll(FiveMinuteCoordinator(), [BarEvent(first)]), "ES", FiveMinute) == []
  {
    var c, events := FiveMinuteCoordinator(), [BarEvent(first)];
    assert events[..0] == [] && [BarEvent(first), BarEvent(second)][..1] == events;
    ExampleCompletes(first, second);
    ExampleStream(first, second);
    hide HandledAll, Advance, Follow, SourceBars, MinuteBar, FreshPlan, DoubleEmits, NeverDirect;
    StillNeverDirect(first, second);
    var none := LastEventDelivers(c, events, "ES", FiveMinute);
    NothingDelivered(c, "ES", FiveMinute);
    assert none == [];
  }

  lemma StillNeverDirect(first: Bar, second: Bar)
    requires NeverDirect([BarEvent(first), BarEvent(second)], "ES", FiveMinute)
    ensures NeverDirect([BarEvent(first)], "ES", FiveMinute)
  {
    assert [BarEvent(first), BarEvent(second)][..1] == [BarEvent(first)];
  }

  lemma ReversedAfterTwo(first: Bar, second: Bar)
    requires first == MinuteBar("ES", 1) && second == MinuteBar("ES", 10)
    requires Delivered(HandledAll(FiveMinuteCoordinator(), [BarEvent(first)]), "ES", FiveMinute) == []
    ensures Delivered(HandledAll(FiveMinuteCoordinator(), [BarEvent(first), BarEvent(second)]), "ES", FiveMinute)
         == Reversed(Follow([first, second], OneMinute, FiveMinute).1)
  {
    var c, events := FiveMinuteCoordinator(), [BarEvent(first), BarEvent(second)];
    assert events[..1] == [BarEvent(first)];
    ExampleCompletes(first, second);
    ExampleStream(first, second);
    hide HandledAll, Advance, Follow, SourceBars, MinuteBar, FreshPlan, DoubleEmits, NeverDirect;
    var last := LastEventDelivers(c, events, "ES", FiveMinute);
    assert [] + Reversed(last) == Reversed(last) && [] + last == last;
  }

  lemma ExampleStream(first: Bar, second: Bar)
    requires first == MinuteBar("ES", 1) && second == MinuteBar("ES", 10)
    ensures SourceBars([], "ES", OneMinute) == [] && SourceBars([BarEvent(first)], "ES", OneMinute) == [first]
    ensures SourceBars([BarEvent(first), BarEvent(second)], "ES", OneMinute) == [first, second]
    ensures NeverDirect([BarEvent(first), BarEvent(second)], "ES", FiveMinute)
    ensures FreshPlan(FiveMinuteCoordinator()) && GridAlignedIncreasing([first, second], OneMinute)
  {
    hide Duration, FreshPlan;
    var e, g := BarEvent(first), BarEvent(second);
    assert [e, g][..1] == [e] && [e][..0] == [];
    assert SourceBars([e], "ES", OneMinute) == [first];
    assert Delivered([e], "ES", FiveMinute) == [];
    ExampleIsOnGrid(first, second);
  }

  lemma ExampleIsOnGrid(first: Bar, second: Bar)
    requires first == MinuteBar("ES", 1) && second == MinuteBar("ES", 10)
    ensures GridAlignedIncreasing([first, second], OneMinute) && FreshPlan(FiveMinuteCoordinator())
  {
  }

  lemma ExampleCompletes(first: Bar, second: Bar)
    requires first == MinuteBar("ES", 1) && second == MinuteBar("ES", 10)
    ensures Follow([first], OneMinute, FiveMinute).1 == []
    ensures var completed := Follow([first, second], OneMinute, FiveMinute).1;
      && |completed| == 2
      && completed[0].closedAt == Duration(FiveMinute) && completed[1].closedAt == 2 * Duration(FiveMinute)
  {
    assert [first, second][..1] == [first] && [first][..0] == [];
    assert WindowStartOf(first, OneMinute, FiveMinute) == 0;
    assert WindowStartOf(second, OneMinute, FiveMinute) == Duration(FiveMinute);
    assert Follow([first], OneMinute, FiveMinute).0 == Some(OpenWindow(first, OneMinute, FiveMinute));
  }
}
