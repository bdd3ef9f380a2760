// What a restarted warm-up finds in its buffers: a restart empties them and keeps the windows half built before it.
module WarmupRestartLaws {
  import opened Prelude
  import opened MarketTypes
  import opened Aggregation
  import opened StreamingLaws
  import opened Warmup
  import opened Coordinator
  import opened CoordinatorLaws
  import opened MarketDataService
  import opened ServiceLaws

  // ----- a window slot that starts with a window

  /** The run of a single window slot from some window on. */
  function FollowFrom(window: Option<AggregationWindow>, bars: seq<Bar>, source: Timeframe, target: Timeframe)
    : (Option<AggregationWindow>, seq<Bar>)
  {
    if bars == [] then (window, [])
    else
      var n := |bars| - 1;
      var (before, emitted) := FollowFrom(window, bars[..n], source, target);
      var (after, completed) := Advance(before, bars[n], source, target);
      (after, emitted + completed)
  }

  lemma {:induction false} FollowConcat(a: seq<Bar>, b: seq<Bar>, source: Timeframe, target: Timeframe)
    ensures var (window, emitted) := Follow(a, source, target);
      var (after, more) := FollowFrom(window, b, source, target);
      Follow(a + b, source, target) == (after, emitted + more)
    decreases |b|
  {
    hide Advance;
    if b == [] {
      assert a + b == a;
      assert Follow(a, source, target).1 + [] == Follow(a, source, target).1;
    } else {
      var n := |b| - 1;
      FollowConcat(a, b[..n], source, target);
      assert (a + b)[..|a + b| - 1] == a + b[..n];
      var (window, emitted) := Follow(a, source, target);
      var (before, more) := FollowFrom(window, b[..n], source, target);
      var completed := Advance(before, b[n], source, target).1;
      assert emitted + more + completed == emitted + (more + completed);
    }
  }

  lemma FollowFromNothing(bars: seq<Bar>, source: Timeframe, target: Timeframe)
    ensures FollowFrom(None, bars, source, target) == Follow(bars, source, target)
  {
    FollowConcat([], bars, source, target);
    assert [] + bars == bars;
    var more := FollowFrom(None, bars, source, target).1;
    assert [] + more == more;
  }

  /** The first bar that comes out of a slot with an open window is that window's. */
  lemma {:induction false} StaleComesFirst(w: AggregationWindow, bars: seq<Bar>, source: Timeframe, target: Timeframe)
    requires w.timeframe == target
    ensures var (after, completed) := FollowFrom(Some(w), bars, source, target);
      && (completed == [] ==>
            after.Some? && after.value.open == w.open && after.value.start == w.start
              && after.value.timeframe == target)
      && (completed != [] ==> completed[0].open == w.open && completed[0].closedAt == w.start + Duration(target))
  {
    hide AlignWindowStart, Duration;
    if bars != [] {
      StaleComesFirst(w, bars[..|bars| - 1], source, target);
    }
  }

  // ----- what a run recorded, before and since the latest start

  function RecordedBy(op: Op): seq<MarketEvent> {
    match RecordedEvent(op) case Some(event) => [event] case None => []
  }

  /** The events recorded before the latest successful start of a warm-up, and those since. */
  function RecordedParts(d: DataRequirements, symbols: seq<string>, now: Time, ops: seq<Op>)
    : (seq<MarketEvent>, seq<MarketEvent>)
    requires symbols != []
  {
    if ops == [] then ([], [])
    else
      var n := |ops| - 1;
      var (earlier, later) := RecordedParts(d, symbols, now, ops[..n]);
      if StartsWarmup(Run(d, symbols, now, ops[..n]), ops[n]) then (earlier + later, [])
      else (earlier, later + RecordedBy(ops[n]))
  }

  function RecordedAll(ops: seq<Op>): seq<MarketEvent> {
    if ops == [] then [] else RecordedAll(ops[..|ops| - 1]) + RecordedBy(ops[|ops| - 1])
  }

  lemma {:induction false} PartsAreAll(d: DataRequirements, symbols: seq<string>, now: Time, ops: seq<Op>)
    requires symbols != []
    ensures var (earlier, later) := RecordedParts(d, symbols, now, ops); earlier + later == RecordedAll(ops)
  {
    hide Run;
    if ops != [] {
      PartsAreAll(d, symbols, now, ops[..|ops| - 1]);
    }
  }

  lemma {:induction false} SourceBarsConcat(a: seq<MarketEvent>, b: seq<MarketEvent>, symbol: string, source: Timeframe)
    ensures SourceBars(a + b, symbol, source) == SourceBars(a, symbol, source) + SourceBars(b, symbol, source)
    decreases |b|
  {
    if b == [] {
      assert a + b == a;
    } else {
      SourceBarsConcat(a, b[..|b| - 1], symbol, source);
      assert (a + b)[..|a + b| - 1] == a + b[..|b| - 1];
    }
  }

  /** Whatever else a run does, its windows are those of the recorded events: a restart does not touch them. */
  lemma {:induction false} RunWindows(d: DataRequirements, symbols: seq<string>, now: Time, ops: seq<Op>)
    requires symbols != [] && PlanFor(d).Some?
    ensures var s, p := Run(d, symbols, now, ops).session, PlanFor(d).value;
      && s.plan == Some(p) && PlanValid(s.plan) && Keyed(s.windows)
      && s.windows == IngestAll(RecordedAll(ops), p.source, p.targets).0
  {
    hide Step, PlanFor, PendingFeeds, RequiredFeeds, IngestEvent, FeedsTell, FeedsAreNotTargets, ReplayedSinceLink;
    RunKeepsInv(d, symbols, now, ops);
    if ops != [] {
      var n := |ops| - 1;
      RunWindows(d, symbols, now, ops[..n]);
      RunKeepsInv(d, symbols, now, ops[..n]);
      var before := Run(d, symbols, now, ops[..n]);
      match RecordedEvent(ops[n])
      case Some(event) =>
        RecordingStep(before, ops[n]);
        RecordIsIngest(before.session, event);
        assert RecordedAll(ops)[..|RecordedAll(ops)| - 1] == RecordedAll(ops[..n]);
      case None =>
        QuietStep(before, ops[n]);
        assert RecordedAll(ops) == RecordedAll(ops[..n]);
    }
  }

  /** What one recorded event completes for a target, when its bar does not overtake its neighbour. */
  lemma EventCompletes(c: CoordinatorState, events: seq<MarketEvent>, event: MarketEvent, symbol: string,
                       target: Timeframe)
    requires c.plan.Some? && PlanValid(c.plan) && Keyed(c.windows) && target in c.plan.value.targets
    requires c.windows == IngestAll(events, c.plan.value.source, c.plan.value.targets).0
    requires !(event.BarEvent? && event.bar.symbol == symbol && event.bar.timeframe == target)
    requires !DoubleEmits(SourceBars(events + [event], symbol, c.plan.value.source), c.plan.value.source, target)
    ensures var source := c.plan.value.source;
      var before, more := SourceBars(events, symbol, source), SourceBars([event], symbol, source);
      && Delivered(HandledEvents(c, event), symbol, target)
           == FollowFrom(Follow(before, source, target).0, more, source, target).1
      && !DoubleEmits(before, source, target)
  {
    hide Advance, Select, IngestTargets, DoubleEmits, AlignWindowStart, IngestAll;
    hide Follow, FollowFrom, Delivered, Overtakes;
    var source, targets := c.plan.value.source, c.plan.value.targets;
    var before, more := SourceBars(events, symbol, source), SourceBars([event], symbol, source);
    StepDelivers(c, event, symbol, target);
    SlotFollowsItsSymbol(events, source, targets, symbol, target);
    SourceBarsConcat(events, [event], symbol, source);
    assert [event][..0] == [];
    var window := Follow(before, source, target).0;
    if more != [] {
      assert more == [event.bar];
      TargetsAreIndependent(c.windows, event.bar, source, targets, symbol, target);
      EmitsTwo(before, event.bar, source, target);
      DoubleEmitsGrows(before, event.bar, source, target);
      KeyedSlot(c.windows, (symbol, target));
      AdvanceEmitsDistinct(window, event.bar, source, target);
      FollowOne(window, event.bar, source, target);
      FewReversed(Advance(window, event.bar, source, target).1);
    } else {
      assert before + [] == before;
      NoneForSymbol(c, event, symbol, target);
      NothingYet(symbol, source, target);
    }
  }

  lemma FollowOne(window: Option<AggregationWindow>, bar: Bar, source: Timeframe, target: Timeframe)
    ensures FollowFrom(window, [bar], source, target) == Advance(window, bar, source, target)
  {
    hide Advance;
    assert [bar][..0] == [];
    var out := Advance(window, bar, source, target).1;
    assert [] + out == out;
  }

  lemma FewReversed(bars: seq<Bar>)
    ensures |bars| <= 1 ==> Reversed(bars) == bars
  {
  }

  lemma NoneForSymbol(c: CoordinatorState, event: MarketEvent, symbol: string, target: Timeframe)
    requires c.plan.Some? && PlanValid(c.plan) && Keyed(c.windows)
    requires SourceBars([event], symbol, c.plan.value.source) == []
    ensures Select(Aggregate(c, event).1, symbol, target) == []
  {
    hide IngestTargets, Advance;
    assert [event][..0] == [];
    SelectNone(symbol, target);
    if FeedsAggregator(c, event) {
      assert event.bar.symbol != symbol;
      TargetsAreIndependent(c.windows, event.bar, c.plan.value.source, c.plan.value.targets, symbol, target);
    }
  }

  /** What has been delivered for a target since the latest start: what its slot completed since then. */
  lemma {:induction false} DeliveredSinceStart(d: DataRequirements, symbols: seq<string>, now: Time, ops: seq<Op>,
                                               target: Timeframe)
    requires symbols != [] && PlanFor(d).Some? && target in PlanFor(d).value.targets
    requires NeverDirect(RecordedAll(ops), symbols[0], target)
    requires var source := PlanFor(d).value.source;
      !DoubleEmits(SourceBars(RecordedAll(ops), symbols[0], source), source, target)
    ensures var source := PlanFor(d).value.source;
      var (earlier, later) := RecordedParts(d, symbols, now, ops);
      Delivered(HandledSinceStart(d, symbols, now, ops), symbols[0], target)
      == FollowFrom(Follow(SourceBars(earlier, symbols[0], source), source, target).0,
                    SourceBars(later, symbols[0], source), source, target).1
  {
    hide Step, PlanFor, HandledEvents, Advance, DoubleEmits, Follow, FollowFrom, SourceBars, Delivered, PlanValid;
    var symbol, source := symbols[0], PlanFor(d).value.source;
    NothingYet(symbol, source, target);
    if ops != [] {
      var n := |ops| - 1;
      var before, all := Run(d, symbols, now, ops[..n]), RecordedAll(ops[..n]);
      RunWindows(d, symbols, now, ops[..n]);
      PartsAreAll(d, symbols, now, ops[..n]);
      var (earlier, later) := RecordedParts(d, symbols, now, ops[..n]);
      match RecordedEvent(ops[n])
      case Some(event) =>
        NotDirectEither(all, event, symbol, target);
        EventCompletes(before.session, all, event, symbol, target);
        DeliveredSinceStart(d, symbols, now, ops[..n], target);
        DeliveredConcat(HandledSinceStart(d, symbols, now, ops[..n]), HandledEvents(before.session, event), symbol,
                        target);
        SourceBarsConcat(earlier, later, symbol, source);
        SourceBarsConcat(later, [event], symbol, source);
        FollowOn(SourceBars(earlier, symbol, source), SourceBars(later, symbol, source),
                 SourceBars([event], symbol, source), source, target);
      case None =>
        assert all + [] == all && later + [] == later;
        if !StartsWarmup(before, ops[n]) {
          DeliveredSinceStart(d, symbols, now, ops[..n], target);
        }
    }
  }

  lemma NothingYet(symbol: string, source: Timeframe, target: Timeframe)
    ensures Delivered([], symbol, target) == [] && SourceBars([], symbol, source) == []
    ensures forall window :: FollowFrom(window, [], source, target) == (window, [])
  {
  }

  lemma NotDirectEither(all: seq<MarketEvent>, event: MarketEvent, symbol: string, target: Timeframe)
    requires NeverDirect(all + [event], symbol, target)
    ensures NeverDirect(all, symbol, target)
    ensures !(event.BarEvent? && event.bar.symbol == symbol && event.bar.timeframe == target)
  {
    assert (all + [event])[..|all|] == all;
  }

  lemma FollowOn(a: seq<Bar>, b: seq<Bar>, c: seq<Bar>, source: Timeframe, target: Timeframe)
    ensures var stale := Follow(a, source, target).0;
      FollowFrom(stale, b + c, source, target).1
      == FollowFrom(stale, b, source, target).1 + FollowFrom(Follow(a + b, source, target).0, c, source, target).1
  {
    hide Follow, FollowFrom;
    FollowConcat(a, b, source, target);
    FollowConcat(a, b + c, source, target);
    FollowConcat(a + b, c, source, target);
    assert a + (b + c) == a + b + c;
    var x := Follow(a, source, target).1;
    var y, z, all := FollowFrom(Follow(a, source, target).0, b, source, target).1,
      FollowFrom(Follow(a + b, source, target).0, c, source, target).1,
      FollowFrom(Follow(a, source, target).0, b + c, source, target).1;
    assert x + all == x + y + z;
    assert all == (x + all)[|x|..] == (x + y + z)[|x|..] == y + z;
  }

  /**
   * The buffers after any restarts. A target's buffer holds the newest bars its slot completed since the latest
   * start. Without a window left open before that start these are the bars of what was recorded since, as from a
   * fresh aggregator; with one, the first of them still opens where that window did.
   */
  lemma RestartedBuffers(d: DataRequirements, symbols: seq<string>, now: Time, ops: seq<Op>, target: Timeframe)
    requires symbols != [] && PlanFor(d).Some? && target in PlanFor(d).value.targets && target in d.barsRequired
    requires NeverDirect(RecordedAll(ops), symbols[0], target)
    requires var source := PlanFor(d).value.source;
      !DoubleEmits(SourceBars(RecordedAll(ops), symbols[0], source), source, target)
    ensures var source, buffers := PlanFor(d).value.source, Run(d, symbols, now, ops).session.tracker.buffers;
      var (earlier, later) := RecordedParts(d, symbols, now, ops);
      var stale := Follow(SourceBars(earlier, symbols[0], source), source, target).0;
      var completed := FollowFrom(stale, SourceBars(later, symbols[0], source), source, target).1;
      && target in buffers && buffers[target] == LastN(completed, RetainedCapacity(target, d.barsRequired[target]))
      && (stale.None? ==> completed == Follow(SourceBars(later, symbols[0], source), source, target).1)
      && (stale.Some? && completed != [] ==>
            completed[0].open == stale.value.open && completed[0].closedAt == stale.value.start + Duration(target))
  {
    hide Run, PlanFor, RecordedAll, RecordedParts, DoubleEmits, Follow, FollowFrom, HandledSinceStart, LastN;
    hide RetainedCapacity, Duration, NeverDirect, TrackerState.Ingest, SourceBars, Delivered;
    var source := PlanFor(d).value.source;
    var (earlier, later) := RecordedParts(d, symbols, now, ops);
    var stale := Follow(SourceBars(earlier, symbols[0], source), source, target).0;
    DeliveredSinceStart(d, symbols, now, ops, target);
    RunBuffers(d, symbols, now, ops);
    var tracker := Run(d, symbols, now, ops).session.tracker;
    BuffersAreTheNewestBars(tracker, 0, HandledSinceStart(d, symbols, now, ops), target);
    FollowFromNothing(SourceBars(later, symbols[0], source), source, target);
    if stale.Some? {
      OpenIsFiled(SourceBars(earlier, symbols[0], source), source, target);
      StaleComesFirst(stale.value, SourceBars(later, symbols[0], source), source, target);
    }
  }

  lemma {:induction false} OpenIsFiled(bars: seq<Bar>, source: Timeframe, target: Timeframe)
    ensures var window := Follow(bars, source, target).0; window.Some? ==> window.value.timeframe == target
  {
    hide AlignWindowStart;
    if bars != [] {
      OpenIsFiled(bars[..|bars| - 1], source, target);
    }
  }
}
