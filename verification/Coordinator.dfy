// The market-data coordinator: feed readiness, the aggregation worklist, connection state and health.
module Coordinator {
  import opened Prelude
  import opened MarketTypes
  import opened Aggregation
  import opened Warmup

  datatype FeedType = Trades | Ohlcv1s | Ohlcv1m | Ohlcv5m | Mbp | Mbo

  datatype FeedReadiness = FeedPending | FeedReady | FeedDegraded

  datatype FeedStatus = FeedStatus(state: FeedReadiness, lastEventAt: Option<Time>)

  datatype ConnectionState = Disconnected | Connecting | Subscribed | Reconnecting | ConnectionFailed

  datatype Health = Healthy | Initializing | Degraded | HealthDisconnected | HealthFailed

  type FeedKey = (string, FeedType)

  type Feeds = map<FeedKey, FeedStatus>

  /** How the aggregator was configured, if the strategy needs one. */
  datatype AggregationPlan = AggregationPlan(source: Timeframe, targets: seq<Timeframe>)

  datatype CoordinatorState = CoordinatorState(
    replayFrom: Option<Time>,
    feeds: Feeds,
    connection: ConnectionState,
    degradation: Option<string>,
    plan: Option<AggregationPlan>,
    windows: Windows,
    tracker: TrackerState,
    reconnectCount: u64,
    lastHeartbeatAt: Option<Time>,
    lastDisconnectReason: Option<string>,
    updatedAt: Time)

  function EventSymbol(event: MarketEvent): string {
    match event
    case TradeEvent(symbol, _, _, _) => symbol
    case BarEvent(bar) => bar.symbol
    case HeartbeatEvent(dataset, _) => dataset
  }

  function FeedForTimeframe(timeframe: Timeframe): FeedType {
    match timeframe
    case OneSecond => Ohlcv1s
    case OneMinute => Ohlcv1m
    case FiveMinute => Ohlcv5m
  }

  function FeedForEvent(event: MarketEvent): Option<FeedType> {
    match event
    case TradeEvent(_, _, _, _) => Some(Trades)
    case BarEvent(bar) => Some(FeedForTimeframe(bar.timeframe))
    case HeartbeatEvent(_, _) => None
  }

  function MarkFeed(feeds: Feeds, event: MarketEvent): Feeds {
    match FeedForEvent(event)
    case None => feeds
    case Some(feed) =>
      var key := (EventSymbol(event), feed);
      if key in feeds then feeds[key := FeedStatus(FeedReady, Some(EventTimestamp(event)))] else feeds
  }

  /** The aggregator's reaction to one event: its windows afterwards and the bars it completed. */
  function Aggregate(c: CoordinatorState, event: MarketEvent): (Windows, seq<Bar>) {
    match c.plan
    case None => (c.windows, [])
    case Some(p) => IngestEvent(c.windows, event, p.source, p.targets)
  }

  /** Handling one event, whatever bars it completes. */
  function HandleOne(c: CoordinatorState, event: MarketEvent): CoordinatorState {
    c.(lastHeartbeatAt := if event.HeartbeatEvent? then Some(EventTimestamp(event)) else c.lastHeartbeatAt,
       feeds := MarkFeed(c.feeds, event),
       windows := Aggregate(c, event).0,
       tracker := c.tracker.Ingest(event),
       updatedAt := EventTimestamp(event))
  }

  function HandleAll(c: CoordinatorState, events: seq<MarketEvent>): CoordinatorState
    decreases |events|
  {
    if events == [] then c else HandleAll(HandleOne(c, events[0]), events[1..])
  }

  /** Bars as events, last one first. */
  function NewestFirst(bars: seq<Bar>): (r: seq<MarketEvent>)
    ensures |r| == |bars|
    ensures forall i :: 0 <= i < |r| ==> r[i] == BarEvent(bars[|bars| - 1 - i])
  {
    if bars == [] then [] else [BarEvent(bars[|bars| - 1])] + NewestFirst(bars[..|bars| - 1])
  }

  /** Recording an event: the event itself and then exactly the bars it completed, newest first. */
  function Record(c: CoordinatorState, event: MarketEvent): CoordinatorState {
    HandleAll(HandleOne(c, event), NewestFirst(Aggregate(c, event).1))
  }

  /** What the coordinator handles, in order, for one recorded event. */
  function HandledEvents(c: CoordinatorState, event: MarketEvent): seq<MarketEvent> {
    [event] + NewestFirst(Aggregate(c, event).1)
  }

  function DeriveHealth(c: CoordinatorState): Health {
    match c.connection
    case Disconnected => HealthDisconnected
    case ConnectionFailed => HealthFailed
    case Connecting => Initializing
    case Reconnecting => Initializing
    case Subscribed =>
      if c.degradation.Some? then Degraded
      else if exists k :: k in c.feeds && c.feeds[k].state == FeedDegraded then Degraded
      else if exists k :: k in c.feeds && c.feeds[k].state == FeedPending then Initializing
      else Healthy
  }

  // ----- completed bars are never source bars

  ghost predicate PlanValid(plan: Option<AggregationPlan>) {
    plan.Some? ==> ValidTargets(plan.value.source, plan.value.targets)
  }

  /** Whether an event could make the aggregator complete a bar. */
  predicate FeedsAggregator(c: CoordinatorState, event: MarketEvent) {
    c.plan.Some? && event.BarEvent? && event.bar.timeframe == c.plan.value.source
  }

  lemma {:induction false} CompletedAreTargets(
    windows: Windows, bar: Bar, source: Timeframe, targets: seq<Timeframe>)
    requires Keyed(windows)
    ensures Keyed(IngestTargets(windows, bar, source, targets).0)
    ensures forall b :: b in IngestTargets(windows, bar, source, targets).1 ==>
      b.timeframe in targets && b.symbol == bar.symbol
  {
    hide Advance, Keyed, Put, Get;
    if targets != [] {
      var n := |targets| - 1;
      CompletedAreTargets(windows, bar, source, targets[..n]);
      assert targets == targets[..n] + [targets[n]];
      var before, key := IngestTargets(windows, bar, source, targets[..n]).0, (bar.symbol, targets[n]);
      KeyedSlot(before, key);
      AdvanceOutputs(Get(before, key), bar, source, targets[n]);
      PutSlot(before, key, Advance(Get(before, key), bar, source, targets[n]).0, key);
    }
  }

  /** The worklist only ever grows by bars that cannot grow it again. */
  lemma CompletedBarsAreInert(c: CoordinatorState, event: MarketEvent)
    requires PlanValid(c.plan) && Keyed(c.windows)
    ensures Keyed(Aggregate(c, event).0)
    ensures forall b :: b in Aggregate(c, event).1 ==>
      !FeedsAggregator(c, BarEvent(b)) && b.symbol == EventSymbol(event)
    ensures !FeedsAggregator(c, event) ==> Aggregate(c, event) == (c.windows, [])
  {
    hide IngestTargets;
    if FeedsAggregator(c, event) {
      var p := c.plan.value;
      CompletedAreTargets(c.windows, event.bar, p.source, p.targets);
      forall b | b in Aggregate(c, event).1 ensures b.timeframe != p.source {
        var i :| 0 <= i < |p.targets| && p.targets[i] == b.timeframe;
      }
    }
  }

  lemma {:induction false} HandleAllKeepsPlan(c: CoordinatorState, events: seq<MarketEvent>)
    ensures var after := HandleAll(c, events);
      after.plan == c.plan && after.connection == c.connection && after.degradation == c.degradation
      && after.replayFrom == c.replayFrom && after.feeds.Keys == c.feeds.Keys
    decreases |events|
  {
    if events != [] {
      HandleAllKeepsPlan(HandleOne(c, events[0]), events[1..]);
    }
  }

  // ----- the coordinator object

  class DatabentoMarketDataCoordinator {
    const plan: Option<AggregationPlan>
    const aggregator: MultiTimeframeAggregator?
    const warmup: WarmupTracker
    var replayFrom: Option<Time>
    var feedStatuses: Feeds
    var connectionState: ConnectionState
    var degradationReason: Option<string>
    var reconnectCount: u64
    var lastHeartbeatAt: Option<Time>
    var lastDisconnectReason: Option<string>
    var updatedAt: Time

    ghost function Repr(): set<object>
      reads this, warmup
    {
      {this, warmup} + (if aggregator == null then {} else {aggregator}) + warmup.buffers.Values
    }

    ghost predicate Valid()
      reads Repr()
    {
      && warmup.Valid()
      && (aggregator == null <==> plan == None)
      && (aggregator != null ==> aggregator.Valid())
      && (aggregator != null ==> plan == Some(AggregationPlan(aggregator.sourceTimeframe, aggregator.targetTimeframes)))
    }

    lemma ValidView()
      requires Valid()
      ensures PlanValid(View().plan) && Keyed(View().windows)
    {
    }

    lemma ViewConnection()
      ensures View().connection == connectionState
    {
    }

    ghost function View(): CoordinatorState
      reads Repr()
    {
      CoordinatorState(replayFrom, feedStatuses, connectionState, degradationReason, plan,
                       if aggregator == null then map[] else aggregator.windows, warmup.View(),
                       reconnectCount, lastHeartbeatAt, lastDisconnectReason, updatedAt)
    }

    constructor (feeds: Feeds, aggregator: MultiTimeframeAggregator?, warmup: WarmupTracker, now: Time)
      requires warmup.Valid()
      requires aggregator != null ==> aggregator.Valid() && aggregator.windows == map[]
      ensures Valid() && fresh(this) && this.warmup == warmup && this.aggregator == aggregator
      ensures View() == CoordinatorState(None, feeds, Disconnected, None,
                          if aggregator == null then None
                          else Some(AggregationPlan(aggregator.sourceTimeframe, aggregator.targetTimeframes)),
                          map[], warmup.View(), 0, None, None, now)
    {
      this.aggregator := aggregator;
      this.warmup := warmup;
      plan := if aggregator == null then None
              else Some(AggregationPlan(aggregator.sourceTimeframe, aggregator.targetTimeframes));
      replayFrom, feedStatuses, connectionState, degradationReason := None, feeds, Disconnected, None;
      reconnectCount, lastHeartbeatAt, lastDisconnectReason, updatedAt := 0, None, None, now;
    }

    method SetConnectionState(state: ConnectionState, now: Time)
      requires Valid()
      modifies this
      ensures Valid() && View() == old(View()).(connection := state, updatedAt := now)
    {
      hide WarmupTracker.Valid, WarmupTracker.View, MultiTimeframeAggregator.Valid;
      connectionState, updatedAt := state, now;
    }

    method MarkDegraded(message: string, now: Time)
      requires Valid()
      modifies this
      ensures Valid() && View() == old(View()).(degradation := Some(message), updatedAt := now)
    {
      hide WarmupTracker.Valid, WarmupTracker.View, MultiTimeframeAggregator.Valid;
      degradationReason, updatedAt := Some(message), now;
    }

    method ClearDegraded(now: Time)
      requires Valid()
      modifies this
      ensures Valid() && View() == old(View()).(degradation := None, updatedAt := now)
    {
      hide WarmupTracker.Valid, WarmupTracker.View, MultiTimeframeAggregator.Valid;
      degradationReason, updatedAt := None, now;
    }

    method Touch(now: Time)
      requires Valid()
      modifies this
      ensures Valid() && View() == old(View()).(updatedAt := Max(old(updatedAt), now))
    {
      hide WarmupTracker.Valid, WarmupTracker.View, MultiTimeframeAggregator.Valid;
      updatedAt := Max(updatedAt, now);
    }

    method NoteReconnectAttempt(now: Time)
      requires Valid()
      modifies this
      ensures Valid()
      ensures View() == old(View()).(reconnectCount := SaturatingAdd(old(reconnectCount), 1),
                                     connection := Reconnecting, updatedAt := now)
    {
      hide WarmupTracker.Valid, WarmupTracker.View, MultiTimeframeAggregator.Valid;
      reconnectCount := SaturatingAdd(reconnectCount, 1);
      connectionState, updatedAt := Reconnecting, now;
    }

    method NoteDisconnect(reason: string, now: Time)
      requires Valid()
      modifies this
      ensures Valid()
      ensures View() == old(View()).(connection := Disconnected, lastDisconnectReason := Some(reason), updatedAt := now)
    {
      hide WarmupTracker.Valid, WarmupTracker.View, MultiTimeframeAggregator.Valid;
      connectionState, lastDisconnectReason, updatedAt := Disconnected, Some(reason), now;
    }

    /** One turn of the worklist. */
    method Handle(event: MarketEvent) returns (completed: seq<Bar>)
      requires Valid()
      modifies Repr()
      ensures Valid() && Repr() == old(Repr())
      ensures View() == HandleOne(old(View()), event)
      ensures completed == Aggregate(old(View()), event).1
    {
      hide IngestEvent, WarmupTracker.Valid, WarmupTracker.View, MultiTimeframeAggregator.Valid, TrackerState.Ingest;
      if event.HeartbeatEvent? {
        lastHeartbeatAt := Some(EventTimestamp(event));
      }
      feedStatuses := MarkFeed(feedStatuses, event);
      completed := [];
      if aggregator != null {
        completed := aggregator.Ingest(event);
      }
      assert warmup.View() == old(warmup.View());
      warmup.Ingest(event);
      updatedAt := EventTimestamp(event);
    }

    /** The worklist: a stack that starts with the event and collects the bars each turn completes. */
    method RecordEvent(event: MarketEvent)
      requires Valid()
      modifies Repr()
      ensures Valid() && Repr() == old(Repr())
      ensures View() == Record(old(View()), event)
    {
      hide HandleOne, Aggregate, Valid, View, Repr, Record, OnTrack, AsQueue;
      ghost var start := View();
      var queued := [event];
      ghost var first := true;
      WorklistStarts(start, event);
      while queued != []
        invariant Valid() && Repr() == old(Repr())
        invariant OnTrack(View(), start, event, queued, first)
        decreases first, |queued|
      {
        ghost var before := View();
        ValidView();
        var next := queued[|queued| - 1];
        WorklistTurn(before, start, event, queued, first);
        queued := queued[..|queued| - 1];
        var completed := Handle(next);
        queued := queued + AsQueue(completed);
        first := false;
      }
      WorklistEnds(View(), start, event, first);
    }
  }

  /** Where the worklist stands: at its start, or with only inert bars left, to be handled from the top down. */
  ghost predicate OnTrack(c: CoordinatorState, start: CoordinatorState, event: MarketEvent, queued: seq<MarketEvent>,
                          first: bool) {
    && c.plan == start.plan
    && if first then c == start && queued == [event]
       else
         && (forall i :: 0 <= i < |queued| ==> !FeedsAggregator(start, queued[i]))
         && HandleAll(c, Reversed(queued)) == Record(start, event)
  }

  lemma WorklistStarts(start: CoordinatorState, event: MarketEvent)
    ensures OnTrack(start, start, event, [event], true)
  {
  }

  lemma WorklistEnds(c: CoordinatorState, start: CoordinatorState, event: MarketEvent, first: bool)
    requires OnTrack(c, start, event, [], first)
    ensures c == Record(start, event)
  {
    hide Record, HandleOne;
  }

  /** Each turn after the first takes one event away, because inert bars complete nothing. */
  lemma WorklistTurn(c: CoordinatorState, start: CoordinatorState, event: MarketEvent, queued: seq<MarketEvent>,
                     first: bool)
    requires OnTrack(c, start, event, queued, first) && queued != []
    requires PlanValid(c.plan) && Keyed(c.windows)
    ensures var n := |queued| - 1;
      var left := queued[..n] + AsQueue(Aggregate(c, queued[n]).1);
      OnTrack(HandleOne(c, queued[n]), start, event, left, false) && (first || |left| < |queued|)
  {
    hide Aggregate, AsQueue, PlanValid, HandleOne, HandleAll, Reversed, FeedsAggregator, NewestFirst;
    var n := |queued| - 1;
    var next, completed := queued[n], Aggregate(c, queued[n]).1;
    CompletedBarsAreInert(c, next);
    HandleOneKeepsPlan(c, next);
    QueueEvents(completed);
    if first {
      assert queued[..n] + AsQueue(completed) == AsQueue(completed);
      ReversedQueue(completed);
      PlanDecidesFeeding(c, start);
    } else {
      PlanDecidesFeeding(c, start);
      assert completed == [];
      assert queued[..n] + AsQueue(completed) == queued[..n];
      HandleTop(c, queued);
    }
  }

  lemma PlanDecidesFeeding(c: CoordinatorState, start: CoordinatorState)
    requires c.plan == start.plan
    ensures forall e :: FeedsAggregator(c, e) == FeedsAggregator(start, e)
  {
  }

  lemma HandleTop(c: CoordinatorState, queued: seq<MarketEvent>)
    requires queued != []
    ensures var n := |queued| - 1;
      HandleAll(c, Reversed(queued)) == HandleAll(HandleOne(c, queued[n]), Reversed(queued[..n]))
  {
    hide HandleOne;
    var n := |queued| - 1;
    assert Reversed(queued)[0] == queued[n] && Reversed(queued)[1..] == Reversed(queued[..n]);
  }

  lemma QueueEvents(bars: seq<Bar>)
    ensures |AsQueue(bars)| == |bars| && forall i :: 0 <= i < |bars| ==> AsQueue(bars)[i] == BarEvent(bars[i])
  {
  }

  function AsQueue(bars: seq<Bar>): (r: seq<MarketEvent>)
    ensures |r| == |bars| && forall i :: 0 <= i < |r| ==> r[i] == BarEvent(bars[i])
  {
    seq(|bars|, i requires 0 <= i < |bars| => BarEvent(bars[i]))
  }

  lemma ReversedQueue(bars: seq<Bar>)
    ensures Reversed(AsQueue(bars)) == NewestFirst(bars)
  {
  }

  lemma HandleOneKeepsPlan(c: CoordinatorState, event: MarketEvent)
    ensures HandleOne(c, event).plan == c.plan
  {
  }
}
