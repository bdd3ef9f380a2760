// Which strategies can become trade-ready at all.
module ReadinessLaws {
  import opened Prelude
  import opened MarketTypes
  import opened Aggregation
  import opened StreamingLaws
  import opened Warmup
  import opened Coordinator
  import opened CoordinatorLaws
  import opened MarketDataService
  import opened ServiceLaws

  // ----- live runs: one start, then polled events

  function PollOps(events: seq<MarketEvent>): seq<Op> {
    if events == [] then []
    else PollOps(events[..|events| - 1]) + [PollOp(PollUpdate(Event(events[|events| - 1])))]
  }

  /** A live warm-up that connects at once, followed by events. */
  function LiveOps(now: Time, events: seq<MarketEvent>): seq<Op> {
    [StartWarmupOp(LiveOnly, true, LinkOk, now)] + PollOps(events)
  }

  /** Some event belongs to the symbol and feed. */
  ghost predicate Marked(events: seq<MarketEvent>, key: FeedKey) {
    exists i :: 0 <= i < |events| && EventSymbol(events[i]) == key.0 && FeedForEvent(events[i]) == Some(key.1)
  }

  /** Subscribed, undegraded and started: everything trade-ready needs but feeds and bars. */
  ghost predicate LiveAndStarted(s: ServiceState) {
    && s.session.connection == Subscribed && s.session.degradation == None
    && s.warmupRequested && s.replayCaughtUp
    && s.session.tracker.failureReason == None && s.session.tracker.startedAt.Some?
  }

  lemma {:induction false} IngestKeepsStart(s: TrackerState, events: seq<MarketEvent>)
    ensures s.IngestAll(events).startedAt == s.startedAt && s.IngestAll(events).failureReason == s.failureReason
  {
    if events != [] {
      IngestKeepsStart(s, events[..|events| - 1]);
    }
  }

  lemma MarkedGrows(events: seq<MarketEvent>, event: MarketEvent, key: FeedKey)
    ensures Marked(events + [event], key)
       <==> Marked(events, key) || (EventSymbol(event) == key.0 && FeedForEvent(event) == Some(key.1))
  {
    hide FeedForEvent, EventSymbol;
    var more := events + [event];
    assert more[|events|] == event && forall i :: 0 <= i < |events| ==> more[i] == events[i];
    if i :| 0 <= i < |events| && EventSymbol(events[i]) == key.0 && FeedForEvent(events[i]) == Some(key.1) {
      assert more[i] == events[i];
    }
  }

  lemma MarkMakesReady(feeds: Feeds, event: MarketEvent, key: FeedKey)
    requires key in feeds
    ensures key in MarkFeed(feeds, event)
    ensures EventSymbol(event) == key.0 && FeedForEvent(event) == Some(key.1) ==>
      MarkFeed(feeds, event)[key].state == FeedReady
    ensures feeds[key].state == FeedReady ==> MarkFeed(feeds, event)[key].state == FeedReady
  {
  }

  /** One polled event of a live session. */
  lemma EventKeepsLive(s: ServiceState, ops: seq<Op>, event: MarketEvent)
    requires Inv(s, ops) && LiveAndStarted(s)
    ensures var next := Step(s, PollOp(PollUpdate(Event(event))));
      LiveAndStarted(next) && next.session.feeds == MarkFeed(s.session.feeds, event)
  {
    hide Record, FeedsTell, MarkFeed, FeedsAreNotTargets, Keyed, ReplayedSinceLink;
    RecordFeeds(s.session, event);
    RecordIsIngest(s.session, event);
    IngestKeepsStart(s.session.tracker, HandledEvents(s.session, event));
  }

  lemma StartGoesLive(d: DataRequirements, symbols: seq<string>, now: Time)
    requires symbols != []
    ensures LiveAndStarted(Run(d, symbols, now, LiveOps(now, [])))
    ensures HandledSinceStart(d, symbols, now, LiveOps(now, [])) == []
  {
    hide PlanFor, PendingFeeds, RequiredFeeds;
    var start := StartWarmupOp(LiveOnly, true, LinkOk, now);
    assert LiveOps(now, []) == [start] && [start][..0] == [];
    assert Run(d, symbols, now, [start][..0]) == InitialService(d, symbols, now);
  }

  lemma LiveOpsSnoc(now: Time, events: seq<MarketEvent>)
    requires events != []
    ensures var n, ops := |events| - 1, LiveOps(now, events);
      && ops != [] && ops[..|ops| - 1] == LiveOps(now, events[..n])
      && ops[|ops| - 1] == PollOp(PollUpdate(Event(events[n])))
  {
  }

  lemma {:induction false} LiveRun(d: DataRequirements, symbols: seq<string>, now: Time, events: seq<MarketEvent>)
    requires symbols != []
    ensures var s := Run(d, symbols, now, LiveOps(now, events));
      && LiveAndStarted(s)
      && forall k :: k in s.session.feeds && Marked(events, k) ==> s.session.feeds[k].state == FeedReady
  {
    hide Step, LiveOps, LiveAndStarted, MarkFeed, Inv, Marked;
    if events == [] {
      StartGoesLive(d, symbols, now);
      assert forall k :: !Marked([], k) by {
        NothingMarked();
      }
    } else {
      var n := |events| - 1;
      var before := Run(d, symbols, now, LiveOps(now, events[..n]));
      LiveOpsSnoc(now, events);
      LiveRun(d, symbols, now, events[..n]);
      RunKeepsInv(d, symbols, now, LiveOps(now, events[..n]));
      EventKeepsLive(before, LiveOps(now, events[..n]), events[n]);
      var s := Run(d, symbols, now, LiveOps(now, events));
      MarkedKeysStay(before.session.feeds, events[n]);
      forall k | k in s.session.feeds && Marked(events, k) ensures s.session.feeds[k].state == FeedReady {
        assert events == events[..n] + [events[n]];
        MarkedGrows(events[..n], events[n], k);
        MarkMakesReady(before.session.feeds, events[n], k);
      }
    }
  }

  lemma NothingMarked()
    ensures forall k :: !Marked([], k)
  {
  }

  /** Every polled event is handled, so at least its own bars are delivered. */
  lemma {:induction false} LiveDelivers(d: DataRequirements, symbols: seq<string>, now: Time, events: seq<MarketEvent>,
                                        t: Timeframe)
    requires symbols != []
    ensures |Delivered(HandledSinceStart(d, symbols, now, LiveOps(now, events)), symbols[0], t)|
         >= |Delivered(events, symbols[0], t)|
  {
    hide Step, LiveOps, Record, NewestFirst, Aggregate;
    if events == [] {
      StartGoesLive(d, symbols, now);
    } else {
      var n := |events| - 1;
      var before := LiveOps(now, events[..n]);
      LiveOpsSnoc(now, events);
      LiveDelivers(d, symbols, now, events[..n], t);
      var handled := HandledSinceStart(d, symbols, now, before);
      var c := Run(d, symbols, now, before).session;
      var more := NewestFirst(Aggregate(c, events[n]).1);
      DeliveredConcat(handled, [events[n]] + more, symbols[0], t);
      DeliveredConcat([events[n]], more, symbols[0], t);
      assert [events[n]][..0] == [];
      assert HandledSinceStart(d, symbols, now, LiveOps(now, events)) == handled + HandledEvents(c, events[n]);
    }
  }

  /** With enough bars handled since the start, the tracker is ready. */
  lemma EnoughIsReady(d: DataRequirements, symbols: seq<string>, now: Time, ops: seq<Op>)
    requires symbols != []
    ensures var handled, tracker := HandledSinceStart(d, symbols, now, ops), Run(d, symbols, now, ops).session.tracker;
      (if d.readyRequiresAll then
         forall t :: t in d.barsRequired ==> |Delivered(handled, symbols[0], t)| >= d.barsRequired[t]
       else
         exists t :: t in d.barsRequired && |Delivered(handled, symbols[0], t)| >= d.barsRequired[t])
      ==> tracker.IsReady()
  {
    hide Step;
    RunBuffers(d, symbols, now, ops);
    var tracker := Run(d, symbols, now, ops).session.tracker;
    var handled := HandledSinceStart(d, symbols, now, ops);
    IngestKeepsRequirements(tracker.Reset(0), handled);
    SameBuffersSameReadiness(tracker, tracker.Reset(0).IngestAll(handled));
    ReadyCountsBars(tracker, 0, handled);
    if t :| t in d.barsRequired && |Delivered(handled, symbols[0], t)| >= d.barsRequired[t] {
      assert Enough(handled, tracker, t);
    }
  }

  // ----- what a session brings

  /** What the subscription brings: source bars, trades if they are subscribed, and heartbeats. */
  predicate FromProvider(d: DataRequirements, symbols: seq<string>, event: MarketEvent) {
    match event
    case BarEvent(bar) => bar.symbol in symbols && bar.timeframe == ProviderSource(d)
    case TradeEvent(symbol, _, _, _) => symbol in symbols && Trades in d.feeds
    case HeartbeatEvent(_, _) => true
  }

  /** A run that records only what the subscription brings. */
  ghost predicate ProviderRun(d: DataRequirements, symbols: seq<string>, ops: seq<Op>) {
    forall op :: op in ops && RecordedEvent(op).Some? ==> FromProvider(d, symbols, RecordedEvent(op).value)
  }

  /** The bars of a timeframe arrive: it is the provider's source or a target of the aggregator. */
  predicate Supplied(d: DataRequirements, t: Timeframe) {
    t == ProviderSource(d) || (PlanFor(d).Some? && t in PlanFor(d).value.targets)
  }

  lemma {:induction false} PlanStays(d: DataRequirements, symbols: seq<string>, now: Time, ops: seq<Op>)
    requires symbols != []
    ensures Run(d, symbols, now, ops).session.plan == PlanFor(d)
  {
    hide Step, PlanFor, PendingFeeds, RequiredFeeds, FeedsTell, FeedsAreNotTargets, Keyed, ReplayedSinceLink;
    if ops != [] {
      var n := |ops| - 1;
      PlanStays(d, symbols, now, ops[..n]);
      RunKeepsInv(d, symbols, now, ops[..n]);
      var before := Run(d, symbols, now, ops[..n]);
      match RecordedEvent(ops[n])
      case Some(event) =>
        RecordFeeds(before.session, event);
        RecordingStep(before, ops[n]);
      case None => QuietStep(before, ops[n]);
    }
  }

  /** One source event delivers no bar of a timeframe that is not supplied. */
  lemma UnsuppliedStep(d: DataRequirements, symbols: seq<string>, c: CoordinatorState, event: MarketEvent,
                       symbol: string, t: Timeframe)
    requires FromProvider(d, symbols, event) && c.plan == PlanFor(d) && PlanValid(c.plan) && Keyed(c.windows)
    requires !Supplied(d, t)
    ensures Delivered(HandledEvents(c, event), symbol, t) == []
  {
    hide PlanFor, IngestTargets, Select, ProviderSource;
    var bars := Aggregate(c, event).1;
    if c.plan.Some? && FeedsAggregator(c, event) {
      CompletedAreTargets(c.windows, event.bar, c.plan.value.source, c.plan.value.targets);
    }
    assert forall b :: b in bars ==> b.timeframe != t;
    SelectForeign(bars, symbol, t);
    DeliveredNewestFirst(bars, symbol, t);
    DeliveredConcat([event], NewestFirst(bars), symbol, t);
    assert [event][..0] == [];
  }

  /** No run of source events ever handles a bar of such a timeframe. */
  lemma {:induction false} NeverSupplied(d: DataRequirements, symbols: seq<string>, now: Time, ops: seq<Op>,
                                         symbol: string, t: Timeframe)
    requires symbols != [] && ProviderRun(d, symbols, ops) && !Supplied(d, t)
    ensures Delivered(HandledSinceStart(d, symbols, now, ops), symbol, t) == []
  {
    hide Step, Delivered, HandledEvents, FromProvider, FeedsTell, FeedsAreNotTargets;
    hide Keyed, ReplayedSinceLink, Supplied;
    DeliveredNone(symbol, t);
    if ops != [] {
      var n := |ops| - 1;
      assert ops[n] in ops && forall op :: op in ops[..n] ==> op in ops;
      NeverSupplied(d, symbols, now, ops[..n], symbol, t);
      var before := Run(d, symbols, now, ops[..n]);
      if RecordedEvent(ops[n]).Some? {
        var event := RecordedEvent(ops[n]).value;
        RunKeepsInv(d, symbols, now, ops[..n]);
        PlanStays(d, symbols, now, ops[..n]);
        UnsuppliedStep(d, symbols, before.session, event, symbol, t);
        DeliveredConcat(HandledSinceStart(d, symbols, now, ops[..n]), HandledEvents(before.session, event), symbol, t);
      }
    }
  }

  // ----- one source bar can complete a bar of every target

  /** A bar that closes with a five-minute window, and so with a window of every timeframe. */
  function ClosingBar(symbol: string, source: Timeframe, k: int): Bar {
    Bar(symbol, source, 0, 0, 0, 0, 0, k * Duration(FiveMinute))
  }

  ghost predicate ClosesFive(bar: Bar) {
    OnGrid(bar.closedAt, FiveMinute)
  }

  lemma SomeDuration(t: Timeframe)
    ensures Duration(t) > 0
  {
  }

  lemma FiveIsLongest(t: Timeframe)
    ensures Duration(t) <= Duration(FiveMinute)
  {
  }

  lemma ClosesItsWindow(bar: Bar, source: Timeframe, target: Timeframe)
    requires ClosesFive(bar)
    ensures bar.closedAt >= WindowStartOf(bar, source, target) + Duration(target)
  {
    hide AlignWindowStart, OnGrid, Duration;
    SomeDuration(source);
    FiveIsLongest(target);
    AlignIsTheContainingWindow(bar.closedAt - Duration(source), target, 0);
    CoarseGridIsFine(bar.closedAt, target, FiveMinute);
    GridStep(WindowStartOf(bar, source, target), bar.closedAt, target);
  }

  lemma CompletesTarget(c: CoordinatorState, bar: Bar, target: Timeframe)
    requires PlanValid(c.plan) && Keyed(c.windows) && FeedsAggregator(c, BarEvent(bar)) && ClosesFive(bar)
    requires target in c.plan.value.targets
    ensures Delivered(HandledEvents(c, BarEvent(bar)), bar.symbol, target) != []
  {
    hide AlignWindowStart, Select, IngestTargets;
    var p := c.plan.value;
    var bars := Aggregate(c, BarEvent(bar)).1;
    ClosesItsWindow(bar, p.source, target);
    TargetsAreIndependent(c.windows, bar, p.source, p.targets, bar.symbol, target);
    DeliveredNewestFirst(bars, bar.symbol, target);
    DeliveredConcat([BarEvent(bar)], NewestFirst(bars), bar.symbol, target);
  }

  // ----- events for every feed and every requirement

  function EventOfFeed(symbol: string, feed: FeedType): MarketEvent {
    match feed
    case Ohlcv1s => BarEvent(ClosingBar(symbol, OneSecond, 0))
    case Ohlcv1m => BarEvent(ClosingBar(symbol, OneMinute, 0))
    case Ohlcv5m => BarEvent(ClosingBar(symbol, FiveMinute, 0))
    case _ => TradeEvent(symbol, 0, 0, 0)
  }

  function EventsOfFeeds(symbol: string, feeds: seq<FeedType>): (r: seq<MarketEvent>)
    ensures |r| == |feeds| && forall i :: 0 <= i < |feeds| ==> r[i] == EventOfFeed(symbol, feeds[i])
  {
    seq(|feeds|, i requires 0 <= i < |feeds| => EventOfFeed(symbol, feeds[i]))
  }

  function EventsOfAll(symbols: seq<string>, feeds: seq<FeedType>): seq<MarketEvent> {
    if symbols == [] then []
    else EventsOfAll(symbols[..|symbols| - 1], feeds) + EventsOfFeeds(symbols[|symbols| - 1], feeds)
  }

  /** A quiet market: one bar at the end of every five minutes. */
  function Bars(symbol: string, source: Timeframe, n: nat): (r: seq<MarketEvent>)
    ensures |r| == n && forall i :: 0 <= i < n ==> r[i] == BarEvent(ClosingBar(symbol, source, i + 1))
  {
    seq(n, i => BarEvent(ClosingBar(symbol, source, i + 1)))
  }

  function Needed(d: DataRequirements, t: Timeframe): nat {
    if t in d.barsRequired then d.barsRequired[t] else 0
  }

  function MostNeeded(d: DataRequirements): nat {
    Max(Needed(d, OneSecond), Max(Needed(d, OneMinute), Needed(d, FiveMinute)))
  }

  /**
   * Enough source events to get a strategy ready: one per tracked feed, then as many bars as any timeframe
   * requires.
   */
  function SufficientEvents(d: DataRequirements, symbols: seq<string>): seq<MarketEvent>
    requires symbols != []
  {
    EventsOfAll(symbols, RequiredFeeds(d)) + Bars(symbols[0], ProviderSource(d), MostNeeded(d))
  }

  lemma MarkedConcat(a: seq<MarketEvent>, b: seq<MarketEvent>, key: FeedKey)
    requires Marked(a, key) || Marked(b, key)
    ensures Marked(a + b, key)
  {
    if i :| 0 <= i < |a| && EventSymbol(a[i]) == key.0 && FeedForEvent(a[i]) == Some(key.1) {
      assert (a + b)[i] == a[i];
    } else {
      var i :| 0 <= i < |b| && EventSymbol(b[i]) == key.0 && FeedForEvent(b[i]) == Some(key.1);
      assert (a + b)[|a| + i] == b[i];
    }
  }

  lemma {:induction false} AllFeedsMarked(symbols: seq<string>, feeds: seq<FeedType>, key: FeedKey)
    requires key.0 in symbols && key.1 in feeds && key.1 != Mbp && key.1 != Mbo
    ensures Marked(EventsOfAll(symbols, feeds), key)
  {
    hide Marked;
    var n := |symbols| - 1;
    var before, last := EventsOfAll(symbols[..n], feeds), EventsOfFeeds(symbols[n], feeds);
    if key.0 == symbols[n] {
      FeedMarked(symbols[n], feeds, key.1);
    } else {
      assert key.0 in symbols[..n];
      AllFeedsMarked(symbols[..n], feeds, key);
    }
    MarkedConcat(before, last, key);
  }

  lemma FeedMarked(symbol: string, feeds: seq<FeedType>, feed: FeedType)
    requires feed in feeds && feed != Mbp && feed != Mbo
    ensures Marked(EventsOfFeeds(symbol, feeds), (symbol, feed))
  {
    var i :| 0 <= i < |feeds| && feeds[i] == feed;
    var event := EventsOfFeeds(symbol, feeds)[i];
    assert EventSymbol(event) == symbol && FeedForEvent(event) == Some(feed);
  }

  lemma {:induction false} BarsDelivered(symbol: string, source: Timeframe, n: nat)
    ensures |Delivered(Bars(symbol, source, n), symbol, source)| == n
    decreases n
  {
    if n > 0 {
      assert Bars(symbol, source, n)[..n - 1] == Bars(symbol, source, n - 1);
      BarsDelivered(symbol, source, n - 1);
    }
  }

  lemma FeedsFromProvider(d: DataRequirements, symbols: seq<string>, symbol: string, feed: FeedType)
    requires Mbp !in d.feeds && Mbo !in d.feeds && symbol in symbols && feed in RequiredFeeds(d)
    ensures FromProvider(d, symbols, EventOfFeed(symbol, feed))
  {
    NonBarFeedsHoldsNoBars(d.feeds, feed);
  }

  ghost predicate AllClose(events: seq<MarketEvent>) {
    forall e :: e in events && e.BarEvent? ==> ClosesFive(e.bar)
  }

  lemma {:induction false} FeedEventsFromProvider(d: DataRequirements, all: seq<string>, symbols: seq<string>)
    requires Mbp !in d.feeds && Mbo !in d.feeds && forall s :: s in symbols ==> s in all
    ensures forall e :: e in EventsOfAll(symbols, RequiredFeeds(d)) ==> FromProvider(d, all, e)
    ensures AllClose(EventsOfAll(symbols, RequiredFeeds(d)))
  {
    hide RequiredFeeds, FromProvider;
    if symbols != [] {
      var n := |symbols| - 1;
      var feeds := RequiredFeeds(d);
      FeedEventsFromProvider(d, all, symbols[..n]);
      var last := EventsOfFeeds(symbols[n], feeds);
      forall e | e in last ensures FromProvider(d, all, e) && (e.BarEvent? ==> ClosesFive(e.bar)) {
        var i :| 0 <= i < |feeds| && last[i] == e;
        FeedsFromProvider(d, all, symbols[n], feeds[i]);
      }
    }
  }

  lemma SufficientFromProvider(d: DataRequirements, symbols: seq<string>)
    requires symbols != [] && Mbp !in d.feeds && Mbo !in d.feeds
    ensures forall e :: e in SufficientEvents(d, symbols) ==> FromProvider(d, symbols, e)
    ensures AllClose(SufficientEvents(d, symbols))
  {
    hide RequiredFeeds, EventsOfAll, MostNeeded;
    FeedEventsFromProvider(d, symbols, symbols);
    forall k ensures ClosesFive(ClosingBar(symbols[0], ProviderSource(d), k)) {
      MultipleCloses(k);
    }
  }

  lemma MultipleCloses(k: int)
    ensures (k * Duration(FiveMinute)) % Duration(FiveMinute) == 0
  {
    DivisionIsUnique(k * Duration(FiveMinute), Duration(FiveMinute), k, 0);
  }

  lemma {:induction false} PollsFromProvider(d: DataRequirements, symbols: seq<string>, now: Time,
                                             events: seq<MarketEvent>)
    requires forall e :: e in events ==> FromProvider(d, symbols, e)
    ensures ProviderRun(d, symbols, LiveOps(now, events)) && ProviderRun(d, symbols, PollOps(events))
  {
    hide FromProvider;
    if events != [] {
      PollsFromProvider(d, symbols, now, events[..|events| - 1]);
    }
  }

  /** Every polled source bar of the primary symbol delivers a bar of each supplied timeframe. */
  lemma {:induction false} LiveSupplies(d: DataRequirements, symbols: seq<string>, now: Time, events: seq<MarketEvent>,
                                        t: Timeframe)
    requires symbols != [] && Supplied(d, t) && AllClose(events)
    ensures |Delivered(HandledSinceStart(d, symbols, now, LiveOps(now, events)), symbols[0], t)|
         >= |Delivered(events, symbols[0], ProviderSource(d))|
  {
    hide Step, LiveOps, Record, HandledEvents, PlanFor, ProviderSource;
    hide FeedsTell, FeedsAreNotTargets, Keyed, ClosesFive;
    if t == ProviderSource(d) {
      LiveDelivers(d, symbols, now, events, t);
    } else if events == [] {
      StartGoesLive(d, symbols, now);
    } else {
      var n := |events| - 1;
      var before := LiveOps(now, events[..n]);
      LiveOpsSnoc(now, events);
      LiveSupplies(d, symbols, now, events[..n], t);
      var c := Run(d, symbols, now, before).session;
      RunKeepsInv(d, symbols, now, before);
      PlanStays(d, symbols, now, before);
      DeliveredConcat(HandledSinceStart(d, symbols, now, before), HandledEvents(c, events[n]), symbols[0], t);
      assert HandledSinceStart(d, symbols, now, LiveOps(now, events))
          == HandledSinceStart(d, symbols, now, before) + HandledEvents(c, events[n]);
      if events[n].BarEvent? && events[n].bar.symbol == symbols[0] && events[n].bar.timeframe == ProviderSource(d) {
        SourceOfPlan(d);
        CompletesTarget(c, events[n].bar, t);
      }
    }
  }

  lemma SourceOfPlan(d: DataRequirements)
    ensures PlanFor(d).Some? ==> PlanFor(d).value.source == ProviderSource(d)
  {
    hide ProviderSource, SortDedup, Without;
  }

  /** The sufficient events deliver the required bars of each supplied timeframe. */
  lemma SufficientBars(d: DataRequirements, symbols: seq<string>, t: Timeframe)
    requires symbols != [] && t in d.barsRequired
    ensures |Delivered(SufficientEvents(d, symbols), symbols[0], ProviderSource(d))| >= d.barsRequired[t]
  {
    hide Delivered, RequiredFeeds, EventsOfAll, ProviderSource;
    var s, source := symbols[0], ProviderSource(d);
    BarsDelivered(s, source, MostNeeded(d));
    DeliveredConcat(EventsOfAll(symbols, RequiredFeeds(d)), Bars(s, source, MostNeeded(d)), s, source);
    match t case OneSecond => case OneMinute => case FiveMinute =>
  }

  /**
   * A strategy that can become trade-ready from its feed: no book feed, and the required bars, or those of one
   * timeframe where any suffices, are bars the feed or the aggregator supplies.
   */
  predicate CanBeReady(d: DataRequirements) {
    && Mbp !in d.feeds && Mbo !in d.feeds
    && if d.readyRequiresAll then forall t :: t in d.barsRequired ==> Supplied(d, t) || d.barsRequired[t] == 0
       else exists t :: t in d.barsRequired && (Supplied(d, t) || d.barsRequired[t] == 0)
  }

  /** One live start, one event per tracked feed and enough source bars make such a strategy ready. */
  lemma LiveRunGetsReady(d: DataRequirements, symbols: seq<string>, now: Time)
    requires symbols != [] && CanBeReady(d)
    ensures var ops := LiveOps(now, SufficientEvents(d, symbols));
      ProviderRun(d, symbols, ops) && Run(d, symbols, now, ops).TradeReady()
  {
    hide SufficientEvents, LiveOps, Marked, RequiredFeeds, Delivered, Supplied;
    hide ProviderRun, FromProvider, ProviderSource;
    var events := SufficientEvents(d, symbols);
    var ops := LiveOps(now, events);
    var s := Run(d, symbols, now, ops);
    SufficientFromProvider(d, symbols);
    PollsFromProvider(d, symbols, now, events);
    LiveRun(d, symbols, now, events);
    forall k | k in s.session.feeds ensures s.session.feeds[k].state == FeedReady {
      TrackedIsMarked(d, symbols, now, ops, k);
    }
    HealthyMeans(s.session);
    forall t | t in d.barsRequired && (Supplied(d, t) || d.barsRequired[t] == 0)
      ensures |Delivered(HandledSinceStart(d, symbols, now, ops), symbols[0], t)| >= d.barsRequired[t]
    {
      if Supplied(d, t) {
        SufficientBars(d, symbols, t);
        LiveSupplies(d, symbols, now, events, t);
      }
    }
    EnoughIsReady(d, symbols, now, ops);
  }

  lemma TrackedIsMarked(d: DataRequirements, symbols: seq<string>, now: Time, ops: seq<Op>, k: FeedKey)
    requires symbols != [] && CanBeReady(d) && k in Run(d, symbols, now, ops).session.feeds
    ensures Marked(SufficientEvents(d, symbols), k)
  {
    hide Marked, Run;
    FeedsAreTracked(d, symbols, now, ops);
    assert k in PendingFeeds(symbols, RequiredFeeds(d)).Keys;
    NonBarFeedsHoldsNoBars(d.feeds, k.1);
    AllFeedsMarked(symbols, RequiredFeeds(d), k);
    MarkedConcat(EventsOfAll(symbols, RequiredFeeds(d)), Bars(symbols[0], ProviderSource(d), MostNeeded(d)), k);
  }

  /**
   * Exactly which strategies can become trade-ready in some run that records only what the subscription brings: those
   * that require no book feed and whose required timeframes, or one of them where any suffices, are supplied.
   */
  lemma TradeReadyReachable(d: DataRequirements, symbols: seq<string>, now: Time)
    requires symbols != []
    ensures (exists ops :: ProviderRun(d, symbols, ops) && Run(d, symbols, now, ops).TradeReady()) <==> CanBeReady(d)
  {
    hide Run, ProviderRun, Supplied;
    if CanBeReady(d) {
      LiveRunGetsReady(d, symbols, now);
    }
    forall ops | ProviderRun(d, symbols, ops) && Run(d, symbols, now, ops).TradeReady() ensures CanBeReady(d) {
      if Mbp in d.feeds || Mbo in d.feeds {
        BookFeedsNeverReady(d, symbols, now, ops);
      }
      TradeReadyCountsBars(d, symbols, now, ops);
      forall t | t in d.barsRequired && !Supplied(d, t)
        ensures |Delivered(HandledSinceStart(d, symbols, now, ops), symbols[0], t)| == 0
      {
        NeverSupplied(d, symbols, now, ops, symbols[0], t);
      }
    }
  }

  /**
   * A strategy that works on five-minute bars alone never becomes trade-ready from its feed: the provider is asked
   * for one-minute bars, and with a single timeframe there is no aggregator to turn them into longer ones.
   */
  lemma FiveMinutesAloneNeverReady(d: DataRequirements, symbols: seq<string>, now: Time, ops: seq<Op>)
    requires symbols != [] && d.timeframes == [FiveMinute]
    requires FiveMinute in d.barsRequired && d.barsRequired == map[FiveMinute := d.barsRequired[FiveMinute]]
    requires d.barsRequired[FiveMinute] > 0 && ProviderRun(d, symbols, ops)
    ensures ProviderSource(d) == OneMinute && PlanFor(d) == None && !Run(d, symbols, now, ops).TradeReady()
  {
    hide Run, ProviderRun;
    TradeReadyReachable(d, symbols, now);
  }
}
