// Safety of the trade-ready gate over every run of the market-data service, failing transports included.
module ServiceLaws {
  import opened Prelude
  import opened MarketTypes
  import opened Aggregation
  import opened Warmup
  import opened Coordinator
  import opened CoordinatorLaws
  import opened MarketDataService

  datatype Op =
    | StartWarmupOp(mode: WarmupMode, disconnectOk: bool, link: LinkOutcome, now: Time)
    | ReconnectOp(link: LinkOutcome, now: Time)
    | PollOp(result: PollResult)
    | ManualOp(event: MarketEvent)

  function Step(s: ServiceState, op: Op): ServiceState {
    match op
    case StartWarmupOp(mode, disconnectOk, link, now) => s.StartWarmup(mode, disconnectOk, link, now)
    case ReconnectOp(link, now) => s.Reconnect(link, now)
    case PollOp(result) => s.Poll(result)
    case ManualOp(event) => s.IngestManual(event)
  }

  function Run(d: DataRequirements, symbols: seq<string>, now: Time, ops: seq<Op>): ServiceState
    requires symbols != []
  {
    if ops == [] then InitialService(d, symbols, now)
    else Step(Run(d, symbols, now, ops[..|ops| - 1]), ops[|ops| - 1])
  }

  // ----- what can be read off the operations alone

  predicate IsLinkAttempt(op: Op) {
    op.StartWarmupOp? || op.ReconnectOp?
  }

  predicate IsReplayCompletion(op: Op) {
    op.PollOp? && op.result.PollUpdate? && op.result.update.ReplayCompleted?
  }

  function RecordedEvent(op: Op): Option<MarketEvent> {
    match op
    case PollOp(PollUpdate(Event(event))) => Some(event)
    case ManualOp(event) => Some(event)
    case _ => None
  }

  /** The end of a replay was polled after every attempt to connect or reconnect. */
  ghost predicate ReplayedSinceLink(ops: seq<Op>) {
    exists i :: 0 <= i < |ops| && IsReplayCompletion(ops[i])
      && forall j :: i < j < |ops| ==> !IsLinkAttempt(ops[j])
  }

  /** An event of this symbol and feed was recorded. */
  ghost predicate Produced(ops: seq<Op>, key: FeedKey) {
    exists i :: 0 <= i < |ops| && RecordedEvent(ops[i]).Some?
      && EventSymbol(RecordedEvent(ops[i]).value) == key.0 && FeedForEvent(RecordedEvent(ops[i]).value) == Some(key.1)
  }

  // ----- the invariant

  /** Tracked feeds are never fed by completed bars. */
  ghost predicate FeedsAreNotTargets(c: CoordinatorState) {
    c.plan.Some? ==> forall k, t :: k in c.feeds && t in c.plan.value.targets ==> k.1 != FeedForTimeframe(t)
  }

  ghost predicate FeedsTell(c: CoordinatorState, ops: seq<Op>) {
    forall k :: k in c.feeds ==>
      c.feeds[k].state != FeedDegraded && (c.feeds[k].state == FeedReady ==> Produced(ops, k))
  }

  ghost predicate Inv(s: ServiceState, ops: seq<Op>) {
    && PlanValid(s.session.plan) && Keyed(s.session.windows)
    && (s.session.plan == None ==> s.session.windows == map[])
    && FeedsAreNotTargets(s.session)
    && FeedsTell(s.session, ops)
    && s.session.replayFrom == s.mode.ReplayPoint()
    && (s.session.connection == Subscribed && s.warmupRequested && s.replayCaughtUp && s.mode.ReplayFrom?
        ==> ReplayedSinceLink(ops))
  }

  lemma ReplayedExtends(ops: seq<Op>, op: Op)
    requires ReplayedSinceLink(ops) && !IsLinkAttempt(op)
    ensures ReplayedSinceLink(ops + [op])
  {
    var i :| 0 <= i < |ops| && IsReplayCompletion(ops[i]) && forall j :: i < j < |ops| ==> !IsLinkAttempt(ops[j]);
    assert (ops + [op])[i] == ops[i];
  }

  lemma ReplayedNow(ops: seq<Op>, op: Op)
    requires IsReplayCompletion(op)
    ensures ReplayedSinceLink(ops + [op])
  {
    assert (ops + [op])[|ops|] == op;
  }

  lemma ProducedExtends(ops: seq<Op>, op: Op, key: FeedKey)
    requires Produced(ops, key)
    ensures Produced(ops + [op], key)
  {
    var i :| 0 <= i < |ops| && RecordedEvent(ops[i]).Some?
      && EventSymbol(RecordedEvent(ops[i]).value) == key.0 && FeedForEvent(RecordedEvent(ops[i]).value) == Some(key.1);
    assert (ops + [op])[i] == ops[i];
  }

  lemma ProducedNow(ops: seq<Op>, op: Op, key: FeedKey)
    requires RecordedEvent(op).Some?
    requires EventSymbol(RecordedEvent(op).value) == key.0 && FeedForEvent(RecordedEvent(op).value) == Some(key.1)
    ensures Produced(ops + [op], key)
  {
    assert (ops + [op])[|ops|] == op;
  }

  lemma FeedsTellExtends(c: CoordinatorState, ops: seq<Op>, op: Op)
    requires FeedsTell(c, ops)
    ensures FeedsTell(c, ops + [op])
  {
    hide Produced;
    forall k | k in c.feeds && c.feeds[k].state == FeedReady ensures Produced(ops + [op], k) {
      ProducedExtends(ops, op, k);
    }
  }

  /** Completed bars leave the tracked feeds, the connection and the plan alone. */
  lemma {:induction false} DerivedLeaveFeedsAlone(c: CoordinatorState, events: seq<MarketEvent>)
    requires PlanValid(c.plan) && Keyed(c.windows) && c.plan.Some?
    requires forall e :: e in events ==> e.BarEvent? && e.bar.timeframe in c.plan.value.targets
    requires FeedsAreNotTargets(c)
    ensures HandleAll(c, events).feeds == c.feeds
    decreases |events|
  {
    hide IngestEvent, Keyed, TrackerState.Ingest;
    if events != [] {
      var next := HandleOne(c, events[0]);
      assert events[0] in events;
      CompletedBarsAreInert(c, events[0]);
      forall e | e in events[1..] ensures e.BarEvent? && e.bar.timeframe in c.plan.value.targets { assert e in events; }
      assert next.feeds == c.feeds;
      DerivedLeaveFeedsAlone(next, events[1..]);
    }
  }

  lemma RecordFeeds(c: CoordinatorState, event: MarketEvent)
    requires PlanValid(c.plan) && Keyed(c.windows) && FeedsAreNotTargets(c)
    requires c.plan == None ==> c.windows == map[]
    ensures var after := Record(c, event);
      && after.feeds == MarkFeed(c.feeds, event)
      && after.plan == c.plan && Keyed(after.windows) && (c.plan == None ==> after.windows == map[])
      && after.connection == c.connection && after.degradation == c.degradation && after.replayFrom == c.replayFrom
  {
    hide IngestTargets, MarkFeed, TrackerState.Ingest;
    var bars := Aggregate(c, event).1;
    var next := HandleOne(c, event);
    HandleAllKeepsPlan(next, NewestFirst(bars));
    RecordIsIngest(c, event);
    if c.plan.Some? {
      MarkedKeysStay(c.feeds, event);
      if FeedsAggregator(c, event) {
        CompletedAreTargets(c.windows, event.bar, c.plan.value.source, c.plan.value.targets);
      }
      forall e | e in NewestFirst(bars) ensures e.BarEvent? && e.bar.timeframe in c.plan.value.targets {
        var i :| 0 <= i < |bars| && NewestFirst(bars)[i] == e;
        assert bars[|bars| - 1 - i] in bars;
      }
      CompletedBarsAreInert(c, event);
      DerivedLeaveFeedsAlone(next, NewestFirst(bars));
    }
  }

  lemma MarkedKeysStay(feeds: Feeds, event: MarketEvent)
    ensures MarkFeed(feeds, event).Keys == feeds.Keys
  {
  }

  lemma RecordKeepsFeedsTelling(c: CoordinatorState, event: MarketEvent, ops: seq<Op>, op: Op)
    requires PlanValid(c.plan) && Keyed(c.windows) && FeedsAreNotTargets(c) && FeedsTell(c, ops)
    requires c.plan == None ==> c.windows == map[]
    requires RecordedEvent(op) == Some(event)
    ensures FeedsTell(Record(c, event), ops + [op]) && FeedsAreNotTargets(Record(c, event))
  {
    hide Produced, Record, Keyed;
    RecordFeeds(c, event);
    MarkedKeysStay(c.feeds, event);
    forall k | k in c.feeds && MarkFeed(c.feeds, event)[k].state == FeedReady ensures Produced(ops + [op], k) {
      if c.feeds[k].state == FeedReady {
        ProducedExtends(ops, op, k);
      } else {
        ProducedNow(ops, op, k);
      }
    }
  }

  lemma InitialInv(d: DataRequirements, symbols: seq<string>, now: Time)
    requires symbols != []
    ensures Inv(InitialService(d, symbols, now), [])
  {
    hide SortDedup, Without;
    var c := InitialCoordinator(d, symbols, now);
    StrategyPlanIsValid(d);
    if c.plan.Some? {
      forall k, t | k in c.feeds && t in c.plan.value.targets ensures k.1 != FeedForTimeframe(t) {
        NonBarFeedsHoldsNoBars(d.feeds, k.1);
        var i :| 0 <= i < |c.plan.value.targets| && c.plan.value.targets[i] == t;
      }
    }
  }

  /** Operations that record no event leave feeds, plan and windows alone. */
  lemma QuietStep(s: ServiceState, op: Op)
    requires RecordedEvent(op) == None
    ensures var next := Step(s, op);
      next.session.feeds == s.session.feeds && next.session.plan == s.session.plan
      && next.session.windows == s.session.windows
    ensures s.session.replayFrom == s.mode.ReplayPoint()
        ==> Step(s, op).session.replayFrom == Step(s, op).mode.ReplayPoint()
  {
    hide TrackerState.Reset, TrackerState.Start, TrackerState.MarkFailed, Record, DeriveHealth;
    match op
    case ReconnectOp(link, now) => QuietReconnect(s, link, now);
    case _ =>
      hide ServiceState.Reconnect;
  }

  lemma QuietReconnect(s: ServiceState, link: LinkOutcome, now: Time)
    ensures var next := s.Reconnect(link, now);
      next.session.feeds == s.session.feeds && next.session.plan == s.session.plan
      && next.session.windows == s.session.windows
    ensures s.session.replayFrom == s.mode.ReplayPoint()
        ==> s.Reconnect(link, now).session.replayFrom == s.Reconnect(link, now).mode.ReplayPoint()
  {
    hide TrackerState.Reset, TrackerState.Start, TrackerState.MarkFailed;
  }

  /** An operation with an event records it. */
  lemma RecordingStep(s: ServiceState, op: Op)
    ensures RecordedEvent(op).Some? ==> Step(s, op).session == Record(s.session, RecordedEvent(op).value)
  {
    hide Record;
  }

  /** Becoming or staying subscribed and caught up: only an old claim, or a replay completion just polled. */
  lemma CaughtUpStep(s: ServiceState, op: Op)
    requires RecordedEvent(op) == None
    ensures var next := Step(s, op);
      next.session.connection == Subscribed && next.warmupRequested && next.replayCaughtUp && next.mode.ReplayFrom? ==>
        !IsLinkAttempt(op)
        && (IsReplayCompletion(op)
            || (s.session.connection == Subscribed && s.warmupRequested && s.replayCaughtUp && s.mode.ReplayFrom?))
  {
    hide TrackerState.Reset, TrackerState.Start, Record;
  }

  lemma StepKeepsInv(s: ServiceState, ops: seq<Op>, op: Op)
    requires Inv(s, ops)
    ensures Inv(Step(s, op), ops + [op])
  {
    hide Produced, ReplayedSinceLink, Record, Keyed, FeedsTell, FeedsAreNotTargets;
    match RecordedEvent(op)
    case Some(event) =>
      RecordFeeds(s.session, event);
      RecordKeepsFeedsTelling(s.session, event, ops, op);
      if ReplayedSinceLink(ops) {
        ReplayedExtends(ops, op);
      }
    case None =>
      hide Step;
      QuietStep(s, op);
      CaughtUpStep(s, op);
      FeedsTellExtends(s.session, ops, op);
      SameFeeds(s.session, Step(s, op).session, ops + [op]);
      if IsReplayCompletion(op) {
        ReplayedNow(ops, op);
      } else if ReplayedSinceLink(ops) && !IsLinkAttempt(op) {
        ReplayedExtends(ops, op);
      }
  }

  lemma SameFeeds(c: CoordinatorState, e: CoordinatorState, ops: seq<Op>)
    ensures c.feeds == e.feeds && FeedsTell(c, ops) ==> FeedsTell(e, ops)
    ensures c.feeds == e.feeds && c.plan == e.plan && FeedsAreNotTargets(c) ==> FeedsAreNotTargets(e)
  {
  }

  lemma {:induction false} RunKeepsInv(d: DataRequirements, symbols: seq<string>, now: Time, ops: seq<Op>)
    requires symbols != []
    ensures Inv(Run(d, symbols, now, ops), ops)
  {
    hide Inv, Step, InitialService;
    if ops == [] {
      InitialInv(d, symbols, now);
    } else {
      var n := |ops| - 1;
      RunKeepsInv(d, symbols, now, ops[..n]);
      StepKeepsInv(Run(d, symbols, now, ops[..n]), ops[..n], ops[n]);
      assert ops[..n] + [ops[n]] == ops;
    }
  }

  // ----- the safety claims

  /**
   * Trade-ready is safe in every run: the feed is subscribed and undegraded, every tracked feed has
   * produced an event, the warm-up is ready, and in replay mode the replay has been seen to end since the
   * latest attempt to connect or reconnect.
   */
  lemma TradeReadyIsSafe(d: DataRequirements, symbols: seq<string>, now: Time, ops: seq<Op>)
    requires symbols != [] && Run(d, symbols, now, ops).TradeReady()
    ensures var s := Run(d, symbols, now, ops);
      && s.session.connection == Subscribed && s.session.degradation == None
      && (forall symbol, feed :: symbol in symbols && feed in RequiredFeeds(d) ==> Produced(ops, (symbol, feed)))
      && s.session.tracker.Status() == Ready
      && (s.mode.ReplayFrom? ==> ReplayedSinceLink(ops))
  {
    hide Produced, ReplayedSinceLink, Step;
    RunKeepsInv(d, symbols, now, ops);
    var s := Run(d, symbols, now, ops);
    HealthyMeans(s.session);
    FeedsAreTracked(d, symbols, now, ops);
    forall symbol, feed | symbol in symbols && feed in RequiredFeeds(d) ensures Produced(ops, (symbol, feed)) {
      var k := (symbol, feed);
      assert k in s.session.feeds;
    }
  }

  lemma {:induction false} FeedsAreTracked(d: DataRequirements, symbols: seq<string>, now: Time, ops: seq<Op>)
    requires symbols != []
    ensures Run(d, symbols, now, ops).session.feeds.Keys == PendingFeeds(symbols, RequiredFeeds(d)).Keys
  {
    hide Produced, ReplayedSinceLink, Record, MarkFeed, PendingFeeds;
    if ops != [] {
      var n := |ops| - 1;
      FeedsAreTracked(d, symbols, now, ops[..n]);
      RunKeepsInv(d, symbols, now, ops[..n]);
      var before := Run(d, symbols, now, ops[..n]);
      match RecordedEvent(ops[n])
      case Some(event) =>
        RecordFeeds(before.session, event);
        MarkedKeysStay(before.session.feeds, event);
      case None =>
        hide Step;
        QuietStep(before, ops[n]);
    }
  }

  /** The subscription always asks for exactly the replay point of the current mode. */
  lemma ReplayPointMatchesMode(d: DataRequirements, symbols: seq<string>, now: Time, ops: seq<Op>)
    requires symbols != []
    ensures Run(d, symbols, now, ops).session.replayFrom == Run(d, symbols, now, ops).mode.ReplayPoint()
  {
    hide FeedsTell, FeedsAreNotTargets, Keyed;
    RunKeepsInv(d, symbols, now, ops);
  }

  /** No event belongs to a book feed, so a strategy that requires one is never trade-ready. */
  lemma BookFeedsNeverReady(d: DataRequirements, symbols: seq<string>, now: Time, ops: seq<Op>)
    requires symbols != [] && (Mbp in d.feeds || Mbo in d.feeds)
    ensures !Run(d, symbols, now, ops).TradeReady()
  {
    var feed := if Mbp in d.feeds then Mbp else Mbo;
    NonBarFeedsHoldsNoBars(d.feeds, feed);
    NothingProducesBookFeeds(ops, (symbols[0], feed));
    if Run(d, symbols, now, ops).TradeReady() {
      TradeReadyIsSafe(d, symbols, now, ops);
      assert false;
    }
  }

  lemma NothingProducesBookFeeds(ops: seq<Op>, key: FeedKey)
    requires key.1 == Mbp || key.1 == Mbo
    ensures !Produced(ops, key)
  {
    forall event: MarketEvent ensures FeedForEvent(event) != Some(key.1) {
      if event.BarEvent? { assert FeedForTimeframe(event.bar.timeframe) != key.1; }
    }
  }

  // ----- how much warm-up stands behind trade-ready

  predicate StartsWarmup(s: ServiceState, op: Op) {
    op.StartWarmupOp? && op.link == LinkOk && (op.disconnectOk || s.session.connection == Disconnected)
  }

  /** Everything handled since the latest successful start of a warm-up. */
  function HandledSinceStart(d: DataRequirements, symbols: seq<string>, now: Time, ops: seq<Op>): seq<MarketEvent>
    requires symbols != []
  {
    if ops == [] then []
    else
      var n := |ops| - 1;
      var before := Run(d, symbols, now, ops[..n]);
      var sofar := HandledSinceStart(d, symbols, now, ops[..n]);
      if StartsWarmup(before, ops[n]) then []
      else match RecordedEvent(ops[n])
        case Some(event) => sofar + HandledEvents(before.session, event)
        case None => sofar
  }

  /** The tracker's buffers are those of a reset tracker that ingested some events. */
  ghost predicate BuffersOf(s: TrackerState, d: DataRequirements, symbol: string, events: seq<MarketEvent>) {
    && s.symbol == symbol && s.required == d.barsRequired && s.requiresAll == d.readyRequiresAll
    && s.buffers == s.Reset(0).IngestAll(events).buffers
  }

  lemma BuffersGrow(s: TrackerState, d: DataRequirements, symbol: string, sofar: seq<MarketEvent>,
                    more: seq<MarketEvent>)
    requires BuffersOf(s, d, symbol, sofar)
    ensures BuffersOf(s.IngestAll(more), d, symbol, sofar + more)
    ensures s.IngestAll(more).failureReason == s.failureReason
    decreases |more|
  {
    hide TrackerState.Ingest;
    if more == [] {
      assert sofar + more == sofar;
    } else {
      var n := |more| - 1;
      BuffersGrow(s, d, symbol, sofar, more[..n]);
      assert (sofar + more)[..|sofar + more| - 1] == sofar + more[..n];
      IngestKeepsRequirements(s.Reset(0), sofar + more[..n]);
      IngestDependsOnBuffers(s.IngestAll(more[..n]), s.Reset(0).IngestAll(sofar + more[..n]), more[n]);
    }
  }

  lemma IngestDependsOnBuffers(a: TrackerState, b: TrackerState, event: MarketEvent)
    requires a.buffers == b.buffers && a.symbol == b.symbol && a.required == b.required
    ensures var next := a.Ingest(event);
      && next.buffers == b.Ingest(event).buffers && next.failureReason == a.failureReason
      && next.symbol == a.symbol && next.required == a.required && next.requiresAll == a.requiresAll
  {
  }

  /** Without an event the tracker changes only when a warm-up starts. */
  lemma QuietTracker(s: ServiceState, op: Op)
    requires RecordedEvent(op) == None
    ensures Step(s, op).session.tracker
         == if StartsWarmup(s, op) then s.session.tracker.Reset(op.now).Start(op.now) else s.session.tracker
  {
    hide TrackerState.Reset, TrackerState.Start, Record;
  }

  lemma ResetBuffers(s: TrackerState, op: Op)
    requires op.StartWarmupOp?
    ensures var started := s.Reset(op.now).Start(op.now);
      started.buffers == started.Reset(0).IngestAll([]).buffers
  {
  }

  lemma {:induction false} RunBuffers(d: DataRequirements, symbols: seq<string>, now: Time, ops: seq<Op>)
    requires symbols != []
    ensures BuffersOf(Run(d, symbols, now, ops).session.tracker, d, symbols[0], HandledSinceStart(d, symbols, now, ops))
  {
    hide Produced, ReplayedSinceLink, Record, HandledEvents, FeedsTell, FeedsAreNotTargets, Keyed, TrackerState.Ingest;
    if ops != [] {
      var n := |ops| - 1;
      RunBuffers(d, symbols, now, ops[..n]);
      RunKeepsInv(d, symbols, now, ops[..n]);
      var before := Run(d, symbols, now, ops[..n]);
      match RecordedEvent(ops[n])
      case Some(event) =>
        RecordIsIngest(before.session, event);
        BuffersGrow(before.session.tracker, d, symbols[0],
                    HandledSinceStart(d, symbols, now, ops[..n]), HandledEvents(before.session, event));
      case None =>
        hide Step;
        QuietTracker(before, ops[n]);
        if ops[n].StartWarmupOp? {
          ResetBuffers(before.session.tracker, ops[n]);
        }
    }
  }

  /**
   * Trade-ready means enough bars of the primary symbol were handled since the latest successful start of
   * the warm-up: in every required timeframe, or in one when any suffices.
   */
  lemma TradeReadyCountsBars(d: DataRequirements, symbols: seq<string>, now: Time, ops: seq<Op>)
    requires symbols != [] && Run(d, symbols, now, ops).TradeReady()
    ensures var handled := HandledSinceStart(d, symbols, now, ops);
      if d.readyRequiresAll then
        forall t :: t in d.barsRequired ==> |Delivered(handled, symbols[0], t)| >= d.barsRequired[t]
      else
        exists t :: t in d.barsRequired && |Delivered(handled, symbols[0], t)| >= d.barsRequired[t]
  {
    hide Step;
    RunBuffers(d, symbols, now, ops);
    var tracker := Run(d, symbols, now, ops).session.tracker;
    var handled := HandledSinceStart(d, symbols, now, ops);
    IngestKeepsRequirements(tracker.Reset(0), handled);
    SameBuffersSameReadiness(tracker, tracker.Reset(0).IngestAll(handled));
    ReadyCountsBars(tracker, 0, handled);
    if !d.readyRequiresAll {
      var t :| t in tracker.required && Enough(handled, tracker, t);
    } else {
      forall t | t in d.barsRequired ensures |Delivered(handled, symbols[0], t)| >= d.barsRequired[t] {
        assert Enough(handled, tracker, t);
      }
    }
  }

  lemma SameBuffersSameReadiness(a: TrackerState, b: TrackerState)
    requires a.buffers == b.buffers && a.required == b.required && a.requiresAll == b.requiresAll
    ensures a.IsReady() <==> b.IsReady()
  {
    assert forall t :: a.BufferReady(t) <==> b.BufferReady(t);
  }
}
