// The Databento session and the market-data service: connecting, replaying, reconnecting, and the
// moment trading may start.
module MarketDataService {
  import opened Prelude
  import opened MarketTypes
  import opened Aggregation
  import opened Warmup
  import opened Coordinator

  // ----- what the strategy asks for

  datatype DataRequirements = DataRequirements(
    feeds: seq<FeedType>,
    timeframes: seq<Timeframe>,
    multiTimeframe: bool,
    barsRequired: Requirements,
    readyRequiresAll: bool)

  datatype MarketDataError =
    | NoDatabentoSymbols
    | InvalidRequirement(timeframe: Timeframe)
    | TransportFailed(operation: string)

  predicate IsBarFeed(feed: FeedType) {
    feed == Ohlcv1s || feed == Ohlcv1m || feed == Ohlcv5m
  }

  function ProviderSource(d: DataRequirements): Timeframe {
    if OneSecond in d.timeframes then OneSecond else OneMinute
  }

  function NonBarFeeds(feeds: seq<FeedType>): seq<FeedType> {
    if feeds == [] then []
    else
      var rest := NonBarFeeds(feeds[..|feeds| - 1]);
      if IsBarFeed(feeds[|feeds| - 1]) then rest else rest + [feeds[|feeds| - 1]]
  }

  /**
   * The feeds whose readiness is tracked: no bar feed but the provider's source bars. Order and repeats do not
   * matter.
   */
  function RequiredFeeds(d: DataRequirements): seq<FeedType> {
    NonBarFeeds(d.feeds) + [FeedForTimeframe(ProviderSource(d))]
  }

  function Without(timeframes: seq<Timeframe>, t: Timeframe): seq<Timeframe> {
    if timeframes == [] then []
    else
      var rest := Without(timeframes[..|timeframes| - 1], t);
      if timeframes[|timeframes| - 1] == t then rest else rest + [timeframes[|timeframes| - 1]]
  }

  function PlanFor(d: DataRequirements): Option<AggregationPlan> {
    var requested := SortDedup(d.timeframes);
    if !d.multiTimeframe || |requested| <= 1 then None
    else
      var targets := Without(requested, ProviderSource(d));
      if targets == [] then None else Some(AggregationPlan(ProviderSource(d), SortDedup(targets)))
  }

  lemma {:induction false} WithoutMembers(timeframes: seq<Timeframe>, t: Timeframe, x: Timeframe)
    ensures x in Without(timeframes, t) <==> x in timeframes && x != t
  {
    if timeframes != [] {
      var n := |timeframes| - 1;
      WithoutMembers(timeframes[..n], t, x);
      assert timeframes == timeframes[..n] + [timeframes[n]];
    }
  }

  /** The targets of a strategy are always longer than its source, so building its aggregator never fails. */
  lemma StrategyPlanIsValid(d: DataRequirements)
    ensures forall x :: x in Without(SortDedup(d.timeframes), ProviderSource(d)) ==>
              Duration(x) > Duration(ProviderSource(d))
    ensures PlanValid(PlanFor(d))
  {
    var source := ProviderSource(d);
    var targets := Without(SortDedup(d.timeframes), source);
    forall x | x in targets ensures Duration(x) > Duration(source) {
      WithoutMembers(SortDedup(d.timeframes), source, x);
      SortDedupIsTheSortedSet(d.timeframes, x);
    }
    var sorted := SortDedup(targets);
    forall i | 0 <= i < |sorted| ensures Duration(sorted[i]) > Duration(source) {
      SortDedupIsTheSortedSet(targets, sorted[i]);
    }
    SortDedupIsTheSortedSet(targets, source);
  }

  lemma {:induction false} NonBarFeedsHoldsNoBars(feeds: seq<FeedType>, f: FeedType)
    ensures f in NonBarFeeds(feeds) <==> f in feeds && !IsBarFeed(f)
  {
    if feeds != [] {
      var n := |feeds| - 1;
      NonBarFeedsHoldsNoBars(feeds[..n], f);
      assert feeds == feeds[..n] + [feeds[n]];
    }
  }

  function PendingFeeds(symbols: seq<string>, feeds: seq<FeedType>): Feeds {
    map s, f | s in symbols && f in feeds :: (s, f) := FeedStatus(FeedPending, None)
  }

  lemma NoPendingFeeds(feeds: seq<FeedType>)
    ensures PendingFeeds([], feeds) == map[]
    ensures forall symbol :: PendingFeeds([symbol], []) == map[]
  {
  }

  lemma PendingNextFeed(symbol: string, feeds: seq<FeedType>, feed: FeedType)
    ensures PendingFeeds([symbol], feeds + [feed])
         == PendingFeeds([symbol], feeds)[(symbol, feed) := FeedStatus(FeedPending, None)]
  {
  }

  lemma PendingNextSymbol(symbols: seq<string>, symbol: string, feeds: seq<FeedType>)
    ensures PendingFeeds(symbols + [symbol], feeds) == PendingFeeds(symbols, feeds) + PendingFeeds([symbol], feeds)
  {
  }

  function InitialCoordinator(d: DataRequirements, symbols: seq<string>, now: Time): CoordinatorState
    requires symbols != []
  {
    CoordinatorState(
      None, PendingFeeds(symbols, RequiredFeeds(d)), Disconnected, None, PlanFor(d), map[],
      TrackerState(symbols[0], d.readyRequiresAll, d.barsRequired, map t | t in d.barsRequired :: [], None, now, None),
      0, None, None, now)
  }

  // ----- transport outcomes and the transitions they cause

  /** How far connect, subscribe and start got. */
  datatype LinkOutcome = LinkOk | ConnectFails | SubscribeFails | StartFails

  function FailedOperation(link: LinkOutcome, reconnecting: bool): string {
    match link
    case ConnectFails => if reconnecting then "reconnect_connect" else "connect"
    case SubscribeFails => if reconnecting then "reconnect_subscribe" else "subscribe"
    case StartFails => if reconnecting then "reconnect_start" else "start"
    case LinkOk => ""
  }

  datatype TransportUpdate =
    | Event(event: MarketEvent)
    | DisconnectedUpdate(occurredAt: Time, detail: string)
    | SubscriptionAck(occurredAt: Time)
    | ReplayCompleted(occurredAt: Time)
    | SlowReaderWarning(occurredAt: Time, detail: string)
    | EndOfInterval(occurredAt: Time)

  datatype PollResult = PollFails | PollNothing | PollUpdate(update: TransportUpdate)

  function TransportFailure(c: CoordinatorState, operation: string, now: Time): CoordinatorState {
    c.(connection := ConnectionFailed, degradation := Some(operation), updatedAt := now)
  }

  /** The common end of connect and reconnect. */
  function Linked(c: CoordinatorState, link: LinkOutcome, reconnecting: bool, now: Time): CoordinatorState {
    if link == LinkOk then c.(connection := Subscribed, degradation := None, updatedAt := now)
    else TransportFailure(c, FailedOperation(link, reconnecting), now)
  }

  function ConnectSession(c: CoordinatorState, link: LinkOutcome, now: Time): CoordinatorState {
    Linked(c.(connection := Connecting, updatedAt := now), link, false, now)
  }

  function ReconnectSession(c: CoordinatorState, link: LinkOutcome, now: Time): CoordinatorState {
    Linked(c.(reconnectCount := SaturatingAdd(c.reconnectCount, 1), connection := Reconnecting, updatedAt := now),
           link, true, now)
  }

  function DisconnectSession(c: CoordinatorState, ok: bool, reason: string, now: Time): CoordinatorState {
    if ok then c.(connection := Disconnected, lastDisconnectReason := Some(reason), updatedAt := now)
    else TransportFailure(c, "disconnect", now)
  }

  function ApplyUpdate(c: CoordinatorState, update: TransportUpdate): CoordinatorState {
    match update
    case Event(event) => Record(c, event)
    case DisconnectedUpdate(at, detail) =>
      c.(connection := Disconnected, lastDisconnectReason := Some(detail), updatedAt := at)
    case SubscriptionAck(at) => c.(updatedAt := Max(c.updatedAt, at))
    case ReplayCompleted(at) => c.(updatedAt := Max(c.updatedAt, at))
    case EndOfInterval(at) => c.(updatedAt := Max(c.updatedAt, at))
    case SlowReaderWarning(at, detail) => c.(degradation := Some(detail), updatedAt := at)
  }

  function UpdateTimestamp(update: TransportUpdate): Time {
    if update.Event? then EventTimestamp(update.event) else update.occurredAt
  }

  datatype WarmupMode = LiveOnly | ReplayFrom(from: Time) {
    function ReplayPoint(): Option<Time> {
      match this
      case LiveOnly => None
      case ReplayFrom(t) => Some(t)
    }
  }

  // ----- the service as a state machine

  datatype ServiceState = ServiceState(
    session: CoordinatorState,
    warmupRequested: bool,
    mode: WarmupMode,
    replayCaughtUp: bool,
    updatedAt: Time)
  {
    /** The gate in front of trading. */
    predicate TradeReady() {
      warmupRequested && replayCaughtUp && DeriveHealth(session) == Healthy && session.tracker.Status() == Ready
    }

    function StartWarmup(newMode: WarmupMode, disconnectOk: bool, link: LinkOutcome, now: Time): ServiceState {
      var closed := if session.connection == Disconnected then session
                    else DisconnectSession(session, disconnectOk, "warmup restart", now);
      if session.connection != Disconnected && !disconnectOk then this.(session := closed)
      else
        var linked := ConnectSession(closed.(replayFrom := newMode.ReplayPoint()), link, now);
        if link != LinkOk then this.(session := linked.(replayFrom := mode.ReplayPoint()))
        else
          this.(session := linked.(tracker := linked.tracker.Reset(now).Start(now)),
                warmupRequested := true, mode := newMode, replayCaughtUp := newMode.LiveOnly?, updatedAt := now)
    }

    function Reconnect(link: LinkOutcome, now: Time): ServiceState {
      this.(replayCaughtUp := if warmupRequested then mode.LiveOnly? else replayCaughtUp,
            session := ReconnectSession(session, link, now),
            updatedAt := if link == LinkOk then now else updatedAt)
    }

    function Poll(result: PollResult): ServiceState {
      match result
      case PollFails => this
      case PollNothing => this
      case PollUpdate(update) =>
        this.(session := ApplyUpdate(session, update),
              replayCaughtUp := replayCaughtUp || update.ReplayCompleted?,
              updatedAt := UpdateTimestamp(update))
    }

    function IngestManual(event: MarketEvent): ServiceState {
      this.(session := Record(session, event))
    }
  }

  function InitialService(d: DataRequirements, symbols: seq<string>, now: Time): ServiceState
    requires symbols != []
  {
    ServiceState(InitialCoordinator(d, symbols, now), false, LiveOnly, false, now)
  }

  // ----- the objects

  class DatabentoSessionManager {
    const coordinator: DatabentoMarketDataCoordinator

    ghost function Repr(): set<object>
      reads this, coordinator, coordinator.warmup
    {
      {this} + coordinator.Repr()
    }

    ghost predicate Valid()
      reads this, coordinator.Repr()
    {
      coordinator.Valid()
    }

    ghost function View(): CoordinatorState
      reads this, coordinator.Repr()
    {
      coordinator.View()
    }

    constructor (coordinator: DatabentoMarketDataCoordinator)
      requires coordinator.Valid()
      ensures Valid() && fresh(this) && this.coordinator == coordinator && View() == coordinator.View()
    {
      this.coordinator := coordinator;
    }

    /** No aggregator unless several timeframes are asked for and one of them is not the source. */
    static method BuildAggregator(d: DataRequirements) returns (aggregator: MultiTimeframeAggregator?)
      ensures aggregator == null <==> PlanFor(d) == None
      ensures aggregator != null ==>
        fresh(aggregator) && aggregator.Valid() && aggregator.windows == map[]
      ensures aggregator != null ==>
        PlanFor(d) == Some(AggregationPlan(aggregator.sourceTimeframe, aggregator.targetTimeframes))
    {
      hide SortDedup, Without, ProviderSource;
      var requested := SortDedup(d.timeframes);
      if !d.multiTimeframe || |requested| <= 1 {
        return null;
      }
      var source := ProviderSource(d);
      var targets := Without(requested, source);
      if targets == [] {
        return null;
      }
      StrategyPlanIsValid(d);
      var built := MultiTimeframeAggregator.New(source, targets);
      return built.value;
    }

    static method TrackFeeds(symbols: seq<string>, feeds: seq<FeedType>) returns (statuses: Feeds)
      ensures statuses == PendingFeeds(symbols, feeds)
    {
      hide PendingFeeds;
      statuses := map[];
      NoPendingFeeds(feeds);
      for i := 0 to |symbols|
        invariant statuses == PendingFeeds(symbols[..i], feeds)
      {
        ghost var before := statuses;
        NoPendingFeeds([]);
        for j := 0 to |feeds|
          invariant statuses == before + PendingFeeds([symbols[i]], feeds[..j])
        {
          PendingNextFeed(symbols[i], feeds[..j], feeds[j]);
          statuses := statuses[(symbols[i], feeds[j]) := FeedStatus(FeedPending, None)];
          assert feeds[..j + 1] == feeds[..j] + [feeds[j]];
        }
        assert feeds[..|feeds|] == feeds;
        PendingNextSymbol(symbols[..i], symbols[i], feeds);
        assert symbols[..i + 1] == symbols[..i] + [symbols[i]];
      }
      assert symbols[..|symbols|] == symbols;
    }

    /** Builds subscription, tracker, aggregator and pending feeds from the strategy. */
    static method New(d: DataRequirements, symbols: seq<string>, now: Time)
      returns (r: Result<DatabentoSessionManager, MarketDataError>)
      ensures r.Ok? <==> symbols != [] && forall t :: t in d.barsRequired ==> d.barsRequired[t] > 0
      ensures r.Ok? ==> fresh(r.value) && fresh(r.value.Repr()) && r.value.Valid()
      ensures r.Ok? ==> r.value.View() == InitialCoordinator(d, symbols, now)
      ensures symbols == [] ==> r == Err(NoDatabentoSymbols)
    {
      hide PlanFor, PendingFeeds, RequiredFeeds, WarmupTracker.Valid, WarmupTracker.View;
      if symbols == [] {
        return Err(NoDatabentoSymbols);
      }
      var tracker := WarmupTracker.FromStrategy(d.barsRequired, d.readyRequiresAll, symbols[0], now);
      if tracker.Err? {
        return Err(InvalidRequirement(tracker.error.timeframe));
      }
      var aggregator := BuildAggregator(d);
      var statuses := TrackFeeds(symbols, RequiredFeeds(d));
      var coordinator := new DatabentoMarketDataCoordinator(statuses, aggregator, tracker.value, now);
      var session := new DatabentoSessionManager(coordinator);
      return Ok(session);
    }

    method HandleTransportFailure(operation: string, now: Time)
      requires Valid()
      modifies Repr()
      ensures Valid() && Repr() == old(Repr())
      ensures View() == TransportFailure(old(View()), operation, now)
    {
      hide DatabentoMarketDataCoordinator.Valid, DatabentoMarketDataCoordinator.View;
      coordinator.SetConnectionState(ConnectionFailed, now);
      coordinator.MarkDegraded(operation, now);
    }

    method ConfigureReplayFrom(replayFrom: Option<Time>)
      requires Valid()
      modifies Repr()
      ensures Valid() && Repr() == old(Repr())
      ensures View() == old(View()).(replayFrom := replayFrom)
    {
      hide WarmupTracker.Valid, WarmupTracker.View, MultiTimeframeAggregator.Valid;
      coordinator.replayFrom := replayFrom;
    }

    method Connect(link: LinkOutcome, now: Time) returns (ok: bool)
      requires Valid()
      modifies Repr()
      ensures Valid() && Repr() == old(Repr())
      ensures View() == ConnectSession(old(View()), link, now) && (ok <==> link == LinkOk)
    {
      hide DatabentoMarketDataCoordinator.Valid, DatabentoMarketDataCoordinator.View;
      coordinator.SetConnectionState(Connecting, now);
      if link == ConnectFails {
        HandleTransportFailure("connect", now);
        return false;
      }
      if link == SubscribeFails {
        HandleTransportFailure("subscribe", now);
        return false;
      }
      if link == StartFails {
        HandleTransportFailure("start", now);
        return false;
      }
      coordinator.SetConnectionState(Subscribed, now);
      coordinator.ClearDegraded(now);
      return true;
    }

    method Reconnect(link: LinkOutcome, now: Time) returns (ok: bool)
      requires Valid()
      modifies Repr()
      ensures Valid() && Repr() == old(Repr())
      ensures View() == ReconnectSession(old(View()), link, now) && (ok <==> link == LinkOk)
    {
      hide DatabentoMarketDataCoordinator.Valid;
      coordinator.NoteReconnectAttempt(now);
      if link == ConnectFails {
        HandleTransportFailure("reconnect_connect", now);
        return false;
      }
      if link == SubscribeFails {
        HandleTransportFailure("reconnect_subscribe", now);
        return false;
      }
      if link == StartFails {
        HandleTransportFailure("reconnect_start", now);
        return false;
      }
      coordinator.SetConnectionState(Subscribed, now);
      coordinator.ClearDegraded(now);
      return true;
    }

    method Disconnect(transportOk: bool, reason: string, now: Time) returns (ok: bool)
      requires Valid()
      modifies Repr()
      ensures Valid() && Repr() == old(Repr())
      ensures View() == DisconnectSession(old(View()), transportOk, reason, now) && ok == transportOk
    {
      hide DatabentoMarketDataCoordinator.Valid, DatabentoMarketDataCoordinator.View;
      if !transportOk {
        HandleTransportFailure("disconnect", now);
        return false;
      }
      coordinator.NoteDisconnect(reason, now);
      return true;
    }

    method RecordEvent(event: MarketEvent)
      requires Valid()
      modifies Repr()
      ensures Valid() && Repr() == old(Repr())
      ensures View() == Record(old(View()), event)
    {
      hide DatabentoMarketDataCoordinator.Valid, DatabentoMarketDataCoordinator.View;
      coordinator.RecordEvent(event);
    }

    method ApplyTransportUpdate(update: TransportUpdate)
      requires Valid()
      modifies Repr()
      ensures Valid() && Repr() == old(Repr())
      ensures View() == ApplyUpdate(old(View()), update)
    {
      hide DatabentoMarketDataCoordinator.Valid, Record;
      match update
      case Event(event) => coordinator.RecordEvent(event);
      case DisconnectedUpdate(at, detail) => coordinator.NoteDisconnect(detail, at);
      case SubscriptionAck(at) => coordinator.Touch(at);
      case ReplayCompleted(at) => coordinator.Touch(at);
      case EndOfInterval(at) => coordinator.Touch(at);
      case SlowReaderWarning(at, detail) => coordinator.MarkDegraded(detail, at);
    }
  }

  class MarketDataService {
    const session: DatabentoSessionManager
    var warmupRequested: bool
    var warmupMode: WarmupMode
    var replayCaughtUp: bool
    var updatedAt: Time

    ghost function Repr(): set<object>
      reads this, session, session.coordinator, session.coordinator.warmup
    {
      {this} + session.Repr()
    }

    ghost predicate Valid()
      reads this, session, session.coordinator, session.coordinator.warmup, session.Repr()
    {
      session.Valid()
    }

    ghost function View(): ServiceState
      reads this, session, session.coordinator, session.coordinator.warmup, session.Repr()
    {
      ServiceState(session.View(), warmupRequested, warmupMode, replayCaughtUp, updatedAt)
    }

    constructor (session: DatabentoSessionManager, now: Time)
      requires session.Valid()
      ensures Valid() && fresh(this) && this.session == session
      ensures View() == ServiceState(session.View(), false, LiveOnly, false, now)
    {
      this.session := session;
      warmupRequested, warmupMode, replayCaughtUp, updatedAt := false, LiveOnly, false, now;
    }

    /** Closes an open session before a restart. */
    method CloseSession(disconnectOk: bool, now: Time) returns (ok: bool)
      requires Valid()
      modifies Repr()
      ensures Valid() && Repr() == old(Repr())
      ensures ok <==> old(View()).session.connection == Disconnected || disconnectOk
      ensures View() == old(View()).(session :=
        if old(View()).session.connection == Disconnected then old(View()).session
        else DisconnectSession(old(View()).session, disconnectOk, "warmup restart", now))
    {
      hide DatabentoMarketDataCoordinator.Valid, DatabentoMarketDataCoordinator.View, DisconnectSession;
      session.coordinator.ViewConnection();
      ok := true;
      if session.coordinator.connectionState != Disconnected {
        ok := session.Disconnect(disconnectOk, "warmup restart", now);
      }
    }

    /** (Re)starts the warm-up; on a failed connect every service field and the replay point are rolled back. */
    method StartWarmup(mode: WarmupMode, disconnectOk: bool, link: LinkOutcome, now: Time)
      returns (r: Result<(), MarketDataError>)
      requires Valid()
      modifies Repr()
      ensures Valid() && fresh(Repr() - old(Repr()))
      ensures View() == old(View()).StartWarmup(mode, disconnectOk, link, now)
      ensures r.Ok? <==> link == LinkOk && (disconnectOk || old(View()).session.connection == Disconnected)
    {
      hide DatabentoSessionManager.Valid, DatabentoSessionManager.View;
      hide ConnectSession, DisconnectSession, ServiceState.TradeReady, TrackerState.Reset, TrackerState.Start;
      var previousRequested, previousMode, previousCaughtUp := warmupRequested, warmupMode, replayCaughtUp;
      var closed := CloseSession(disconnectOk, now);
      if !closed {
        return Err(TransportFailed("disconnect"));
      }
      var linked := OpenSession(mode.ReplayPoint(), link, now);
      if !linked {
        RollBack(previousRequested, previousMode, previousCaughtUp);
        return Err(TransportFailed("connect"));
      }
      BeginWarmup(mode, now);
      return Ok(());
    }

    /** Sets the replay point and connects. */
    method OpenSession(replayPoint: Option<Time>, link: LinkOutcome, now: Time) returns (ok: bool)
      requires Valid()
      modifies Repr()
      ensures Valid() && Repr() == old(Repr()) && (ok <==> link == LinkOk)
      ensures View() == old(View()).(session :=
                          ConnectSession(old(View()).session.(replayFrom := replayPoint), link, now))
    {
      hide DatabentoMarketDataCoordinator.Valid, DatabentoMarketDataCoordinator.View, ConnectSession;
      session.ConfigureReplayFrom(replayPoint);
      ok := session.Connect(link, now);
    }

    /** Undoes what a failed restart had already changed, the replay point included. */
    method RollBack(requested: bool, mode: WarmupMode, caughtUp: bool)
      requires Valid()
      modifies Repr()
      ensures Valid() && Repr() == old(Repr())
      ensures View() == old(View()).(session := old(View()).session.(replayFrom := mode.ReplayPoint()),
                                     warmupRequested := requested, mode := mode, replayCaughtUp := caughtUp)
    {
      hide DatabentoMarketDataCoordinator.Valid, DatabentoMarketDataCoordinator.View;
      warmupRequested, warmupMode, replayCaughtUp := requested, mode, caughtUp;
      session.ConfigureReplayFrom(mode.ReplayPoint());
    }

    /** Adopts the new mode and restarts the tracker. */
    method BeginWarmup(mode: WarmupMode, now: Time)
      requires Valid()
      modifies Repr()
      ensures Valid() && fresh(Repr() - old(Repr()))
      ensures View() == old(View()).(
        session := old(View()).session.(tracker := old(View()).session.tracker.Reset(now).Start(now)),
        warmupRequested := true, mode := mode, replayCaughtUp := mode.LiveOnly?, updatedAt := now)
    {
      hide WarmupTracker.Valid, WarmupTracker.View, TrackerState.Reset, TrackerState.Start;
      warmupRequested, warmupMode, replayCaughtUp := true, mode, mode.LiveOnly?;
      session.coordinator.warmup.Reset(now);
      session.coordinator.warmup.Start(now);
      updatedAt := now;
    }

    method Reconnect(link: LinkOutcome, now: Time) returns (ok: bool)
      requires Valid()
      modifies Repr()
      ensures Valid() && Repr() == old(Repr())
      ensures View() == old(View()).Reconnect(link, now) && (ok <==> link == LinkOk)
    {
      hide DatabentoMarketDataCoordinator.Valid, DatabentoMarketDataCoordinator.View, ReconnectSession;
      if warmupRequested {
        replayCaughtUp := warmupMode.LiveOnly?;
      }
      ok := session.Reconnect(link, now);
      if !ok {
        return;
      }
      updatedAt := now;
    }

    method PollNextUpdate(result: PollResult) returns (r: Result<Option<TransportUpdate>, MarketDataError>)
      requires Valid()
      modifies Repr()
      ensures Valid() && Repr() == old(Repr())
      ensures View() == old(View()).Poll(result)
      ensures r == match result
                   case PollFails => Err(TransportFailed("next_update"))
                   case PollNothing => Ok(None)
                   case PollUpdate(update) => Ok(Some(update))
    {
      hide DatabentoMarketDataCoordinator.Valid, DatabentoMarketDataCoordinator.View, ApplyUpdate;
      match result
      case PollFails => return Err(TransportFailed("next_update"));
      case PollNothing => return Ok(None);
      case PollUpdate(update) =>
        session.ApplyTransportUpdate(update);
        updatedAt := UpdateTimestamp(update);
        if update.ReplayCompleted? {
          replayCaughtUp := true;
        }
        return Ok(Some(update));
    }

    method IngestManualEvent(event: MarketEvent)
      requires Valid()
      modifies Repr()
      ensures Valid() && Repr() == old(Repr())
      ensures View() == old(View()).IngestManual(event)
    {
      hide DatabentoMarketDataCoordinator.Valid, DatabentoMarketDataCoordinator.View, Record;
      session.RecordEvent(event);
    }

    /** The `trade_ready` field of a snapshot. */
    method IsTradeReady() returns (ready: bool)
      requires Valid()
      ensures ready == View().TradeReady()
    {
      hide TrackerState.IsReady;
      var c := session.coordinator;
      var warm := c.warmup.IsReady();
      var healthy := c.connectionState == Subscribed && c.degradationReason.None?
                     && forall k :: k in c.feedStatuses ==> c.feedStatuses[k].state == FeedReady;
      ready := warmupRequested && replayCaughtUp && healthy
               && c.warmup.failureReason.None? && c.warmup.startedAt.Some? && warm;
      HealthyMeans(c.View());
    }
  }

  lemma HealthyMeans(c: CoordinatorState)
    ensures DeriveHealth(c) == Healthy <==>
      c.connection == Subscribed && c.degradation == None && forall k :: k in c.feeds ==> c.feeds[k].state == FeedReady
  {
    if forall k :: k in c.feeds ==> c.feeds[k].state == FeedReady {
    } else {
      var k :| k in c.feeds && c.feeds[k].state != FeedReady;
      assert c.feeds[k].state == FeedPending || c.feeds[k].state == FeedDegraded;
    }
  }
}
