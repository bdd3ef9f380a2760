// Rolling buffers and the warm-up tracker that decides whether enough bars have been seen.
module Warmup {
  import opened Prelude
  import opened MarketTypes

  class RollingBuffer<T> {
    const capacity: nat
    var items: seq<T>

    ghost predicate Valid()
      reads this
    {
      0 < capacity && |items| <= capacity
    }

    constructor (capacity: nat)
      requires capacity > 0
      ensures Valid() && fresh(this) && this.capacity == capacity && items == []
    {
      this.capacity := capacity;
      items := [];
    }

    /** Keeps exactly the newest `capacity` items. */
    method Push(item: T)
      requires Valid()
      modifies this
      ensures Valid() && items == LastN(old(items) + [item], capacity)
    {
      if |items| == capacity {
        items := items[1..];
      }
      items := items + [item];
    }
  }

  /** Two hours of bars, or the requirement when that is more. */
  function RetainedCapacity(timeframe: Timeframe, required: nat): (capacity: nat)
    ensures capacity >= required && capacity > 0
  {
    Max(required, Max(7200 / Seconds(timeframe), 1))
  }

  /** A buffer holds what is required and two hours, and no more than the longer of the two. */
  lemma RetainsTwoHours(timeframe: Timeframe, required: nat)
    ensures var capacity := RetainedCapacity(timeframe, required);
      && capacity >= required && capacity * Seconds(timeframe) >= 7200
      && (capacity == required || capacity * Seconds(timeframe) == 7200)
  {
    match timeframe case OneSecond => case OneMinute => case FiveMinute =>
  }

  type Requirements = map<Timeframe, u32>

  datatype WarmupStatus = NotLoaded | Loaded | Warming | Ready | Failed

  /** The tracker's abstract state: buffer contents by timeframe. */
  datatype TrackerState = TrackerState(
    symbol: string,
    requiresAll: bool,
    required: Requirements,
    buffers: map<Timeframe, seq<Bar>>,
    startedAt: Option<Time>,
    updatedAt: Time,
    failureReason: Option<string>)
  {
    ghost predicate Valid() {
      && buffers.Keys == required.Keys
      && forall t :: t in required ==> |buffers[t]| <= RetainedCapacity(t, required[t])
    }

    predicate BufferReady(timeframe: Timeframe) {
      timeframe in buffers && timeframe in required && |buffers[timeframe]| >= required[timeframe]
    }

    /** All required timeframes have enough bars, or any of them when that suffices. */
    predicate IsReady() {
      if requiresAll then forall t :: t in required ==> BufferReady(t)
      else exists t :: t in required && BufferReady(t)
    }

    function Status(): WarmupStatus {
      if failureReason.Some? then Failed
      else if startedAt.None? then Loaded
      else if IsReady() then Ready
      else Warming
    }

    function Start(now: Time): TrackerState {
      this.(startedAt := Some(now), updatedAt := now, failureReason := None)
    }

    function Reset(now: Time): TrackerState {
      this.(buffers := map t | t in required :: [], startedAt := None, updatedAt := now, failureReason := None)
    }

    function MarkFailed(message: string, now: Time): TrackerState {
      this.(failureReason := Some(message), updatedAt := now)
    }

    /** Whether an event goes into one of the buffers. */
    predicate Accepts(event: MarketEvent) {
      event.BarEvent? && event.bar.symbol == symbol && event.bar.timeframe in buffers && event.bar.timeframe in required
    }

    function Ingest(event: MarketEvent): TrackerState {
      if Accepts(event) then
        var t := event.bar.timeframe;
        this.(buffers := buffers[t := LastN(buffers[t] + [event.bar], RetainedCapacity(t, required[t]))],
              updatedAt := EventTimestamp(event))
      else this
    }

    function IngestAll(events: seq<MarketEvent>): TrackerState {
      if events == [] then this else IngestAll(events[..|events| - 1]).Ingest(events[|events| - 1])
    }
  }

  /** The bars of the tracked symbol and one timeframe among some events. */
  function Delivered(events: seq<MarketEvent>, symbol: string, timeframe: Timeframe): seq<Bar> {
    if events == [] then []
    else
      var rest := Delivered(events[..|events| - 1], symbol, timeframe);
      var last := events[|events| - 1];
      if last.BarEvent? && last.bar.symbol == symbol && last.bar.timeframe == timeframe then rest + [last.bar] else rest
  }

  /** Each buffer holds the newest bars ever delivered since the last reset, up to its capacity. */
  lemma {:induction false} BuffersAreTheNewestBars(s: TrackerState, now: Time, events: seq<MarketEvent>, t: Timeframe)
    requires t in s.required
    ensures var after := s.Reset(now).IngestAll(events);
      && after.Valid() && after.required == s.required && after.symbol == s.symbol
      && after.requiresAll == s.requiresAll && after.failureReason == None && after.startedAt == None
      && after.buffers[t] == LastN(Delivered(events, s.symbol, t), RetainedCapacity(t, s.required[t]))
  {
    if events != [] {
      var n := |events| - 1;
      BuffersAreTheNewestBars(s, now, events[..n], t);
      var before := s.Reset(now).IngestAll(events[..n]);
      if before.Accepts(events[n]) && events[n].bar.timeframe == t {
        LastNOfPush(Delivered(events[..n], s.symbol, t), events[n].bar, RetainedCapacity(t, s.required[t]));
      }
    }
  }

  predicate Enough(events: seq<MarketEvent>, s: TrackerState, t: Timeframe)
    requires t in s.required
  {
    |Delivered(events, s.symbol, t)| >= s.required[t]
  }

  /**
   * Readiness counts bars: after a reset, the tracker is ready exactly when the bars ingested since
   * then meet the requirement in all (or in any) of the timeframes. Eviction never matters.
   */
  lemma ReadyCountsBars(s: TrackerState, now: Time, events: seq<MarketEvent>)
    ensures s.Reset(now).IngestAll(events).IsReady()
       <==> if s.requiresAll then forall t :: t in s.required ==> Enough(events, s, t)
            else exists t :: t in s.required && Enough(events, s, t)
  {
    var after := s.Reset(now).IngestAll(events);
    IngestKeepsRequirements(s.Reset(now), events);
    forall t | t in s.required ensures after.BufferReady(t) <==> Enough(events, s, t) {
      BuffersAreTheNewestBars(s, now, events, t);
    }
  }

  lemma {:induction false} IngestKeepsRequirements(s: TrackerState, events: seq<MarketEvent>)
    ensures var after := s.IngestAll(events);
      after.required == s.required && after.requiresAll == s.requiresAll && after.symbol == s.symbol
      && after.buffers.Keys == s.buffers.Keys
  {
    if events != [] {
      IngestKeepsRequirements(s, events[..|events| - 1]);
    }
  }

  /** Ready persists: no later event takes readiness away. */
  lemma ReadyPersists(s: TrackerState, event: MarketEvent)
    requires s.Valid() && s.Status() == Ready
    ensures s.Ingest(event).Status() == Ready && s.Ingest(event).Valid()
  {
    var after := s.Ingest(event);
    forall t | t in s.required ensures s.BufferReady(t) ==> after.BufferReady(t) {
      if s.Accepts(event) && t == event.bar.timeframe {
        assert after.buffers[t] == LastN(s.buffers[t] + [event.bar], RetainedCapacity(t, s.required[t]));
      }
    }
  }

  datatype WarmupError = InvalidWarmupRequirement(timeframe: Timeframe)

  class WarmupTracker {
    const symbol: string
    const requiresAll: bool
    const required: Requirements
    var buffers: map<Timeframe, RollingBuffer<Bar>>
    var startedAt: Option<Time>
    var updatedAt: Time
    var failureReason: Option<string>

    ghost predicate Valid()
      reads this, buffers.Values
    {
      && buffers.Keys == required.Keys
      && (forall t :: t in buffers ==> buffers[t].Valid() && buffers[t].capacity == RetainedCapacity(t, required[t]))
      && (forall t, u :: t in buffers && u in buffers && t != u ==> buffers[t] != buffers[u])
    }

    ghost function View(): TrackerState
      reads this, buffers.Values
    {
      TrackerState(symbol, requiresAll, required, map t | t in buffers :: buffers[t].items,
                   startedAt, updatedAt, failureReason)
    }

    constructor (required: Requirements, requiresAll: bool, symbol: string, now: Time)
      ensures Valid() && fresh(this) && fresh(buffers.Values)
      ensures View() == TrackerState(symbol, requiresAll, required, map t | t in required :: [], None, now, None)
    {
      this.symbol, this.requiresAll, this.required := symbol, requiresAll, required;
      startedAt, updatedAt, failureReason := None, now, None;
      buffers := map[];
      new;
      FillBuffers();
    }

    /** Builds a tracker, refusing a zero requirement (the first one in timeframe order). */
    static method FromStrategy(required: Requirements, requiresAll: bool, symbol: string, now: Time)
      returns (r: Result<WarmupTracker, WarmupError>)
      ensures r.Ok? <==> forall t :: t in required ==> required[t] > 0
      ensures r.Err? ==> r.error.timeframe in required && required[r.error.timeframe] == 0
      ensures r.Err? ==> forall t :: t in required && Seconds(t) < Seconds(r.error.timeframe) ==> required[t] > 0
      ensures r.Ok? ==> fresh(r.value) && fresh(r.value.buffers.Values) && r.value.Valid()
      ensures r.Ok? ==>
        r.value.View() == TrackerState(symbol, requiresAll, required, map t | t in required :: [], None, now, None)
    {
      var order := [OneSecond, OneMinute, FiveMinute];
      for i := 0 to 3
        invariant forall j :: 0 <= j < i && order[j] in required ==> required[order[j]] > 0
      {
        if order[i] in required && required[order[i]] == 0 {
          return Err(InvalidWarmupRequirement(order[i]));
        }
      }
      assert order[0] == OneSecond && order[1] == OneMinute && order[2] == FiveMinute;
      var tracker := new WarmupTracker(required, requiresAll, symbol, now);
      return Ok(tracker);
    }

    /** A new empty buffer for every required timeframe. */
    static method EmptyBuffers(required: Requirements) returns (filled: map<Timeframe, RollingBuffer<Bar>>)
      ensures filled.Keys == required.Keys && fresh(filled.Values)
      ensures forall t :: t in filled ==>
        filled[t].Valid() && filled[t].items == [] && filled[t].capacity == RetainedCapacity(t, required[t])
      ensures forall t, u :: t in filled && u in filled && t != u ==> filled[t] != filled[u]
    {
      hide RetainedCapacity, RollingBuffer.Valid;
      filled := map[];
      var todo := required.Keys;
      while todo != {}
        invariant todo <= required.Keys && filled.Keys == required.Keys - todo
        invariant fresh(filled.Values)
        invariant forall t :: t in filled ==>
          filled[t].Valid() && filled[t].items == [] && filled[t].capacity == RetainedCapacity(t, required[t])
        invariant forall t, u :: t in filled && u in filled && t != u ==> filled[t] != filled[u]
        decreases todo
      {
        var t :| t in todo;
        var buffer := new RollingBuffer<Bar>(RetainedCapacity(t, required[t]));
        assert forall u :: u in filled ==> filled[u] in filled.Values;
        filled := filled[t := buffer];
        todo := todo - {t};
      }
    }

    /** Puts a new empty buffer under every required timeframe. */
    method FillBuffers()
      modifies this`buffers
      ensures Valid() && fresh(buffers.Values)
      ensures View() == TrackerState(symbol, requiresAll, required, map t | t in required :: [],
                                     startedAt, updatedAt, failureReason)
    {
      hide RetainedCapacity, RollingBuffer.Valid;
      buffers := EmptyBuffers(required);
      assert View().buffers == map t | t in required :: [];
    }

    method Start(now: Time)
      requires Valid()
      modifies this`startedAt, this`updatedAt, this`failureReason
      ensures Valid() && View() == old(View()).Start(now)
    {
      hide RetainedCapacity;
      startedAt, updatedAt, failureReason := Some(now), now, None;
      assert View().buffers == old(View().buffers);
    }

    method Reset(now: Time)
      requires Valid()
      modifies this
      ensures Valid() && fresh(buffers.Values)
      ensures View() == old(View()).Reset(now)
    {
      hide Valid;
      startedAt, updatedAt, failureReason := None, now, None;
      FillBuffers();
    }

    method MarkFailed(message: string, now: Time)
      requires Valid()
      modifies this`updatedAt, this`failureReason
      ensures Valid() && View() == old(View()).MarkFailed(message, now)
    {
      hide RetainedCapacity;
      failureReason, updatedAt := Some(message), now;
      assert View().buffers == old(View().buffers);
    }

    method Ingest(event: MarketEvent)
      requires Valid()
      modifies this`updatedAt, buffers.Values
      ensures Valid() && buffers == old(buffers)
      ensures View() == old(View()).Ingest(event)
    {
      if event.BarEvent? && event.bar.symbol == symbol && event.bar.timeframe in buffers {
        var t := event.bar.timeframe;
        hide RetainedCapacity, LastN;
        assert buffers[t] in buffers.Values;
        updatedAt := event.bar.closedAt;
        buffers[t].Push(event.bar);
        assert forall u :: u in buffers && u != t ==> buffers[u].items == old(buffers[u].items);
      }
    }

    method IngestHistory(events: seq<MarketEvent>)
      requires Valid()
      modifies this`updatedAt, buffers.Values
      ensures Valid() && buffers == old(buffers)
      ensures View() == old(View()).IngestAll(events)
    {
      for i := 0 to |events|
        invariant Valid() && buffers == old(buffers)
        invariant View() == old(View()).IngestAll(events[..i])
      {
        assert events[..i + 1][..i] == events[..i];
        Ingest(events[i]);
      }
      assert events[..|events|] == events;
    }

    method IsReady() returns (ready: bool)
      requires Valid()
      ensures ready == View().IsReady()
    {
      var todo := required.Keys;
      ready := requiresAll;
      while todo != {}
        invariant todo <= required.Keys
        invariant requiresAll ==> (ready <==> forall t :: t in required.Keys - todo ==> View().BufferReady(t))
        invariant !requiresAll ==> (ready <==> exists t :: t in required.Keys - todo && View().BufferReady(t))
        decreases todo
      {
        var t :| t in todo;
        var enough := |buffers[t].items| >= required[t];
        assert View().BufferReady(t) <==> enough;
        ready := if requiresAll then ready && enough else ready || enough;
        todo := todo - {t};
      }
      assert required.Keys - todo == required.Keys;
    }
  }
}
