// Laws of streaming aggregation: the windows kept by `ingest`, followed by one `flush`, produce the
// batch grouping; what is emitted conserves volume and keeps bars sane on any stream whatever.
module StreamingLaws {
  import opened Prelude
  import opened MarketTypes
  import opened Aggregation
  import opened BatchAggregation

  // ----- runs

  /** Ingesting a whole stream from an empty aggregator: the windows left open and every bar emitted. */
  function IngestAll(events: seq<MarketEvent>, source: Timeframe, targets: seq<Timeframe>): (Windows, seq<Bar>) {
    if events == [] then (map[], [])
    else
      var n := |events| - 1;
      var (windows, emitted) := IngestAll(events[..n], source, targets);
      var (windows', completed) := IngestEvent(windows, events[n], source, targets);
      (windows', emitted + completed)
  }

  /** The source bars of one symbol in a stream. */
  function SourceBars(events: seq<MarketEvent>, symbol: string, source: Timeframe): seq<Bar> {
    if events == [] then []
    else
      var n := |events| - 1;
      var rest := SourceBars(events[..n], symbol, source);
      if events[n].BarEvent? && events[n].bar.symbol == symbol && events[n].bar.timeframe == source then
        rest + [events[n].bar]
      else rest
  }

  /** The run of a single window slot. */
  function Follow(bars: seq<Bar>, source: Timeframe, target: Timeframe): (Option<AggregationWindow>, seq<Bar>) {
    if bars == [] then (None, [])
    else
      var n := |bars| - 1;
      var (window, emitted) := Follow(bars[..n], source, target);
      var (window', completed) := Advance(window, bars[n], source, target);
      (window', emitted + completed)
  }

  // ----- each symbol and target evolves on its own

  lemma {:induction false} TargetsAreIndependent(
    windows: Windows, bar: Bar, source: Timeframe, targets: seq<Timeframe>, symbol: string, target: Timeframe)
    requires Keyed(windows)
    requires forall i, j :: 0 <= i < j < |targets| ==> targets[i] != targets[j]
    ensures var (windows', out) := IngestTargets(windows, bar, source, targets);
      && Keyed(windows')
      && if symbol == bar.symbol && target in targets then
           && Get(windows', (symbol, target)) == Advance(Get(windows, (symbol, target)), bar, source, target).0
           && Select(out, symbol, target) == Advance(Get(windows, (symbol, target)), bar, source, target).1
         else
           Get(windows', (symbol, target)) == Get(windows, (symbol, target)) && Select(out, symbol, target) == []
  {
    hide Advance, Select, AlignWindowStart, Keyed, Get, Put;
    if targets == [] {
      SelectNone(symbol, target);
    } else {
      var n := |targets| - 1;
      var last := targets[n];
      assert targets == targets[..n] + [last];
      TargetsAreIndependent(windows, bar, source, targets[..n], symbol, target);
      TargetsAreIndependent(windows, bar, source, targets[..n], bar.symbol, last);
      var (before, emitted) := IngestTargets(windows, bar, source, targets[..n]);
      var key := (bar.symbol, last);
      var (window, completed) := Advance(Get(before, key), bar, source, last);
      KeyedSlot(before, key);
      AdvanceStaysFiled(Get(before, key), bar, source, last, symbol, target);
      PutSlot(before, key, window, (symbol, target));
      SelectConcat(emitted, completed, symbol, target);
      assert last !in targets[..n];
    }
  }

  /** The slot of one symbol and target sees exactly that symbol's source bars. */
  lemma {:induction false} SlotFollowsItsSymbol(
    events: seq<MarketEvent>, source: Timeframe, targets: seq<Timeframe>, symbol: string, target: Timeframe)
    requires ValidTargets(source, targets)
    ensures var (windows, out) := IngestAll(events, source, targets);
      && Keyed(windows)
      && if target in targets then
           && Get(windows, (symbol, target)) == Follow(SourceBars(events, symbol, source), source, target).0
           && Select(out, symbol, target) == Follow(SourceBars(events, symbol, source), source, target).1
         else
           Get(windows, (symbol, target)) == None && Select(out, symbol, target) == []
  {
    hide Advance, Select, IngestTargets, AlignWindowStart;
    SelectNone(symbol, target);
    if events != [] {
      var n := |events| - 1;
      SlotFollowsItsSymbol(events[..n], source, targets, symbol, target);
      var (windows, emitted) := IngestAll(events[..n], source, targets);
      var (_, completed) := IngestEvent(windows, events[n], source, targets);
      SelectConcat(emitted, completed, symbol, target);
      var bars := SourceBars(events[..n], symbol, source);
      if events[n].BarEvent? && events[n].bar.timeframe == source {
        TargetsAreIndependent(windows, events[n].bar, source, targets, symbol, target);
        if events[n].bar.symbol == symbol {
          assert (bars + [events[n].bar])[..|bars|] == bars;
        }
      }
    }
  }

  // ----- streaming equals batch

  /** Consecutive bars do not overlap in time: each starts no earlier than all before it closed. */
  ghost predicate NonOverlapping(bars: seq<Bar>, source: Timeframe) {
    forall i, j :: 0 <= i < j < |bars| ==> bars[i].closedAt <= bars[j].closedAt - Duration(source)
  }

  ghost predicate GridAlignedIncreasing(bars: seq<Bar>, source: Timeframe) {
    && (forall i :: 0 <= i < |bars| ==> OnGrid(bars[i].closedAt, source))
    && (forall i, j :: 0 <= i < j < |bars| ==> bars[i].closedAt < bars[j].closedAt)
  }

  lemma GridStep(a: Time, b: Time, timeframe: Timeframe)
    requires OnGrid(a, timeframe) && OnGrid(b, timeframe) && a < b
    ensures a + Duration(timeframe) <= b
  {
    match timeframe
    case OneSecond =>
    case OneMinute =>
    case FiveMinute =>
  }

  /** Strictly increasing bars on the source grid never overlap. */
  lemma GridBarsDoNotOverlap(bars: seq<Bar>, source: Timeframe)
    requires GridAlignedIncreasing(bars, source)
    ensures NonOverlapping(bars, source)
  {
    forall i, j | 0 <= i < j < |bars| ensures bars[i].closedAt <= bars[j].closedAt - Duration(source) {
      GridStep(bars[i].closedAt, bars[j].closedAt, source);
    }
  }

  lemma NonOverlappingAscends(bars: seq<Bar>, source: Timeframe, target: Timeframe)
    requires NonOverlapping(bars, source)
    ensures Ascends(bars, Aligned(source, target))
  {
    forall i, j | 0 <= i < j < |bars|
      ensures Aligned(source, target)(bars[i]) <= Aligned(source, target)(bars[j])
    {
      assert Duration(source) > 0;
      AlignMonotone(bars[i].closedAt - Duration(source), bars[j].closedAt - Duration(source), target);
    }
  }

  /** The open slot after some bars: nothing after the last bar reached its window's end, else that window. */
  ghost predicate SlotMatches(window: Option<AggregationWindow>, bars: seq<Bar>, source: Timeframe, target: Timeframe) {
    match window
    case None => bars != [] ==>
      WindowStartOf(bars[|bars| - 1], source, target) + Duration(target) <= bars[|bars| - 1].closedAt
    case Some(w) => bars != [] && w.timeframe == target && w.start == WindowStartOf(bars[|bars| - 1], source, target)
  }

  lemma NonOverlappingPrefix(before: seq<Bar>, bar: Bar, source: Timeframe)
    requires NonOverlapping(before + [bar], source)
    ensures NonOverlapping(before, source)
    ensures before != [] ==> before[|before| - 1].closedAt <= bar.closedAt - Duration(source)
  {
    var bars := before + [bar];
    assert forall i :: 0 <= i < |before| ==> before[i] == bars[i];
    assert bars[|before|] == bar;
  }

  /** Emitted bars and the bar of the still open window are together the batch grouping. */
  lemma {:induction false} FollowIsBatch(bars: seq<Bar>, source: Timeframe, target: Timeframe)
    requires NonOverlapping(bars, source)
    ensures var (window, out) := Follow(bars, source, target);
      && SlotMatches(window, bars, source, target)
      && out + Closing(window) == Batch(bars, Aligned(source, target), target)
  {
    hide AlignWindowStart, Batch, Ascends, Advance, Grow, NonOverlapping;
    if bars == [] {
      BatchOfNone(Aligned(source, target), target);
    } else {
      var n := |bars| - 1;
      var before, bar := bars[..n], bars[n];
      assert bars == before + [bar];
      NonOverlappingPrefix(before, bar, source);
      FollowIsBatch(before, source, target);
      NonOverlappingAscends(bars, source, target);
      BatchSnoc(before, bar, Aligned(source, target), target);
      AlignIsTheContainingWindow(bar.closedAt - Duration(source), target, 0);
      AdvanceGrows(Follow(before, source, target).0, Follow(before, source, target).1, before, bar, source, target);
    }
  }

  lemma AdvanceGrows(window: Option<AggregationWindow>, out: seq<Bar>, before: seq<Bar>, bar: Bar,
                     source: Timeframe, target: Timeframe)
    requires SlotMatches(window, before, source, target)
    requires before != [] ==>
      && before[|before| - 1].closedAt <= bar.closedAt - Duration(source)
      && bar.closedAt - Duration(source) < WindowStartOf(bar, source, target) + Duration(target)
    ensures var (window', completed) := Advance(window, bar, source, target);
      && out + completed + Closing(window')
           == Grow(out + Closing(window), bar, ContinuesLastWindow(before, bar, Aligned(source, target)),
                   Aligned(source, target), target)
      && SlotMatches(window', before + [bar], source, target)
  {
    hide AlignWindowStart;
    var (window', completed) := Advance(window, bar, source, target);
    var closing := Closing(window);
    match window
    case None =>
      assert out + closing == out;
    case Some(w) =>
      assert (out + closing)[..|out + closing| - 1] == out;
      assert w.Update(bar).IntoBar() == Absorb(w.IntoBar(), bar);
  }

  /**
   * Streaming equals batch: for any interleaving of symbols, timeframes and other events, all bars
   * emitted while ingesting followed by a flush, restricted to one symbol and target, are the batch
   * grouping of that symbol's source bars.
   */
  lemma StreamingEqualsBatch(events: seq<MarketEvent>, source: Timeframe, targets: seq<Timeframe>,
                             symbol: string, target: Timeframe, flushed: seq<Bar>)
    requires ValidTargets(source, targets) && target in targets
    requires NonOverlapping(SourceBars(events, symbol, source), source)
    requires IsFlush(IngestAll(events, source, targets).0, flushed)
    ensures Select(IngestAll(events, source, targets).1 + flushed, symbol, target)
         == Batch(SourceBars(events, symbol, source), Aligned(source, target), target)
  {
    var (windows, out) := IngestAll(events, source, targets);
    SlotFollowsItsSymbol(events, source, targets, symbol, target);
    FollowIsBatch(SourceBars(events, symbol, source), source, target);
    SelectConcat(out, flushed, symbol, target);
    var key: WindowKey := (symbol, target);
    assert Select(flushed, key.0, key.1) == Closing(Get(windows, key));
  }

  // ----- conservation on arbitrary streams

  function EmittedVolume(bars: seq<Bar>): nat {
    TotalVolume(bars)
  }

  function OpenVolume(window: Option<AggregationWindow>): nat {
    match window
    case Some(w) => w.volume
    case None => 0
  }

  /** Whether one ingest step clips a window's volume at the u64 maximum. */
  predicate Clips(window: Option<AggregationWindow>, bar: Bar, source: Timeframe, target: Timeframe) {
    match window
    case Some(w) => w.start == WindowStartOf(bar, source, target) && w.volume + bar.volume > U64_MAX
    case None => false
  }

  predicate EverClips(bars: seq<Bar>, source: Timeframe, target: Timeframe) {
    bars != [] &&
    (EverClips(bars[..|bars| - 1], source, target)
     || Clips(Follow(bars[..|bars| - 1], source, target).0, bars[|bars| - 1], source, target))
  }

  lemma {:induction false} TotalVolumeConcat(a: seq<Bar>, b: seq<Bar>)
    ensures TotalVolume(a + b) == TotalVolume(a) + TotalVolume(b)
  {
    if b == [] {
      assert a + b == a;
    } else {
      TotalVolumeConcat(a, b[..|b| - 1]);
      assert (a + b)[..|a + b| - 1] == a + b[..|b| - 1];
    }
  }

  /** On any stream at all, no volume is invented, and none is lost exactly when no window ever saturates. */
  lemma {:induction false} VolumeConserved(bars: seq<Bar>, source: Timeframe, target: Timeframe)
    ensures var (window, out) := Follow(bars, source, target);
      && EmittedVolume(out) + OpenVolume(window) <= TotalVolume(bars)
      && (EmittedVolume(out) + OpenVolume(window) == TotalVolume(bars) <==> !EverClips(bars, source, target))
  {
    hide AlignWindowStart;
    if bars != [] {
      var n := |bars| - 1;
      VolumeConserved(bars[..n], source, target);
      var (window, out) := Follow(bars[..n], source, target);
      var (window', completed) := Advance(window, bars[n], source, target);
      TotalVolumeConcat(out, completed);
      AdvanceVolume(window, bars[n], source, target);
    }
  }

  lemma AdvanceVolume(window: Option<AggregationWindow>, bar: Bar, source: Timeframe, target: Timeframe)
    ensures var (window', completed) := Advance(window, bar, source, target);
      && TotalVolume(completed) + OpenVolume(window') <= OpenVolume(window) + bar.volume
      && (TotalVolume(completed) + OpenVolume(window') == OpenVolume(window) + bar.volume
          <==> !Clips(window, bar, source, target))
  {
    hide WindowStartOf, Duration, TotalVolume;
    var (window', completed) := Advance(window, bar, source, target);
    VolumeOfFew(completed);
  }

  lemma VolumeOfFew(bars: seq<Bar>)
    ensures |bars| == 0 ==> TotalVolume(bars) == 0
    ensures |bars| == 1 ==> TotalVolume(bars) == bars[0].volume
    ensures |bars| == 2 ==> TotalVolume(bars) == bars[0].volume + bars[1].volume
  {
    if |bars| == 2 {
      VolumeOfFew(bars[..1]);
    }
  }

  predicate SaneWindow(window: Option<AggregationWindow>) {
    window.Some? ==> window.value.IntoBar().Sane()
  }

  /** On any stream of sane bars, every emitted bar and every open window is sane. */
  lemma {:induction false} BarsStaySane(bars: seq<Bar>, source: Timeframe, target: Timeframe)
    requires forall i :: 0 <= i < |bars| ==> bars[i].Sane()
    ensures var (window, out) := Follow(bars, source, target);
      SaneWindow(window) && forall i :: 0 <= i < |out| ==> out[i].Sane()
  {
    hide AlignWindowStart;
    if bars != [] {
      var n := |bars| - 1;
      BarsStaySane(bars[..n], source, target);
      var (window, out) := Follow(bars[..n], source, target);
      assert bars[n].Sane();
      var (window', completed) := Advance(window, bars[n], source, target);
      assert forall i :: 0 <= i < |completed| ==> completed[i].Sane();
    }
  }

  /** Conservation and sanity for one symbol and target of a whole aggregator run. */
  lemma AggregatorConserves(events: seq<MarketEvent>, source: Timeframe, targets: seq<Timeframe>,
                            symbol: string, target: Timeframe)
    requires ValidTargets(source, targets) && target in targets
    ensures var (windows, out) := IngestAll(events, source, targets);
      var bars := SourceBars(events, symbol, source);
      var emitted, open := Select(out, symbol, target), Get(windows, (symbol, target));
      && EmittedVolume(emitted) + OpenVolume(open) <= TotalVolume(bars)
      && (EmittedVolume(emitted) + OpenVolume(open) == TotalVolume(bars) <==> !EverClips(bars, source, target))
      && ((forall i :: 0 <= i < |bars| ==> bars[i].Sane()) ==>
            SaneWindow(open) && forall i :: 0 <= i < |emitted| ==> emitted[i].Sane())
  {
    hide Advance, EverClips;
    var bars := SourceBars(events, symbol, source);
    SlotFollowsItsSymbol(events, source, targets, symbol, target);
    VolumeConserved(bars, source, target);
    if forall i :: 0 <= i < |bars| ==> bars[i].Sane() {
      BarsStaySane(bars, source, target);
    }
  }

  // ----- two stages

  lemma AlignedRefinesAt(source: Timeframe, fine: Timeframe, coarse: Timeframe, b: Bar)
    requires Duration(fine) <= Duration(coarse)
    ensures Aligned(fine, coarse)(Lift(b, Aligned(source, fine), fine)) == Aligned(source, coarse)(b)
  {
    hide AlignWindowStart;
    AlignNests(b.closedAt - Duration(source), fine, coarse);
  }

  lemma AlignedGroupingsRefine(source: Timeframe, fine: Timeframe, coarse: Timeframe)
    requires Duration(fine) <= Duration(coarse)
    ensures Refines(Aligned(source, fine), fine, Aligned(fine, coarse), Aligned(source, coarse))
  {
    hide Aligned, Lift;
    forall b: Bar
      ensures Aligned(fine, coarse)(Lift(b, Aligned(source, fine), fine)) == Aligned(source, coarse)(b)
    {
      AlignedRefinesAt(source, fine, coarse, b);
    }
  }

  lemma AlignedByClosingTime(source: Timeframe, target: Timeframe)
    ensures ByClosingTime(Aligned(source, target))
  {
    hide AlignWindowStart;
  }

  /** A fine grouping never overlaps, so it can be streamed again. */
  lemma BatchDoesNotOverlap(bars: seq<Bar>, source: Timeframe, fine: Timeframe)
    requires NonOverlapping(bars, source)
    ensures NonOverlapping(Batch(bars, Aligned(source, fine), fine), fine)
  {
    hide Batch, AlignWindowStart, OnGrid, Ascends;
    var startOf := Aligned(source, fine);
    var out := Batch(bars, startOf, fine);
    NonOverlappingAscends(bars, source, fine);
    BatchInTimeOrder(bars, startOf, fine);
    forall i | 0 <= i < |out| ensures OnGrid(out[i].closedAt, fine) {
      BatchCloses(bars, startOf, fine, out[i]);
      var b :| b in bars && out[i].closedAt == startOf(b) + Duration(fine);
      AlignIsTheContainingWindow(b.closedAt - Duration(source), fine, 0);
      NextGridPoint(startOf(b), fine);
    }
    GridBarsDoNotOverlap(out, fine);
  }

  lemma NextGridPoint(g: Time, timeframe: Timeframe)
    requires OnGrid(g, timeframe)
    ensures OnGrid(g + Duration(timeframe), timeframe)
  {
    match timeframe
    case OneSecond =>
    case OneMinute =>
    case FiveMinute =>
  }

  function AsEvents(bars: seq<Bar>): (r: seq<MarketEvent>)
    ensures |r| == |bars|
  {
    if bars == [] then [] else AsEvents(bars[..|bars| - 1]) + [BarEvent(bars[|bars| - 1])]
  }

  /** Completed bars fed on as events: those of one symbol and timeframe are the selected ones. */
  lemma {:induction false} SourceBarsOfEvents(bars: seq<Bar>, symbol: string, source: Timeframe)
    ensures SourceBars(AsEvents(bars), symbol, source) == Select(bars, symbol, source)
  {
    if bars != [] {
      var n := |bars| - 1;
      SourceBarsOfEvents(bars[..n], symbol, source);
      assert AsEvents(bars)[..n] == AsEvents(bars[..n]);
    }
  }

  /**
   * Aggregating twice is aggregating once: a stream of any symbols aggregated and flushed to a fine timeframe,
   * and everything that came out aggregated and flushed to a coarse one, gives each symbol the bars of the
   * direct aggregation.
   */
  lemma TwoStageEqualsDirect(
    events: seq<MarketEvent>, source: Timeframe, fine: Timeframe, coarse: Timeframe, symbol: string,
    fineFlush: seq<Bar>, coarseFlush: seq<Bar>, directFlush: seq<Bar>)
    requires Duration(source) < Duration(fine) < Duration(coarse)
    requires NonOverlapping(SourceBars(events, symbol, source), source)
    requires IsFlush(IngestAll(events, source, [fine]).0, fineFlush)
    requires IsFlush(IngestAll(events, source, [coarse]).0, directFlush)
    requires var middle := AsEvents(IngestAll(events, source, [fine]).1 + fineFlush);
             IsFlush(IngestAll(middle, fine, [coarse]).0, coarseFlush)
    ensures var middle := AsEvents(IngestAll(events, source, [fine]).1 + fineFlush);
            Select(IngestAll(middle, fine, [coarse]).1 + coarseFlush, symbol, coarse)
            == Select(IngestAll(events, source, [coarse]).1 + directFlush, symbol, coarse)
  {
    hide Advance, AlignWindowStart, Batch, IsFlush, IngestAll, NonOverlapping, Ascends;
    var bars := SourceBars(events, symbol, source);
    var out := IngestAll(events, source, [fine]).1 + fineFlush;
    StreamingEqualsBatch(events, source, [fine], symbol, fine, fineFlush);
    StreamingEqualsBatch(events, source, [coarse], symbol, coarse, directFlush);
    SourceBarsOfEvents(out, symbol, fine);
    BatchDoesNotOverlap(bars, source, fine);
    StreamingEqualsBatch(AsEvents(out), fine, [coarse], symbol, coarse, coarseFlush);
    AlignedGroupingsRefine(source, fine, coarse);
    AlignedByClosingTime(fine, coarse);
    NonOverlappingAscends(bars, source, fine);
    NonOverlappingAscends(bars, source, coarse);
    BatchComposes(bars, Aligned(source, fine), fine, Aligned(fine, coarse), Aligned(source, coarse), coarse);
  }
}
