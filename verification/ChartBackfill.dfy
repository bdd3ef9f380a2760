// The batch user of the aggregator: building chart bars out of one-minute history.
module ChartBackfill {
  import opened Prelude
  import opened MarketTypes
  import opened Aggregation
  import opened BatchAggregation
  import opened StreamingLaws

  predicate TimeLeq(a: Bar, b: Bar) {
    a.closedAt <= b.closedAt
  }

  lemma {:induction false} InsertCommutesWithSelect(x: Bar, bars: seq<Bar>, symbol: string, timeframe: Timeframe)
    requires SortedBy(TimeLeq, bars)
    ensures Select(InsertBy(TimeLeq, x, bars), symbol, timeframe)
         == if x.symbol == symbol && x.timeframe == timeframe
            then InsertBy(TimeLeq, x, Select(bars, symbol, timeframe)) else Select(bars, symbol, timeframe)
  {
    hide Select;
    SelectFront(x, bars, symbol, timeframe);
    if bars == [] {
    } else if TimeLeq(x, bars[0]) {
      var picked := Select(bars, symbol, timeframe);
      if picked != [] {
        SelectTakes(bars, symbol, timeframe, picked[0]);
        var k :| 0 <= k < |bars| && bars[k] == picked[0];
        assert k > 0 ==> TimeLeq(bars[0], bars[k]);
      }
    } else {
      var rest := bars[1..];
      assert bars == [bars[0]] + rest;
      InsertCommutesWithSelect(x, rest, symbol, timeframe);
      SelectFront(bars[0], rest, symbol, timeframe);
      SelectFront(bars[0], InsertBy(TimeLeq, x, rest), symbol, timeframe);
      var picked := Select(rest, symbol, timeframe);
      assert ([bars[0]] + picked)[1..] == picked;
    }
  }

  lemma {:induction false} SelectTakes(bars: seq<Bar>, symbol: string, timeframe: Timeframe, b: Bar)
    ensures b in Select(bars, symbol, timeframe) ==> b in bars
  {
    if bars != [] {
      var n := |bars| - 1;
      SelectTakes(bars[..n], symbol, timeframe, b);
      assert bars == bars[..n] + [bars[n]];
    }
  }

  /** A stable sort keeps the order within one symbol, so sorting commutes with selecting. */
  lemma {:induction false} SortCommutesWithSelect(bars: seq<Bar>, symbol: string, timeframe: Timeframe)
    ensures Select(SortBy(TimeLeq, bars), symbol, timeframe) == SortBy(TimeLeq, Select(bars, symbol, timeframe))
  {
    hide Select, TotalPreorder;
    if bars == [] {
      SelectNone(symbol, timeframe);
    } else {
      var rest := bars[1..];
      assert bars == [bars[0]] + rest;
      SortCommutesWithSelect(rest, symbol, timeframe);
      TimeOrderIsTotal();
      SortBySorts(TimeLeq, rest);
      InsertCommutesWithSelect(bars[0], SortBy(TimeLeq, rest), symbol, timeframe);
      SelectFront(bars[0], rest, symbol, timeframe);
      var picked := Select(rest, symbol, timeframe);
      assert ([bars[0]] + picked)[1..] == picked;
    }
  }

  lemma TimeOrderIsTotal()
    ensures TotalPreorder(TimeLeq)
  {
  }

  /** One-minute history to chart bars: for every symbol whose minutes do not overlap, its batch grouping. */
  method AggregateOneMinuteBars(oneMinuteBars: seq<MarketEvent>, target: Timeframe)
    returns (r: Result<seq<Bar>, AggregatorError>)
    ensures r.Err? <==> Duration(target) <= Duration(OneMinute)
    ensures r.Ok? ==> SortedBy(TimeLeq, r.value)
    ensures r.Ok? ==> forall symbol :: NonOverlapping(SourceBars(oneMinuteBars, symbol, OneMinute), OneMinute) ==>
              Select(r.value, symbol, target)
              == Batch(SourceBars(oneMinuteBars, symbol, OneMinute), Aligned(OneMinute, target), target)
  {
    hide Batch, Select, SortBy, IsFlush;
    var created := MultiTimeframeAggregator.New(OneMinute, [target]);
    if created.Err? {
      return Err(created.error);
    }
    var aggregator := created.value;
    assert aggregator.targetTimeframes == [target];
    var aggregated := [];
    for i := 0 to |oneMinuteBars|
      invariant aggregator.Valid() && fresh(aggregator)
      invariant (aggregator.windows, aggregated) == IngestAll(oneMinuteBars[..i], OneMinute, [target])
    {
      assert oneMinuteBars[..i + 1][..i] == oneMinuteBars[..i];
      var completed := aggregator.Ingest(oneMinuteBars[i]);
      aggregated := aggregated + completed;
    }
    assert oneMinuteBars[..|oneMinuteBars|] == oneMinuteBars;
    var flushed := aggregator.Flush();
    ghost var emitted := aggregated;
    aggregated := aggregated + flushed;
    TimeOrderIsTotal();
    SortBySorts(TimeLeq, aggregated);
    forall symbol | NonOverlapping(SourceBars(oneMinuteBars, symbol, OneMinute), OneMinute)
      ensures Select(SortBy(TimeLeq, aggregated), symbol, target)
           == Batch(SourceBars(oneMinuteBars, symbol, OneMinute), Aligned(OneMinute, target), target)
    {
      var bars := SourceBars(oneMinuteBars, symbol, OneMinute);
      StreamingEqualsBatch(oneMinuteBars, OneMinute, [target], symbol, target, flushed);
      SortCommutesWithSelect(aggregated, symbol, target);
      NonOverlappingAscends(bars, OneMinute, target);
      BatchInTimeOrder(bars, Aligned(OneMinute, target), target);
      SortByIdentity(TimeLeq, Batch(bars, Aligned(OneMinute, target), target));
    }
    aggregated := SortBy(TimeLeq, aggregated);
    return Ok(aggregated);
  }
}
