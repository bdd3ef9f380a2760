// The reference meaning of aggregation: group the source bars of one symbol by aligned window and
// summarise each group. Nothing here mentions open windows or the order of ingestion.
module BatchAggregation {
  import opened Prelude
  import opened MarketTypes
  import opened Aggregation

  /** Assigns to each bar the start of its window. */
  type Grouping = Bar -> Time

  /** The aligned window of a source bar. */
  function Aligned(source: Timeframe, target: Timeframe): Grouping {
    bar => WindowStartOf(bar, source, target)
  }

  // ----- summarising one group

  function MaxHigh(bars: seq<Bar>): Decimal
    requires bars != []
  {
    var n := |bars| - 1;
    if n == 0 then bars[0].high else Max(MaxHigh(bars[..n]), bars[n].high)
  }

  function MinLow(bars: seq<Bar>): Decimal
    requires bars != []
  {
    var n := |bars| - 1;
    if n == 0 then bars[0].low else Min(MinLow(bars[..n]), bars[n].low)
  }

  /** The group's extremes bound every member and are reached. */
  lemma {:induction false} ExtremesAreReached(bars: seq<Bar>)
    requires bars != []
    ensures forall b :: b in bars ==> MinLow(bars) <= b.low && b.high <= MaxHigh(bars)
    ensures exists b :: b in bars && b.high == MaxHigh(bars)
    ensures exists b :: b in bars && b.low == MinLow(bars)
  {
    var n := |bars| - 1;
    assert bars == bars[..n] + [bars[n]];
    if n == 0 {
      assert bars[0] in bars;
    } else {
      ExtremesAreReached(bars[..n]);
      var h :| h in bars[..n] && h.high == MaxHigh(bars[..n]);
      var l :| l in bars[..n] && l.low == MinLow(bars[..n]);
      assert h in bars && l in bars && bars[n] in bars;
    }
  }

  function TotalVolume(bars: seq<Bar>): nat {
    if bars == [] then 0 else TotalVolume(bars[..|bars| - 1]) + bars[|bars| - 1].volume
  }

  /** First open, highest high, lowest low, last close, volume capped at the u64 maximum, closing at the window end. */
  function Summarise(group: seq<Bar>, start: Time, target: Timeframe): Bar
    requires group != []
  {
    Bar(group[0].symbol, target, group[0].open, MaxHigh(group), MinLow(group),
        group[|group| - 1].close, Min(U64_MAX, TotalVolume(group)), start + Duration(target))
  }

  // ----- grouping

  function InWindow(bars: seq<Bar>, start: Time, startOf: Grouping): (r: seq<Bar>)
    ensures |r| <= |bars|
  {
    if bars == [] then []
    else
      var rest := InWindow(bars[..|bars| - 1], start, startOf);
      var last := bars[|bars| - 1];
      if startOf(last) == start then rest + [last] else rest
  }

  function OutsideWindow(bars: seq<Bar>, start: Time, startOf: Grouping): (r: seq<Bar>)
    ensures |InWindow(bars, start, startOf)| + |r| == |bars|
  {
    if bars == [] then []
    else
      var rest := OutsideWindow(bars[..|bars| - 1], start, startOf);
      var last := bars[|bars| - 1];
      if startOf(last) == start then rest else rest + [last]
  }

  lemma {:induction false} FirstIsInItsWindow(bars: seq<Bar>, startOf: Grouping)
    requires bars != []
    ensures var group := InWindow(bars, startOf(bars[0]), startOf); group != [] && group[0] == bars[0]
  {
    var n := |bars| - 1;
    if n > 0 {
      FirstIsInItsWindow(bars[..n], startOf);
    }
  }

  lemma {:induction false} GroupMembers(bars: seq<Bar>, start: Time, startOf: Grouping, b: Bar)
    ensures b in InWindow(bars, start, startOf) <==> b in bars && startOf(b) == start
    ensures b in OutsideWindow(bars, start, startOf) <==> b in bars && startOf(b) != start
  {
    if bars != [] {
      var n := |bars| - 1;
      GroupMembers(bars[..n], start, startOf, b);
      assert bars == bars[..n] + [bars[n]];
    }
  }

  /** One summary per window, in the order the windows first appear. */
  function Batch(bars: seq<Bar>, startOf: Grouping, target: Timeframe): seq<Bar>
    decreases |bars|
  {
    if bars == [] then []
    else
      FirstIsInItsWindow(bars, startOf);
      var start := startOf(bars[0]);
      [Summarise(InWindow(bars, start, startOf), start, target)]
      + Batch(OutsideWindow(bars, start, startOf), startOf, target)
  }

  // ----- how the reference grows by one bar

  ghost predicate Ascends(bars: seq<Bar>, startOf: Grouping) {
    forall i, j :: 0 <= i < j < |bars| ==> startOf(bars[i]) <= startOf(bars[j])
  }

  /** Lifts one source bar to a target bar. */
  function Lift(bar: Bar, startOf: Grouping, target: Timeframe): Bar {
    bar.(timeframe := target, closedAt := startOf(bar) + Duration(target))
  }

  /** Absorbs a later bar into a bar; an associative operation. */
  function Absorb(bar: Bar, later: Bar): Bar {
    bar.(high := Max(bar.high, later.high), low := Min(bar.low, later.low), close := later.close,
         volume := SaturatingAdd(bar.volume, later.volume))
  }

  lemma AbsorbAssociative(a: Bar, b: Bar, c: Bar)
    ensures Absorb(Absorb(a, b), c) == Absorb(a, Absorb(b, c))
  {
  }

  lemma SummariseOne(bar: Bar, start: Time, target: Timeframe)
    ensures Summarise([bar], start, target) == bar.(timeframe := target, closedAt := start + Duration(target))
  {
    assert [bar][..0] == [];
    assert TotalVolume([bar]) == TotalVolume([bar][..0]) + bar.volume;
    assert MaxHigh([bar]) == bar.high && MinLow([bar]) == bar.low;
  }

  lemma SummariseSnoc(group: seq<Bar>, bar: Bar, start: Time, target: Timeframe)
    requires group != []
    ensures Summarise(group + [bar], start, target) == Absorb(Summarise(group, start, target), bar)
  {
    assert (group + [bar])[..|group|] == group;
  }

  lemma AscendPush(bars: seq<Bar>, next: Bar, startOf: Grouping)
    requires Ascends(bars, startOf)
    requires bars != [] ==> startOf(bars[|bars| - 1]) <= startOf(next)
    ensures Ascends(bars + [next], startOf)
  {
  }

  lemma {:induction false} OutsideAscends(bars: seq<Bar>, start: Time, startOf: Grouping)
    requires Ascends(bars, startOf)
    ensures Ascends(OutsideWindow(bars, start, startOf), startOf)
  {
    if bars != [] {
      var n := |bars| - 1;
      OutsideAscends(bars[..n], start, startOf);
      var rest := OutsideWindow(bars[..n], start, startOf);
      if rest != [] {
        var last := rest[|rest| - 1];
        GroupMembers(bars[..n], start, startOf, last);
        var k :| 0 <= k < n && bars[k] == last;
        AscendPush(rest, bars[n], startOf);
      }
    }
  }

  /** When the last bar is still in the first window, so are all the others. */
  lemma {:induction false} AllInFirstWindow(bars: seq<Bar>, startOf: Grouping)
    requires Ascends(bars, startOf) && bars != []
    requires startOf(bars[0]) == startOf(bars[|bars| - 1])
    ensures OutsideWindow(bars, startOf(bars[0]), startOf) == []
  {
    var n := |bars| - 1;
    if n > 0 {
      assert startOf(bars[0]) <= startOf(bars[n - 1]) <= startOf(bars[n]);
      AllInFirstWindow(bars[..n], startOf);
    }
  }

  ghost predicate ContinuesLastWindow(bars: seq<Bar>, bar: Bar, startOf: Grouping) {
    bars != [] && startOf(bars[|bars| - 1]) == startOf(bar)
  }

  /** A summary list after one more bar: absorbed by the last summary, or a new one. */
  function Grow(out: seq<Bar>, bar: Bar, continues: bool, startOf: Grouping, target: Timeframe): seq<Bar> {
    if continues && out != [] then
      out[..|out| - 1] + [Absorb(out[|out| - 1], bar)]
    else
      out + [Lift(bar, startOf, target)]
  }

  lemma BatchOfOne(bar: Bar, startOf: Grouping, target: Timeframe)
    ensures Batch([bar], startOf, target) == [Lift(bar, startOf, target)]
  {
    assert [bar][..0] == [];
    assert InWindow([bar], startOf(bar), startOf) == [bar];
    assert OutsideWindow([bar], startOf(bar), startOf) == [];
    SummariseOne(bar, startOf(bar), target);
  }

  lemma AscendPrefix(bars: seq<Bar>, bar: Bar, startOf: Grouping)
    requires Ascends(bars + [bar], startOf)
    ensures Ascends(bars, startOf)
    ensures forall i :: 0 <= i < |bars| ==> startOf(bars[i]) <= startOf(bar)
  {
    var all := bars + [bar];
    forall i, j | 0 <= i < j < |all| ensures startOf(all[i]) <= startOf(all[j]) { }
    forall i | 0 <= i < |bars| ensures startOf(bars[i]) <= startOf(bar) {
      assert all[i] == bars[i] && all[|bars|] == bar;
    }
    forall i, j | 0 <= i < j < |bars| ensures startOf(bars[i]) <= startOf(bars[j]) {
      assert all[i] == bars[i] && all[j] == bars[j];
    }
  }

  lemma GrowPastFirst(first: Bar, tail: seq<Bar>, bar: Bar, continues: bool, startOf: Grouping, target: Timeframe)
    requires tail != []
    ensures Grow([first] + tail, bar, continues, startOf, target)
         == [first] + Grow(tail, bar, continues, startOf, target)
  {
    assert ([first] + tail)[..|tail|] == [first] + tail[..|tail| - 1];
  }

  lemma BatchSnocFirstWindow(bars: seq<Bar>, bar: Bar, startOf: Grouping, target: Timeframe)
    requires bars != []
    requires OutsideWindow(bars, startOf(bars[0]), startOf) == []
    requires startOf(bars[|bars| - 1]) == startOf(bars[0])
    ensures Batch(bars + [bar], startOf, target)
         == Grow(Batch(bars, startOf, target), bar, ContinuesLastWindow(bars, bar, startOf), startOf, target)
  {
    var all, w := bars + [bar], startOf(bars[0]);
    var inside := InWindow(bars, w, startOf);
    assert all[..|bars|] == bars && all[0] == bars[0];
    FirstIsInItsWindow(bars, startOf);
    assert Batch(bars, startOf, target) == [Summarise(inside, w, target)];
    if startOf(bar) == w {
      SummariseSnoc(inside, bar, w, target);
      assert InWindow(all, w, startOf) == inside + [bar];
      assert OutsideWindow(all, w, startOf) == [];
      assert Batch(all, startOf, target) == [Summarise(inside + [bar], w, target)];
    } else {
      BatchOfOne(bar, startOf, target);
      assert InWindow(all, w, startOf) == inside;
      assert OutsideWindow(all, w, startOf) == [] + [bar] == [bar];
      assert Batch(all, startOf, target) == [Summarise(inside, w, target)] + Batch([bar], startOf, target);
    }
  }

  /** A new last bar either opens a new summary or is absorbed by the last one. */
  lemma {:induction false} BatchSnoc(bars: seq<Bar>, bar: Bar, startOf: Grouping, target: Timeframe)
    requires Ascends(bars + [bar], startOf)
    ensures bars != [] ==> Batch(bars, startOf, target) != []
    ensures Batch(bars + [bar], startOf, target)
         == Grow(Batch(bars, startOf, target), bar, ContinuesLastWindow(bars, bar, startOf), startOf, target)
    decreases |bars|
  {
    if bars == [] {
      BatchOfOne(bar, startOf, target);
      assert [] + [bar] == [bar];
    } else {
      var n := |bars| - 1;
      var all := bars + [bar];
      var w := startOf(bars[0]);
      AscendPrefix(bars, bar, startOf);
      if startOf(bars[n]) == w {
        AllInFirstWindow(bars, startOf);
        BatchSnocFirstWindow(bars, bar, startOf, target);
      } else {
        var inside, outside := InWindow(bars, w, startOf), OutsideWindow(bars, w, startOf);
        assert outside[|outside| - 1] == bars[n];
        assert all[..n + 1] == bars && all[0] == bars[0];
        assert startOf(bars[0]) <= startOf(bars[n]) <= startOf(bar);
        assert OutsideWindow(all, w, startOf) == outside + [bar];
        assert InWindow(all, w, startOf) == inside;
        OutsideAscends(all, w, startOf);
        FirstIsInItsWindow(bars, startOf);
        BatchSnoc(outside, bar, startOf, target);
        GrowPastFirst(Summarise(inside, w, target), Batch(outside, startOf, target), bar,
                      ContinuesLastWindow(bars, bar, startOf), startOf, target);
      }
    }
  }

  // ----- what the reference says, window by window

  /** The closing time of every summary is the end of some bar's window. */
  lemma {:induction false} BatchCloses(bars: seq<Bar>, startOf: Grouping, target: Timeframe, out: Bar)
    requires out in Batch(bars, startOf, target)
    ensures exists b :: b in bars && out.closedAt == startOf(b) + Duration(target)
    decreases |bars|
  {
    var w := startOf(bars[0]);
    var rest := OutsideWindow(bars, w, startOf);
    FirstIsInItsWindow(bars, startOf);
    var head := Summarise(InWindow(bars, w, startOf), w, target);
    assert Batch(bars, startOf, target) == [head] + Batch(rest, startOf, target);
    if out == head {
      assert bars[0] in bars;
    } else {
      BatchCloses(rest, startOf, target, out);
      var b :| b in rest && out.closedAt == startOf(b) + Duration(target);
      GroupMembers(bars, w, startOf, b);
    }
  }

  /** Every later summary closes after the first one. */
  lemma FirstClosesFirst(bars: seq<Bar>, startOf: Grouping, target: Timeframe, out: Bar)
    requires Ascends(bars, startOf) && bars != []
    requires out in Batch(OutsideWindow(bars, startOf(bars[0]), startOf), startOf, target)
    ensures startOf(bars[0]) + Duration(target) < out.closedAt
  {
    hide Batch;
    var rest := OutsideWindow(bars, startOf(bars[0]), startOf);
    BatchCloses(rest, startOf, target, out);
    var b :| b in rest && out.closedAt == startOf(b) + Duration(target);
    GroupMembers(bars, startOf(bars[0]), startOf, b);
    var k :| 0 <= k < |bars| && bars[k] == b;
    assert startOf(bars[0]) <= startOf(bars[k]);
  }

  /** Summaries close in strictly increasing time order. */
  lemma {:induction false} BatchInTimeOrder(bars: seq<Bar>, startOf: Grouping, target: Timeframe)
    requires Ascends(bars, startOf)
    ensures ClosesInOrder(Batch(bars, startOf, target))
    decreases |bars|
  {
    hide Ascends, InWindow, OutsideWindow;
    if bars != [] {
      var w := startOf(bars[0]);
      var rest := OutsideWindow(bars, w, startOf);
      FirstIsInItsWindow(bars, startOf);
      OutsideAscends(bars, w, startOf);
      BatchInTimeOrder(rest, startOf, target);
      var head := Summarise(InWindow(bars, w, startOf), w, target);
      var tail := Batch(rest, startOf, target);
      forall i | 0 <= i < |tail| ensures head.closedAt < tail[i].closedAt {
        FirstClosesFirst(bars, startOf, target, tail[i]);
      }
      assert Batch(bars, startOf, target) == [head] + tail;
    }
  }

  ghost predicate ClosesInOrder(bars: seq<Bar>) {
    forall i, j :: 0 <= i < j < |bars| ==> bars[i].closedAt < bars[j].closedAt
  }

  lemma {:induction false} InOutside(bars: seq<Bar>, start: Time, other: Time, startOf: Grouping)
    ensures InWindow(OutsideWindow(bars, other, startOf), start, startOf)
         == if start == other then [] else InWindow(bars, start, startOf)
  {
    if bars != [] {
      var n := |bars| - 1;
      InOutside(bars[..n], start, other, startOf);
      var rest := OutsideWindow(bars[..n], other, startOf);
      assert (rest + [bars[n]])[..|rest|] == rest;
    }
  }

  /**
   * Exactly one bar per non-empty window: a bar closing at a window's end is present if and only if
   * the window holds a source bar, and then it is the summary of exactly that window's bars.
   */
  lemma {:induction false} BatchIsOneBarPerWindow(
    bars: seq<Bar>, startOf: Grouping, target: Timeframe, start: Time, out: Bar)
    requires out.closedAt == start + Duration(target)
    ensures out in Batch(bars, startOf, target)
       <==> InWindow(bars, start, startOf) != [] && out == Summarise(InWindow(bars, start, startOf), start, target)
    decreases |bars|
  {
    if bars != [] {
      var w := startOf(bars[0]);
      var rest := OutsideWindow(bars, w, startOf);
      FirstIsInItsWindow(bars, startOf);
      var head := Summarise(InWindow(bars, w, startOf), w, target);
      assert Batch(bars, startOf, target) == [head] + Batch(rest, startOf, target);
      BatchIsOneBarPerWindow(rest, startOf, target, start, out);
      InOutside(bars, start, w, startOf);
    }
  }

  // ----- two-stage aggregation

  /** Windows of summaries depend on nothing but their closing time. */
  ghost predicate ByClosingTime(startOf: Grouping) {
    forall b: Bar, c: Bar {:trigger startOf(b), startOf(c)} :: b.closedAt == c.closedAt ==> startOf(b) == startOf(c)
  }

  lemma SameClosingTime(startOf: Grouping, b: Bar, c: Bar)
    requires ByClosingTime(startOf) && b.closedAt == c.closedAt
    ensures startOf(b) == startOf(c)
  {
  }

  /**
   * Two groupings compose when the coarse window of a fine summary is the coarse window of the bars
   * inside it.
   */
  ghost predicate Refines(fineOf: Grouping, fine: Timeframe, middleOf: Grouping, coarseOf: Grouping) {
    forall b: Bar {:trigger coarseOf(b)} :: middleOf(Lift(b, fineOf, fine)) == coarseOf(b)
  }

  lemma RefinesAt(
    fineOf: Grouping, fine: Timeframe, middleOf: Grouping, coarseOf: Grouping, coarse: Timeframe, b: Bar)
    requires Refines(fineOf, fine, middleOf, coarseOf)
    ensures middleOf(Lift(b, fineOf, fine)) == coarseOf(b)
    ensures Lift(Lift(b, fineOf, fine), middleOf, coarse) == Lift(b, coarseOf, coarse)
  {
    var start := coarseOf(b);
  }

  lemma AscendNone(startOf: Grouping)
    ensures Ascends([], startOf)
  {
  }

  lemma AscendOne(bar: Bar, startOf: Grouping)
    ensures Ascends([bar], startOf)
  {
  }

  lemma BatchOfNone(startOf: Grouping, target: Timeframe)
    ensures Batch([], startOf, target) == []
  {
  }

  ghost predicate LastCloses(middle: seq<Bar>, bar: Bar, fineOf: Grouping, fine: Timeframe) {
    middle != [] && middle[|middle| - 1].closedAt == Lift(bar, fineOf, fine).closedAt
  }

  /** Grouping finely and then coarsely is grouping coarsely. */
  lemma {:induction false} BatchComposes(
    bars: seq<Bar>, fineOf: Grouping, fine: Timeframe, middleOf: Grouping, coarseOf: Grouping, coarse: Timeframe)
    requires Refines(fineOf, fine, middleOf, coarseOf) && ByClosingTime(middleOf)
    requires Ascends(bars, fineOf) && Ascends(bars, coarseOf)
    ensures Batch(Batch(bars, fineOf, fine), middleOf, coarse) == Batch(bars, coarseOf, coarse)
    ensures Ascends(Batch(bars, fineOf, fine), middleOf)
    ensures bars != [] ==> LastCloses(Batch(bars, fineOf, fine), bars[|bars| - 1], fineOf, fine)
    decreases |bars|
  {
    hide Ascends, Refines, ByClosingTime, Batch, Lift, Absorb;
    if bars == [] {
      BatchOfNone(fineOf, fine);
      BatchOfNone(middleOf, coarse);
      BatchOfNone(coarseOf, coarse);
      AscendNone(middleOf);
    } else if |bars| == 1 {
      assert bars == [bars[0]];
      BatchOfOne(bars[0], fineOf, fine);
      BatchOfOne(bars[0], coarseOf, coarse);
      BatchOfOne(Lift(bars[0], fineOf, fine), middleOf, coarse);
      RefinesAt(fineOf, fine, middleOf, coarseOf, coarse, bars[0]);
      AscendOne(Lift(bars[0], fineOf, fine), middleOf);
    } else {
      var n := |bars| - 1;
      var before, bar := bars[..n], bars[n];
      assert bars == before + [bar];
      AscendPrefix(before, bar, fineOf);
      AscendPrefix(before, bar, coarseOf);
      BatchComposes(before, fineOf, fine, middleOf, coarseOf, coarse);
      BatchSnoc(before, bar, fineOf, fine);
      BatchSnoc(before, bar, coarseOf, coarse);
      var previous := before[n - 1];
      RefinesAt(fineOf, fine, middleOf, coarseOf, coarse, bar);
      RefinesAt(fineOf, fine, middleOf, coarseOf, coarse, previous);
      GrowComposes(Batch(before, fineOf, fine), previous, bar, fineOf, fine, middleOf, coarse);
    }
  }

  /** One step of the composition: growing the fine list by a bar grows its coarse grouping by the same bar. */
  lemma GrowComposes(middle: seq<Bar>, previous: Bar, bar: Bar,
                     fineOf: Grouping, fine: Timeframe, middleOf: Grouping, coarse: Timeframe)
    requires ByClosingTime(middleOf) && Ascends(middle, middleOf)
    requires LastCloses(middle, previous, fineOf, fine)
    requires middleOf(Lift(previous, fineOf, fine)) <= middleOf(Lift(bar, fineOf, fine))
    ensures var continues := fineOf(previous) == fineOf(bar);
            var coarseContinues := middleOf(Lift(previous, fineOf, fine)) == middleOf(Lift(bar, fineOf, fine));
            var grown := Grow(middle, bar, continues, fineOf, fine);
            var before := Batch(middle, middleOf, coarse);
      && Ascends(grown, middleOf) && LastCloses(grown, bar, fineOf, fine) && before != []
      && Batch(grown, middleOf, coarse)
           == if coarseContinues then before[..|before| - 1] + [Absorb(before[|before| - 1], bar)]
              else before + [Lift(Lift(bar, fineOf, fine), middleOf, coarse)]
  {
    var lifted := Lift(bar, fineOf, fine);
    var last := middle[|middle| - 1];
    SameClosingTime(middleOf, last, Lift(previous, fineOf, fine));
    if fineOf(previous) == fineOf(bar) {
      SameClosingTime(middleOf, Lift(previous, fineOf, fine), lifted);
      SameClosingTime(middleOf, last, Absorb(last, bar));
      AbsorbCommutesWithBatch(middle, bar, middleOf, coarse);
    } else {
      AscendPush(middle, lifted, middleOf);
      BatchSnoc(middle, lifted, middleOf, coarse);
      var before := Batch(middle, middleOf, coarse);
      assert Absorb(before[|before| - 1], lifted) == Absorb(before[|before| - 1], bar);
    }
  }

  /** Absorbing a bar into the last fine bar shows up as absorbing it into the last coarse bar. */
  lemma AbsorbCommutesWithBatch(middle: seq<Bar>, bar: Bar, middleOf: Grouping, coarse: Timeframe)
    requires middle != [] && Ascends(middle, middleOf)
    requires middleOf(Absorb(middle[|middle| - 1], bar)) == middleOf(middle[|middle| - 1])
    ensures var m := |middle| - 1;
            var grown := middle[..m] + [Absorb(middle[m], bar)];
            var before := Batch(middle, middleOf, coarse);
            Ascends(grown, middleOf) && before != []
            && Batch(grown, middleOf, coarse) == before[..|before| - 1] + [Absorb(before[|before| - 1], bar)]
  {
    hide Ascends, Batch, Absorb, Lift;
    var m := |middle| - 1;
    var before := Batch(middle, middleOf, coarse);
    var prefix, last := middle[..m], middle[m];
    var grown := Absorb(last, bar);
    assert middle == prefix + [last];
    AscendPrefix(prefix, last, middleOf);
    AscendPush(prefix, grown, middleOf);
    BatchSnoc(prefix, last, middleOf, coarse);
    BatchSnoc(prefix, grown, middleOf, coarse);
    var coarser := Batch(prefix, middleOf, coarse);
    if ContinuesLastWindow(prefix, last, middleOf) {
      AbsorbAssociative(coarser[|coarser| - 1], last, bar);
    } else {
      LiftAbsorbs(last, bar, middleOf, coarse);
      assert before == coarser + [Lift(last, middleOf, coarse)];
    }
  }

  lemma LiftAbsorbs(last: Bar, bar: Bar, middleOf: Grouping, coarse: Timeframe)
    requires middleOf(Absorb(last, bar)) == middleOf(last)
    ensures Lift(Absorb(last, bar), middleOf, coarse) == Absorb(Lift(last, middleOf, coarse), bar)
  {
  }
}
