// The trades of a run are its holdings: which symbol was held on which side from when to when, read off the listings.
module HoldingLaws {
  import opened Prelude
  import opened MarketTypes
  import opened BrokerTypes
  import opened TradingHistory
  import opened LedgerLaws
  import opened SyncSpec
  import opened SyncLaws
  import opened MirrorLaws
  import opened CostLaws

  // ----- holdings

  /** A symbol held on one side from a capture time to the time of the sync that no longer shows it so. */
  datatype Holding = Holding(openedAt: Time, closedAt: Time, closedBy: nat)

  datatype Opening = Opening(id: string, side: Option<Side>, openedAt: Time)

  /** The holdings of one symbol that are over, by the id of their trade, and the current one. */
  datatype Holdings = Holdings(closed: map<string, Holding>, current: Option<Opening>)

  /** What operation `k`, a sync at `now` that shows the symbol held or not, does to its holdings. */
  function Hold(h: Holdings, held: Option<BrokerPosition>, now: Time, k: nat): Holdings {
    var side := match held case Some(p) => SideOf(p.quantity) case None => None;
    if h.current.Some? && side.Some? && side == h.current.value.side then h
    else
      Holdings(match h.current
               case Some(o) => h.closed[o.id := Holding(o.openedAt, now, k)]
               case None => h.closed,
               match held
               case Some(p) => Some(Opening(TradeIdFor(p.symbol, now), side, p.capturedAt))
               case None => None)
  }

  predicate IsHeld(p: BrokerPosition, symbol: string) {
    p.quantity != 0 && SameSymbol(p.symbol, symbol)
  }

  /** The position a listing shows for a symbol, if it is not flat. */
  function HeldIn(positions: seq<BrokerPosition>, symbol: string): (r: Option<BrokerPosition>)
    ensures r.Some? ==> r.value in positions && IsHeld(r.value, symbol)
    ensures r.None? ==> forall i :: 0 <= i < |positions| ==> !IsHeld(positions[i], symbol)
  {
    if positions == [] then None
    else
      var n := |positions| - 1;
      if IsHeld(positions[n], symbol) then Some(positions[n]) else HeldIn(positions[..n], symbol)
  }

  /** The holdings of a symbol over a run, from its listings alone. */
  function HoldingsOf(ops: seq<RecorderOp>, symbol: string): Holdings {
    if ops == [] then Holdings(map[], None)
    else
      var n := |ops| - 1;
      var before := HoldingsOf(ops[..n], symbol);
      match ops[n]
      case SyncOp(snap, now) => Hold(before, HeldIn(snap.positions, symbol), now, n)
      case _ => before
  }

  // ----- the trades are the holdings

  predicate IsOpen(trades: Ledger, id: string) {
    id in trades && trades[id].status == TradeOpen
  }

  predicate IsClosed(trades: Ledger, id: string, symbol: string) {
    id in trades && trades[id].status == TradeClosed && SameSymbol(trades[id].symbol, symbol)
  }

  /** The closed trades of a symbol are its holdings that are over, and its open trade is the current one. */
  ghost predicate Tracks(trades: Ledger, symbol: string, h: Holdings) {
    && (forall id :: id in h.closed <==> IsClosed(trades, id, symbol))
    && (forall id :: id in h.closed ==>
          trades[id].openedAt == h.closed[id].openedAt && trades[id].closedAt == Some(h.closed[id].closedAt))
    && OpenIds(trades, symbol) == (match h.current case Some(o) => {o.id} case None => {})
    && (match h.current
        case Some(o) => o.id in trades && Some(trades[o.id].side) == o.side && trades[o.id].openedAt == o.openedAt
        case None => true)
  }

  lemma TracksDependsOnItsSymbol(trades: Ledger, other: Ledger, symbol: string, h: Holdings)
    requires TradesOf(trades, symbol) == TradesOf(other, symbol) && Tracks(trades, symbol, h)
    ensures Tracks(other, symbol, h)
  {
    hide FoldCase, OpenIds, TradesOf, SameSymbol;
    OpenIdsOfSymbol(trades, other, symbol);
    forall id ensures IsClosed(trades, id, symbol) <==> IsClosed(other, id, symbol) {
      OfSymbol(trades, other, symbol, id);
      OfSymbol(other, trades, symbol, id);
    }
    forall id | id in h.closed ensures trades[id] == other[id] {
      OfSymbol(trades, other, symbol, id);
    }
    if h.current.Some? {
      OpenIdFacts(other, symbol, h.current.value.id);
    }
  }

  lemma OfSymbol(trades: Ledger, other: Ledger, symbol: string, id: string)
    requires TradesOf(trades, symbol) == TradesOf(other, symbol)
    ensures id in trades && SameSymbol(trades[id].symbol, symbol) ==> id in other && other[id] == trades[id]
  {
    hide SameSymbol;
    if id in trades && SameSymbol(trades[id].symbol, symbol) {
      assert id in TradesOf(trades, symbol) && id in TradesOf(other, symbol);
      assert TradesOf(trades, symbol)[id] == TradesOf(other, symbol)[id];
    }
  }

  function AsHeld(p: BrokerPosition): Option<BrokerPosition> {
    if p.quantity == 0 then None else Some(p)
  }

  lemma OpensTrack(trades: Ledger, p: BrokerPosition, side: Side, context: RunContext, symbol: string, h: Holdings,
                   now: Time, k: nat)
    requires Tracks(trades, symbol, h) && h.current.None? && SideOf(p.quantity) == Some(side)
    requires SameSymbol(p.symbol, symbol) && TradeIdFor(p.symbol, now) !in trades
    ensures Tracks(trades[TradeIdFor(p.symbol, now) := OpenedTrade(p, side, context, now)], symbol,
                   Hold(h, Some(p), now, k))
  {
    hide FoldCase, TradeIdFor;
  }

  lemma ResizesTrack(trades: Ledger, p: BrokerPosition, symbol: string, h: Holdings)
    requires Tracks(trades, symbol, h) && h.current.Some?
    ensures Tracks(trades[h.current.value.id := ResizedTrade(trades[h.current.value.id], p)], symbol, h)
  {
    hide FoldCase;
    OpenIdFacts(trades, symbol, h.current.value.id);
  }

  lemma ClosesTrack(trades: Ledger, fills: Fills, p: BrokerPosition, symbol: string, h: Holdings, now: Time, k: nat)
    requires Tracks(trades, symbol, h) && h.current.Some?
    ensures Tracks(trades[h.current.value.id := ClosedTrade(trades[h.current.value.id], fills, p, now)], symbol,
                   Hold(h, None, now, k))
  {
    hide FoldCase, ExitPrice, SumOn, ChargedFills;
    var id := h.current.value.id;
    OpenIdFacts(trades, symbol, id);
    var after := trades[id := ClosedTrade(trades[id], fills, p, now)];
    assert forall other :: other in OpenIds(after, symbol) ==> other in OpenIds(trades, symbol);
    assert OpenIds(after, symbol) == {};
  }

  lemma FindsCurrent(trades: Ledger, p: BrokerPosition, symbol: string, h: Holdings)
    requires Tracks(trades, symbol, h) && SameSymbol(p.symbol, symbol)
    ensures FindOpen(trades, p.symbol) == match h.current case Some(o) => Some(o.id) case None => None
  {
    hide FoldCase;
    assert OpenIds(trades, p.symbol) == OpenIds(trades, symbol);
  }

  /** One position of the symbol takes the trades where it takes the holdings. */
  lemma {:induction false} SyncTradeTracks(
    trades: Ledger, fills: Fills, p: BrokerPosition, context: RunContext, symbol: string, h: Holdings, now: Time,
    k: nat)
    requires Tracks(trades, symbol, h) && SameSymbol(p.symbol, symbol)
    requires p.quantity != 0 ==> TradeIdFor(p.symbol, now) !in trades
    ensures Tracks(SyncTrade(trades, fills, p, context, now).0, symbol, Hold(h, AsHeld(p), now, k))
    decreases |StaleIds(trades, p)|
  {
    hide TradeIdFor, SameSymbol, Tracks, ClosedTrade, ResizedTrade, OpenedTrade, StaleIds, FindOpen;
    FindsCurrent(trades, p, symbol, h);
    match h.current
    case None =>
      if SideOf(p.quantity).Some? {
        OpenedKey(p, SideOf(p.quantity).value, context, now);
        OpensTrack(trades, p, SideOf(p.quantity).value, context, symbol, h, now, k);
      }
    case Some(o) =>
      FoundFacts(trades, fills, p, o.id, now);
      CurrentSide(trades, symbol, h);
      ResizesTrack(trades, p, symbol, h);
      ClosesTrack(trades, fills, p, symbol, h, now, k);
      if SideOf(p.quantity).Some? && SideOf(p.quantity) != Some(trades[o.id].side) {
        CloseShrinksStale(trades, fills, p, o.id, now);
        var closed := trades[o.id := ClosedTrade(trades[o.id], fills, p, now)];
        SyncTradeTracks(closed, fills, p, context, symbol, Hold(h, None, now, k), now, k);
      }
  }

  lemma OpenedKey(p: BrokerPosition, side: Side, context: RunContext, now: Time)
    ensures OpenedTrade(p, side, context, now).tradeId == TradeIdFor(p.symbol, now)
  {
  }

  lemma CurrentSide(trades: Ledger, symbol: string, h: Holdings)
    requires Tracks(trades, symbol, h) && h.current.Some?
    ensures h.current.value.id in trades && Some(trades[h.current.value.id].side) == h.current.value.side
  {
  }

  /** The positions of a list that name the symbol, one after the other. */
  function HoldAll(h: Holdings, positions: seq<BrokerPosition>, symbol: string, now: Time, k: nat): Holdings {
    if positions == [] then h
    else
      var n := |positions| - 1;
      var before := HoldAll(h, positions[..n], symbol, now, k);
      if SameSymbol(positions[n].symbol, symbol) then Hold(before, AsHeld(positions[n]), now, k) else before
  }

  /** Each held position comes before anything else of its symbol. */
  ghost predicate HeldFirst(positions: seq<BrokerPosition>) {
    forall i, j :: 0 <= i < j < |positions| && positions[j].quantity != 0 ==>
      !SameSymbol(positions[i].symbol, positions[j].symbol)
  }

  lemma StillFresh(base: Ledger, trades: Ledger, symbol: string, now: Time)
    requires Grown(base, trades, now) && TradesOf(base, symbol) == TradesOf(trades, symbol) && now >= 0
    requires TradeIdFor(symbol, now) !in base
    ensures TradeIdFor(symbol, now) !in trades
  {
    hide TradeIdFor, FoldCase;
    var id := TradeIdFor(symbol, now);
    assert forall k :: k in TradesOf(trades, symbol) ==> k in base;
    if id in trades {
      TradeIdNamesItsSymbol(symbol, now, trades[id].symbol, now);
      assert false;
    }
  }

  lemma {:induction false} SyncTradesTrack(
    trades: Ledger, fills: Fills, positions: seq<BrokerPosition>, context: RunContext, symbol: string, h: Holdings,
    latest: Time, now: Time, k: nat)
    requires Tracks(trades, symbol, h) && Sound(trades) && HeldFirst(positions)
    requires NamedUpTo(trades, latest) && latest < now <= 0x7FFF_FFFF_FFFF_FFFF && now >= 0
    ensures Tracks(SyncTrades(trades, fills, positions, context, now).0, symbol, HoldAll(h, positions, symbol, now, k))
  {
    hide TradeIdFor, SameSymbol, Tracks, SyncTrade, NamedUpTo, Sound, TradesOf, Grown, Hold;
    if positions != [] {
      var n := |positions| - 1;
      var prefix, p := positions[..n], positions[n];
      assert forall i :: 0 <= i < n ==> prefix[i] == positions[i];
      SyncTradesTrack(trades, fills, prefix, context, symbol, h, latest, now, k);
      var before := SyncTrades(trades, fills, prefix, context, now).0;
      SyncTradesFrame(trades, fills, prefix, context, now);
      SyncTradeFrames(before, fills, p, context, now);
      if SameSymbol(p.symbol, symbol) {
        if p.quantity != 0 {
          assert !Mentions(prefix, p.symbol);
          SyncTradesGrow(trades, fills, prefix, context, now, latest);
          NewerIdIsFresh(trades, latest, p.symbol, now);
          StillFresh(trades, before, p.symbol, now);
        }
        SyncTradeTracks(before, fills, p, context, symbol, HoldAll(h, prefix, symbol, now, k), now, k);
      } else {
        TracksDependsOnItsSymbol(before, SyncTrade(before, fills, p, context, now).0, symbol,
                                 HoldAll(h, prefix, symbol, now, k));
      }
    }
  }

  lemma OpenTradeSide(trades: Ledger, p: BrokerPosition, id: string)
    requires TradeMatches(trades, p) && p.quantity != 0
    requires id in trades && trades[id].status == TradeOpen && SameSymbol(p.symbol, trades[id].symbol)
    ensures Some(trades[id].side) == SideOf(p.quantity)
  {
    hide FoldCase;
    var only :| IsOnlyOpen(trades, only, p);
    assert id in OpenIds(trades, p.symbol);
  }

  lemma HeldHasOpen(trades: Ledger, p: BrokerPosition, symbol: string)
    requires TradeMatches(trades, p) && SameSymbol(p.symbol, symbol)
    ensures p.quantity != 0 ==> OpenIds(trades, symbol) != {}
  {
    hide FoldCase;
    if p.quantity != 0 {
      var only :| IsOnlyOpen(trades, only, p);
      assert only in OpenIds(trades, p.symbol);
      assert only in OpenIds(trades, symbol);
    }
  }

  // ----- a sync shows each symbol held or not

  lemma {:induction false} HoldsNothing(h: Holdings, positions: seq<BrokerPosition>, symbol: string, now: Time, k: nat)
    requires forall i :: 0 <= i < |positions| ==> !IsHeld(positions[i], symbol)
    ensures HoldAll(h, positions, symbol, now, k) == if Mentions(positions, symbol) then Hold(h, None, now, k) else h
  {
    hide SameSymbol;
    if positions != [] {
      var n := |positions| - 1;
      assert forall i :: 0 <= i < n ==> positions[..n][i] == positions[i];
      HoldsNothing(h, positions[..n], symbol, now, k);
      if SameSymbol(positions[n].symbol, symbol) {
        assert Mentions(positions, symbol);
      } else {
        assert Mentions(positions, symbol) ==> Mentions(positions[..n], symbol);
        assert Mentions(positions[..n], symbol) ==> Mentions(positions, symbol);
      }
    }
  }

  lemma {:induction false} HoldsOne(
    h: Holdings, positions: seq<BrokerPosition>, i: nat, symbol: string, now: Time, k: nat)
    requires i < |positions| && IsHeld(positions[i], symbol)
    requires forall j :: 0 <= j < |positions| && j != i ==> !SameSymbol(positions[j].symbol, symbol)
    ensures HoldAll(h, positions, symbol, now, k) == Hold(h, Some(positions[i]), now, k)
  {
    hide SameSymbol, Hold;
    var n := |positions| - 1;
    assert forall j :: 0 <= j < n ==> positions[..n][j] == positions[j];
    if i == n {
      HoldsNothing(h, positions[..n], symbol, now, k);
    } else {
      HoldsOne(h, positions[..n], i, symbol, now, k);
    }
  }

  /** A mirrored listing shows exactly the current holdings. */
  lemma ListingShowsCurrent(trades: Ledger, listed: seq<BrokerPosition>, symbol: string, h: Holdings)
    requires Tracks(trades, symbol, h) && MirrorsListing(trades, listed)
    ensures h.current.Some? <==> HeldIn(listed, symbol).Some?
    ensures h.current.Some? ==> SideOf(HeldIn(listed, symbol).value.quantity) == h.current.value.side
  {
    hide SameSymbol, TradeMatches, OpenIds;
    match HeldIn(listed, symbol)
    case Some(p) =>
      assert TradeMatches(trades, p);
      HeldHasOpen(trades, p, symbol);
      if h.current.Some? {
        OpenIdFacts(trades, symbol, h.current.value.id);
        SameSymbolSymmetric(trades[h.current.value.id].symbol, symbol);
        SameSymbolTransitive(p.symbol, symbol, trades[h.current.value.id].symbol);
        OpenTradeSide(trades, p, h.current.value.id);
      }
    case None =>
      if h.current.Some? {
        OpenIdFacts(trades, symbol, h.current.value.id);
        var i :| 0 <= i < |listed| && listed[i].quantity != 0
                 && SameSymbol(listed[i].symbol, trades[h.current.value.id].symbol);
        SameSymbolTransitive(listed[i].symbol, trades[h.current.value.id].symbol, symbol);
      }
  }

  /** Everything a sync needs of the two listings: their maps, what lies between them, and that nothing moved. */
  ghost predicate Between(a: PositionMap, b: PositionMap, listed: seq<BrokerPosition>, positions: seq<BrokerPosition>,
                          processed: seq<BrokerPosition>, m: int, names: Names)
  {
    && IsPositionMap(a, listed) && IsPositionMap(b, positions)
    && GoodListing(listed, names) && GoodListing(positions, names) && SpelledAlike(a, b) && OnePerSymbol(b)
    && IsDiff(a, b, processed, m) && !Moves(a, b)
    && HeldFirst(processed)
    && forall i :: 0 <= i < |processed| && processed[i].quantity != 0 ==> processed[i] in positions
  }

  /** Where a symbol is held, nothing else of it is processed. */
  lemma OnlyHeldProcessed(a: PositionMap, b: PositionMap, listed: seq<BrokerPosition>, positions: seq<BrokerPosition>,
                          processed: seq<BrokerPosition>, m: int, names: Names, p: BrokerPosition, symbol: string,
                          i: int)
    requires Between(a, b, listed, positions, processed, m, names)
    requires p in positions && IsHeld(p, symbol)
    requires 0 <= i < |processed| && SameSymbol(processed[i].symbol, symbol)
    ensures processed[i] == p
  {
    hide SameSymbol, PositionKey, SpelledAlike, HeldFirst;
    var j :| 0 <= j < |positions| && positions[j] == p;
    var l := PositionKey(p);
    SameSymbolSymmetric(p.symbol, symbol);
    if i < m {
      assert IsChanged(a, b, processed[i]);
      var k :| ChangedAt(a, b, k) && processed[i] == b[k];
      SameSymbolTransitive(processed[i].symbol, symbol, p.symbol);
      assert k == l;
    } else {
      assert IsVanished(a, b, processed[i]);
      var k :| VanishedAt(a, b, k) && processed[i].quantity == 0 && processed[i].symbol == a[k].symbol;
      SameSymbolTransitive(a[k].symbol, symbol, p.symbol);
    }
  }

  /** Where a symbol is held and none of it is processed, it was listed the same way before. */
  lemma SameAsBefore(a: PositionMap, b: PositionMap, listed: seq<BrokerPosition>, positions: seq<BrokerPosition>,
                     processed: seq<BrokerPosition>, m: int, names: Names, p: BrokerPosition, symbol: string)
    requires Between(a, b, listed, positions, processed, m, names)
    requires p in positions && IsHeld(p, symbol) && !Mentions(processed, symbol)
    ensures HeldIn(listed, symbol) == Some(p)
  {
    hide SameSymbol, PositionKey, SpelledAlike, HeldFirst, IsDiff, Moves, OnePerSymbol;
    var j :| 0 <= j < |positions| && positions[j] == p;
    var l := PositionKey(p);
    SameSymbolSymmetric(p.symbol, symbol);
    forall i | 0 <= i < |processed| ensures !SameSymbol(processed[i].symbol, p.symbol) {
      if SameSymbol(processed[i].symbol, p.symbol) {
        SameSymbolTransitive(processed[i].symbol, p.symbol, symbol);
      }
    }
    UnmentionedIsUnchanged(a, b, processed, m, l);
    var i := ListedAt(a, listed, l);
    var q := HeldIn(listed, symbol).value;
    var g :| 0 <= g < |listed| && listed[g] == q;
    SameSymbolSymmetric(q.symbol, symbol);
    SameSymbolTransitive(p.symbol, symbol, q.symbol);
    SameSymbolSymmetric(p.symbol, q.symbol);
  }

  /** A symbol that was held is processed unless it is still held. */
  lemma HeldIsProcessed(a: PositionMap, b: PositionMap, listed: seq<BrokerPosition>, positions: seq<BrokerPosition>,
                        processed: seq<BrokerPosition>, m: int, names: Names, symbol: string)
    requires Between(a, b, listed, positions, processed, m, names)
    requires HeldIn(listed, symbol).Some? && HeldIn(positions, symbol).None?
    ensures Mentions(processed, symbol)
  {
    hide SameSymbol, PositionKey, SpelledAlike, HeldFirst, IsDiff, Moves, OnePerSymbol;
    var q := HeldIn(listed, symbol).value;
    var i :| 0 <= i < |listed| && listed[i] == q;
    if !Mentions(processed, symbol) {
      UnmentionedStays(a, b, processed, m, PositionKey(q), symbol);
      var j := ListedAt(b, positions, PositionKey(q));
    }
  }

  lemma OneOfSymbol(a: PositionMap, b: PositionMap, listed: seq<BrokerPosition>, positions: seq<BrokerPosition>,
                    processed: seq<BrokerPosition>, m: int, names: Names, symbol: string, i: nat)
    requires Between(a, b, listed, positions, processed, m, names)
    requires i < |processed| && SameSymbol(processed[i].symbol, symbol)
    requires forall j :: 0 <= j < |processed| && SameSymbol(processed[j].symbol, symbol) ==>
      processed[j] == processed[i] && IsHeld(processed[j], symbol)
    ensures forall j :: 0 <= j < |processed| && j != i ==> !SameSymbol(processed[j].symbol, symbol)
  {
    hide FoldCase, IsDiff, Moves, IsPositionMap, GoodListing;
  }

  /** What a sync processes of a symbol amounts to what its listing shows. */
  lemma ProcessedShows(a: PositionMap, b: PositionMap, listed: seq<BrokerPosition>, positions: seq<BrokerPosition>,
                       processed: seq<BrokerPosition>, m: int, names: Names, symbol: string, h: Holdings, now: Time,
                       k: nat)
    requires Between(a, b, listed, positions, processed, m, names)
    requires h.current.Some? <==> HeldIn(listed, symbol).Some?
    requires h.current.Some? ==> SideOf(HeldIn(listed, symbol).value.quantity) == h.current.value.side
    ensures HoldAll(h, processed, symbol, now, k) == Hold(h, HeldIn(positions, symbol), now, k)
  {
    hide SameSymbol, HeldIn, HoldAll, Between;
    match HeldIn(positions, symbol)
    case Some(p) =>
      if Mentions(processed, symbol) {
        var i :| 0 <= i < |processed| && SameSymbol(processed[i].symbol, symbol);
        forall j | 0 <= j < |processed| && SameSymbol(processed[j].symbol, symbol) ensures processed[j] == p {
          OnlyHeldProcessed(a, b, listed, positions, processed, m, names, p, symbol, j);
        }
        OneOfSymbol(a, b, listed, positions, processed, m, names, symbol, i);
        HoldsOne(h, processed, i, symbol, now, k);
      } else {
        SameAsBefore(a, b, listed, positions, processed, m, names, p, symbol);
        HoldsNothing(h, processed, symbol, now, k);
      }
    case None =>
      NothingHeld(a, b, listed, positions, processed, m, names, symbol);
      HoldsNothing(h, processed, symbol, now, k);
      if !Mentions(processed, symbol) && h.current.Some? {
        HeldIsProcessed(a, b, listed, positions, processed, m, names, symbol);
      }
  }

  lemma NothingHeld(a: PositionMap, b: PositionMap, listed: seq<BrokerPosition>, positions: seq<BrokerPosition>,
                    processed: seq<BrokerPosition>, m: int, names: Names, symbol: string)
    requires Between(a, b, listed, positions, processed, m, names) && HeldIn(positions, symbol).None?
    ensures forall i :: 0 <= i < |processed| ==> !IsHeld(processed[i], symbol)
  {
    hide SameSymbol, IsDiff, Moves, IsPositionMap, GoodListing;
    forall i | 0 <= i < |processed| && processed[i].quantity != 0 ensures !IsHeld(processed[i], symbol) {
      var j :| 0 <= j < |positions| && positions[j] == processed[i];
    }
  }

  /** What a sync processes: held positions of the listing, each before its symbol's flat ones. */
  lemma ProcessedHeldFirst(last: PositionMap, after: PositionMap, positions: seq<BrokerPosition>, now: Time,
                           names: Names)
    requires GoodListing(positions, names) && IsPositionMap(after, positions)
    ensures HeldFirst(Processed(last, positions, now))
    ensures forall p :: p in Processed(last, positions, now) && p.quantity != 0 ==> p in positions
  {
    hide PositionPass, InOrder, PositionKey, SameSymbol, Processed, IsPositionMap;
    GoodListingsAreUnique(positions, names);
    ProcessedLength(last, after, positions, now);
    var processed := Processed(last, positions, now);
    var changed := PositionPass(last, positions).1;
    ChangedPositions(last, positions);
    forall i | 0 <= i < |processed| && processed[i].quantity != 0 ensures i < |changed| && processed[i] == changed[i] {
      ProcessedAt(last, after, positions, now, i);
    }
    forall i, j | 0 <= i < j < |processed| && processed[j].quantity != 0
      ensures !SameSymbol(processed[i].symbol, processed[j].symbol)
    {
      ProcessedAt(last, after, positions, now, i);
      assert changed[i] in changed && changed[j] in changed;
      var a :| 0 <= a < |positions| && positions[a] == changed[i];
      var b :| 0 <= b < |positions| && positions[b] == changed[j];
      SameSymbolSymmetric(changed[i].symbol, changed[j].symbol);
      assert a != b;
    }
  }

  /** One sync of a mirrored state in which nothing moves. */
  lemma SyncTracks(s: RecorderState, listed: seq<BrokerPosition>, snap: BrokerSnapshot, latest: Time, now: Time,
                   names: Names, symbol: string, h: Holdings, k: nat)
    requires MirrorInv(s, listed, names) && OneSpelling(names) && GoodListing(snap.positions, names)
    requires !ListingMoves(listed, snap.positions)
    requires latest < now <= 0x7FFF_FFFF_FFFF_FFFF && now >= 0 && NamedUpTo(s.history.trades, latest)
    requires Tracks(s.history.trades, symbol, h)
    ensures Tracks(Sync(s, snap, now).0.history.trades, symbol, Hold(h, HeldIn(snap.positions, symbol), now, k))
  {
    hide Sync, Sound, Mirrors, MirrorsListing, SyncTrades, Processed, GoodListing, SpelledAlike, IsDiff, ListingMoves;
    hide IsPositionMap, OneSpelling, PositionKey, OnePerSymbol, PositionPass, NamedUpTo, HeldFirst, Moves, Tracks;
    hide Hold, HeldIn;
    var after := Sync(s, snap, now).0;
    GoodListingsAreUnique(snap.positions, names);
    SyncPositions(s, snap, now);
    var a, b := s.lastPositions, after.lastPositions;
    GoodListingMap(a, listed, names);
    GoodListingMap(b, snap.positions, names);
    NamedMapsSpellAlike(a, b, names);
    ListingMovesAreMoves(a, b, listed, snap.positions);
    ProcessedIsDiff(a, b, snap.positions, now);
    ProcessedHeldFirst(a, b, snap.positions, now, names);
    var processed, m := Processed(a, snap.positions, now), |PositionPass(a, snap.positions).1|;
    ListingShowsCurrent(s.history.trades, listed, symbol, h);
    ProcessedShows(a, b, listed, snap.positions, processed, m, names, symbol, h, now, k);
    SyncTradesTrack(s.history.trades, after.history.fills, processed, s.context, symbol, h, latest, now, k);
  }

  /**
   * The trades of every run in which no position moves between accounts are its holdings: the closed trades of a
   * symbol open at the capture time of the first listing of a side and close at the first sync that shows the symbol
   * flat, gone or on the other side, and the open trade is the holding that is not over.
   */
  lemma {:induction false} TradesAreHoldings(ops: seq<RecorderOp>, names: Names, symbol: string)
    requires GoodRun(ops, names) && NeverMoves(ops) && TimesIncrease(ops)
    ensures Tracks(RecorderRun(ops).history.trades, symbol, HoldingsOf(ops, symbol))
  {
    hide Sync, MirrorInv, OneSpelling, GoodListing, ListingMoves, Tracks, TimesIncrease, Hold, HeldIn;
    if ops == [] {
      NothingTracked(symbol);
    } else {
      var n := |ops| - 1;
      assert ops[..n] + [ops[n]] == ops;
      PrefixTimes(ops[..n], ops[n]);
      TradesAreHoldings(ops[..n], names, symbol);
      if ops[n].SyncOp? {
        LastSyncTracks(ops, names, symbol);
      }
    }
  }

  lemma LastSyncTracks(ops: seq<RecorderOp>, names: Names, symbol: string)
    requires ops != [] && ops[|ops| - 1].SyncOp? && GoodRun(ops, names) && NeverMoves(ops) && TimesIncrease(ops)
    requires Tracks(RecorderRun(ops[..|ops| - 1]).history.trades, symbol, HoldingsOf(ops[..|ops| - 1], symbol))
    ensures Tracks(RecorderRun(ops).history.trades, symbol, HoldingsOf(ops, symbol))
  {
    hide Sync, MirrorInv, OneSpelling, GoodListing, ListingMoves, Tracks, TimesIncrease, NamedUpTo, Hold, HeldIn;
    var n := |ops| - 1;
    var before, op := ops[..n], ops[n];
    assert before + [op] == ops;
    PrefixTimes(before, op);
    LatestSyncIsOld(before, op);
    RunKeepsMirror(before, names);
    RunNames(before);
    SyncTracks(RecorderRun(before), Listed(before), op.snapshot, LatestSync(before), op.now, names,
               symbol, HoldingsOf(before, symbol), n);
  }

  lemma NothingTracked(symbol: string)
    ensures Tracks(map[], symbol, Holdings(map[], None))
  {
  }

  /** A holding that is over was ended by the sync it names. */
  lemma {:induction false} HoldingsEnd(ops: seq<RecorderOp>, symbol: string, id: string)
    requires id in HoldingsOf(ops, symbol).closed
    ensures var w := HoldingsOf(ops, symbol).closed[id];
      w.closedBy < |ops| && ops[w.closedBy].SyncOp? && ops[w.closedBy].now == w.closedAt
  {
    hide HeldIn;
    var n := |ops| - 1;
    if id in HoldingsOf(ops[..n], symbol).closed {
      HoldingsEnd(ops[..n], symbol, id);
    }
  }
}
