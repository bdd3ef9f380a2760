// The ledger follows the positions: what one position, and a list of positions, does to the open trades.
module LedgerLaws {
  import opened Prelude
  import opened MarketTypes
  import opened BrokerTypes
  import opened TradingHistory

  /** The trades of one symbol, open or not. */
  function TradesOf(trades: Ledger, symbol: string): Ledger {
    map id | id in trades && SameSymbol(trades[id].symbol, symbol) :: trades[id]
  }

  ghost predicate IsOnlyOpen(trades: Ledger, id: string, p: BrokerPosition) {
    && id in trades && OpenIds(trades, p.symbol) == {id}
    && trades[id].symbol == p.symbol && Some(trades[id].side) == SideOf(p.quantity)
    && trades[id].quantity == Abs(p.quantity)
  }

  /** Flat: no open trade of the symbol. Otherwise exactly one, with the position's symbol, side and size. */
  ghost predicate TradeMatches(trades: Ledger, p: BrokerPosition) {
    if p.quantity == 0 then OpenIds(trades, p.symbol) == {} else exists id :: IsOnlyOpen(trades, id, p)
  }

  /** At most one open trade of the position's symbol, and it spells the symbol the same way. */
  ghost predicate Ready(trades: Ledger, p: BrokerPosition) {
    && (forall a, b :: a in OpenIds(trades, p.symbol) && b in OpenIds(trades, p.symbol) ==> a == b)
    && (forall a :: a in OpenIds(trades, p.symbol) ==> trades[a].symbol == p.symbol)
  }

  /** Trade ids are built from the trade's own symbol and a time. */
  ghost predicate NamedAfter(id: string, symbol: string) {
    exists t :: t >= 0 && id == TradeIdFor(symbol, t)
  }

  ghost predicate Sound(trades: Ledger) {
    forall id :: id in trades ==> trades[id].tradeId == id && NamedAfter(id, trades[id].symbol)
  }

  lemma OpenIdsOfSymbol(trades: Ledger, other: Ledger, symbol: string)
    requires TradesOf(trades, symbol) == TradesOf(other, symbol)
    ensures OpenIds(trades, symbol) == OpenIds(other, symbol)
    ensures forall id :: id in OpenIds(trades, symbol) ==> trades[id] == other[id]
  {
    hide SameSymbol;
    forall id ensures id in OpenIds(trades, symbol) <==> id in OpenIds(other, symbol) {
      assert id in OpenIds(trades, symbol) ==> id in TradesOf(trades, symbol);
      assert id in OpenIds(other, symbol) ==> id in TradesOf(other, symbol);
    }
    forall id | id in OpenIds(trades, symbol) ensures trades[id] == other[id] {
      assert id in TradesOf(trades, symbol) && id in TradesOf(other, symbol);
      assert TradesOf(trades, symbol)[id] == TradesOf(other, symbol)[id];
    }
  }

  lemma MatchesDependsOnItsSymbol(trades: Ledger, other: Ledger, p: BrokerPosition)
    requires TradesOf(trades, p.symbol) == TradesOf(other, p.symbol)
    ensures TradeMatches(trades, p) <==> TradeMatches(other, p)
    ensures Ready(trades, p) <==> Ready(other, p)
  {
    hide TradesOf, OpenIds, SameSymbol;
    OpenIdsOfSymbol(trades, other, p.symbol);
    if p.quantity != 0 {
      forall id ensures IsOnlyOpen(trades, id, p) <==> IsOnlyOpen(other, id, p) {
        OpenIdsExist(trades, p.symbol, id);
        OpenIdsExist(other, p.symbol, id);
      }
    }
  }

  lemma OpenIdsExist(trades: Ledger, symbol: string, id: string)
    ensures OpenIds(trades, symbol) == {id} ==> id in OpenIds(trades, symbol) && id in trades
  {
  }

  /** Writing a record under an id leaves the trades of every other symbol alone. */
  lemma PutTradeFrame(trades: Ledger, id: string, record: TradeSummary, symbol: string)
    requires id in trades ==> SameSymbol(trades[id].symbol, record.symbol)
    requires !SameSymbol(record.symbol, symbol)
    ensures TradesOf(trades[id := record], symbol) == TradesOf(trades, symbol)
  {
    hide FoldCase;
  }

  lemma PutTradeOpen(trades: Ledger, id: string, record: TradeSummary)
    ensures record.status == TradeOpen ==>
      OpenIds(trades[id := record], record.symbol) == OpenIds(trades, record.symbol) + {id}
    ensures record.status != TradeOpen ==>
      OpenIds(trades[id := record], record.symbol) == OpenIds(trades, record.symbol) - {id}
  {
    hide FoldCase;
  }

  lemma PutFrames(trades: Ledger, id: string, record: TradeSummary, own: string)
    requires SameSymbol(record.symbol, own) && (id in trades ==> SameSymbol(trades[id].symbol, own))
    ensures forall symbol :: !SameSymbol(own, symbol) ==>
      TradesOf(trades[id := record], symbol) == TradesOf(trades, symbol)
  {
    hide FoldCase, TradesOf;
    forall symbol | !SameSymbol(own, symbol)
      ensures TradesOf(trades[id := record], symbol) == TradesOf(trades, symbol)
    {
      PutTradeFrame(trades, id, record, symbol);
    }
  }

  /** One position never touches the trades of another symbol. */
  lemma {:induction false} SyncTradeFrames(
    trades: Ledger, fills: Fills, p: BrokerPosition, context: RunContext, now: Time)
    requires Sound(trades) && now >= 0
    ensures var after := SyncTrade(trades, fills, p, context, now).0;
      Sound(after) && forall symbol :: !SameSymbol(p.symbol, symbol) ==>
        TradesOf(after, symbol) == TradesOf(trades, symbol)
    decreases |StaleIds(trades, p)|
  {
    hide SameSymbol, TradesOf, OpenIds, ExitPrice, SumOn, ChargedFills, TradeIdFor, NamedAfter, StaleIds;
    match FindOpen(trades, p.symbol)
    case None =>
      if SideOf(p.quantity).Some? {
        NewIdIsNamed(p.symbol, now);
        FreshIdNamesSymbol(trades, p.symbol, now);
        var record := OpenedTrade(p, SideOf(p.quantity).value, context, now);
        PutFrames(trades, record.tradeId, record, p.symbol);
      }
    case Some(id) =>
      OpenIdFacts(trades, p.symbol, id);
      PutFrames(trades, id, ClosedTrade(trades[id], fills, p, now), p.symbol);
      PutFrames(trades, id, ResizedTrade(trades[id], p), p.symbol);
      if SideOf(p.quantity).Some? && SideOf(p.quantity) != Some(trades[id].side) {
        StaleOpen(trades, p, id);
        CloseShrinksStale(trades, fills, p, id, now);
        SyncTradeFrames(trades[id := ClosedTrade(trades[id], fills, p, now)], fills, p, context, now);
      }
  }

  /** One position: afterwards the ledger matches it. */
  lemma {:induction false} SyncTradeMatches(
    trades: Ledger, fills: Fills, p: BrokerPosition, context: RunContext, now: Time)
    requires Sound(trades) && Ready(trades, p) && now >= 0
    ensures TradeMatches(SyncTrade(trades, fills, p, context, now).0, p)
    decreases |StaleIds(trades, p)|
  {
    hide SameSymbol, TradesOf, OpenIds, ExitPrice, SumOn, ChargedFills, TradeIdFor, NamedAfter;
    var after := SyncTrade(trades, fills, p, context, now).0;
    var side := SideOf(p.quantity);
    match FindOpen(trades, p.symbol)
    case None =>
      if side.Some? {
        var record := OpenedTrade(p, side.value, context, now);
        FreshIdNamesSymbol(trades, p.symbol, now);
        SettleBy(trades, record.tradeId, record, p);
        assert IsOnlyOpen(after, record.tradeId, p);
      }
    case Some(id) =>
      OpenIdFacts(trades, p.symbol, id);
      assert OpenIds(trades, p.symbol) == {id};
      var record := ClosedTrade(trades[id], fills, p, now);
      SettleBy(trades, id, record, p);
      if side == Some(trades[id].side) {
        SettleBy(trades, id, ResizedTrade(trades[id], p), p);
        assert IsOnlyOpen(after, id, p);
      } else if side.Some? {
        var closed := trades[id := record];
        assert OpenIds(closed, p.symbol) == {};
        StaleOpen(trades, p, id);
        CloseShrinksStale(trades, fills, p, id, now);
        SyncTradeMatches(closed, fills, p, context, now);
      }
  }

  /** One position: afterwards the ledger matches it, and no other symbol's trades have changed. */
  lemma SyncTradeSettles(trades: Ledger, fills: Fills, p: BrokerPosition, context: RunContext, now: Time)
    requires Sound(trades) && Ready(trades, p) && now >= 0
    ensures var after := SyncTrade(trades, fills, p, context, now).0;
      && Sound(after) && TradeMatches(after, p)
      && forall symbol :: !SameSymbol(p.symbol, symbol) ==> TradesOf(after, symbol) == TradesOf(trades, symbol)
  {
    hide *;
    SyncTradeFrames(trades, fills, p, context, now);
    SyncTradeMatches(trades, fills, p, context, now);
  }

  lemma StaleOpen(trades: Ledger, p: BrokerPosition, id: string)
    requires id in OpenIds(trades, p.symbol) && Some(trades[id].side) != SideOf(p.quantity)
    ensures id in StaleIds(trades, p)
  {
  }

  lemma OpenIdFacts(trades: Ledger, symbol: string, id: string)
    requires id in OpenIds(trades, symbol)
    ensures id in trades && trades[id].status == TradeOpen && SameSymbol(trades[id].symbol, symbol)
  {
  }

  lemma SettleBy(trades: Ledger, id: string, record: TradeSummary, p: BrokerPosition)
    requires record.symbol == p.symbol
    requires id in trades ==> SameSymbol(trades[id].symbol, p.symbol)
    ensures var after := trades[id := record];
      && (record.status == TradeOpen ==> OpenIds(after, p.symbol) == OpenIds(trades, p.symbol) + {id})
      && (record.status != TradeOpen ==> OpenIds(after, p.symbol) == OpenIds(trades, p.symbol) - {id})
      && forall symbol :: !SameSymbol(p.symbol, symbol) ==> TradesOf(after, symbol) == TradesOf(trades, symbol)
  {
    hide SameSymbol, TradesOf, OpenIds;
    PutTradeOpen(trades, id, record);
    forall symbol | !SameSymbol(p.symbol, symbol)
      ensures TradesOf(trades[id := record], symbol) == TradesOf(trades, symbol)
    {
      PutTradeFrame(trades, id, record, symbol);
    }
  }

  lemma NewIdIsNamed(symbol: string, now: Time)
    requires now >= 0
    ensures NamedAfter(TradeIdFor(symbol, now), symbol)
  {
  }

  lemma FreshIdNamesSymbol(trades: Ledger, symbol: string, now: Time)
    requires Sound(trades) && now >= 0
    ensures TradeIdFor(symbol, now) in trades ==> trades[TradeIdFor(symbol, now)].symbol == symbol
    ensures SameSymbol(symbol, symbol)
  {
    hide TradeIdFor;
    var id := TradeIdFor(symbol, now);
    if id in trades {
      assert NamedAfter(id, trades[id].symbol);
      var t :| t >= 0 && id == TradeIdFor(trades[id].symbol, t);
      TradeIdNamesItsSymbol(symbol, now, trades[id].symbol, t);
    }
  }

  // ----- a list of positions

  lemma SameSymbolSymmetric(a: string, b: string)
    ensures SameSymbol(a, b) <==> SameSymbol(b, a)
  {
  }

  lemma SameSymbolTransitive(a: string, b: string, c: string)
    requires SameSymbol(a, b) && SameSymbol(b, c)
    ensures SameSymbol(a, c)
  {
  }

  /** The list spells no symbol in two ways. */
  ghost predicate SpelledOneWay(positions: seq<BrokerPosition>) {
    forall p, q :: p in positions && q in positions && SameSymbol(p.symbol, q.symbol) ==> p.symbol == q.symbol
  }

  /** Position `i` is the last one of its symbol. */
  ghost predicate LastOfSymbol(positions: seq<BrokerPosition>, i: int, symbol: string) {
    0 <= i < |positions| && SameSymbol(positions[i].symbol, symbol)
    && forall j :: i < j < |positions| ==> !SameSymbol(positions[j].symbol, symbol)
  }

  ghost predicate IsFinal(positions: seq<BrokerPosition>, i: int) {
    0 <= i < |positions| && LastOfSymbol(positions, i, positions[i].symbol)
  }

  ghost predicate Mentions(positions: seq<BrokerPosition>, symbol: string) {
    exists i :: 0 <= i < |positions| && SameSymbol(positions[i].symbol, symbol)
  }

  lemma {:induction false} FindLastOfSymbol(positions: seq<BrokerPosition>, symbol: string)
    ensures Mentions(positions, symbol) <==> exists i :: LastOfSymbol(positions, i, symbol)
  {
    hide SameSymbol;
    if positions != [] {
      var n := |positions| - 1;
      FindLastOfSymbol(positions[..n], symbol);
      if SameSymbol(positions[n].symbol, symbol) {
        assert LastOfSymbol(positions, n, symbol);
      } else {
        if i :| LastOfSymbol(positions[..n], i, symbol) {
          assert positions[i] == positions[..n][i];
          assert LastOfSymbol(positions, i, symbol) by {
            assert forall j :: i < j < n ==> positions[j] == positions[..n][j];
          }
        }
        if i :| 0 <= i < |positions| && SameSymbol(positions[i].symbol, symbol) {
          assert positions[..n][i] == positions[i];
          assert Mentions(positions[..n], symbol);
        }
      }
    }
  }

  /** Any list of positions: for each symbol the last position decides, every other symbol is untouched. */
  lemma {:induction false} SyncTradesSettle(
    trades: Ledger, fills: Fills, positions: seq<BrokerPosition>, context: RunContext, now: Time)
    requires Sound(trades) && now >= 0 && SpelledOneWay(positions)
    requires forall i :: 0 <= i < |positions| ==> Ready(trades, positions[i])
    ensures var after := SyncTrades(trades, fills, positions, context, now).0;
      && Sound(after)
      && (forall i :: IsFinal(positions, i) ==> TradeMatches(after, positions[i]))
      && (forall symbol :: !Mentions(positions, symbol) ==> TradesOf(after, symbol) == TradesOf(trades, symbol))
  {
    hide SameSymbol, TradesOf, OpenIds, SyncTrade, TradeMatches, Ready, Sound;
    if positions != [] {
      var n := |positions| - 1;
      var last, prefix := positions[n], positions[..n];
      SyncTradesSettle(trades, fills, prefix, context, now);
      var before := SyncTrades(trades, fills, prefix, context, now).0;
      ReadyForLast(trades, before, positions);
      SyncTradeSettles(before, fills, last, context, now);
      var after := SyncTrade(before, fills, last, context, now).0;
      forall i | IsFinal(positions, i) ensures TradeMatches(after, positions[i]) {
        if i < n {
          SameSymbolSymmetric(positions[i].symbol, last.symbol);
          assert prefix[i] == positions[i] && forall j :: i < j < n ==> prefix[j] == positions[j];
          assert IsFinal(prefix, i);
          MatchesDependsOnItsSymbol(before, after, positions[i]);
        }
      }
      forall symbol | !Mentions(positions, symbol) ensures TradesOf(after, symbol) == TradesOf(trades, symbol) {
        assert forall i :: 0 <= i < n ==> prefix[i] == positions[i];
        assert !Mentions(prefix, symbol);
      }
    }
  }

  /** A list of positions never touches the trades of a symbol it does not mention. */
  lemma {:induction false} SyncTradesFrame(
    trades: Ledger, fills: Fills, positions: seq<BrokerPosition>, context: RunContext, now: Time)
    requires Sound(trades) && now >= 0
    ensures var after := SyncTrades(trades, fills, positions, context, now).0;
      Sound(after) && forall symbol :: !Mentions(positions, symbol) ==>
        TradesOf(after, symbol) == TradesOf(trades, symbol)
  {
    hide SameSymbol, TradesOf, SyncTrade, Sound;
    if positions != [] {
      var n := |positions| - 1;
      SyncTradesFrame(trades, fills, positions[..n], context, now);
      SyncTradeFrames(SyncTrades(trades, fills, positions[..n], context, now).0, fills, positions[n], context, now);
      assert forall i :: 0 <= i < n ==> positions[..n][i] == positions[i];
    }
  }

  /** After all earlier positions the ledger is ready for the last one. */
  lemma ReadyForLast(trades: Ledger, before: Ledger, positions: seq<BrokerPosition>)
    requires positions != [] && SpelledOneWay(positions)
    requires Ready(trades, positions[|positions| - 1])
    requires var prefix := positions[..|positions| - 1];
      && (forall i :: IsFinal(prefix, i) ==> TradeMatches(before, prefix[i]))
      && (forall symbol :: !Mentions(prefix, symbol) ==> TradesOf(before, symbol) == TradesOf(trades, symbol))
    ensures Ready(before, positions[|positions| - 1])
  {
    hide SameSymbol, TradesOf, OpenIds;
    var n := |positions| - 1;
    var prefix, last := positions[..n], positions[n];
    if Mentions(prefix, last.symbol) {
      FindLastOfSymbol(prefix, last.symbol);
      var i :| LastOfSymbol(prefix, i, last.symbol);
      assert prefix[i] == positions[i] && positions[i].symbol == last.symbol;
      assert TradeMatches(before, prefix[i]);
      if last.symbol == prefix[i].symbol && prefix[i].quantity != 0 {
        var only :| IsOnlyOpen(before, only, prefix[i]);
      }
    } else {
      MatchesDependsOnItsSymbol(before, trades, last);
    }
  }

  // ----- the mirror

  type Positions = map<string, BrokerPosition>

  /** Every position has its trade, and every open trade has its position. */
  ghost predicate Mirrors(trades: Ledger, positions: Positions) {
    && (forall k :: k in positions ==> TradeMatches(trades, positions[k]))
    && (forall id :: id in trades && trades[id].status == TradeOpen ==>
          exists k :: k in positions && positions[k].quantity != 0
            && SameSymbol(positions[k].symbol, trades[id].symbol))
  }

  /** At most one entry per symbol, whatever its account. */
  ghost predicate OnePerSymbol(positions: Positions) {
    forall k, l :: k in positions && l in positions && SameSymbol(positions[k].symbol, positions[l].symbol) ==> k == l
  }

  /** The two maps spell each symbol the same way, and a key stands for the same symbol in both. */
  ghost predicate SpelledAlike(a: Positions, b: Positions) {
    && (forall k, l :: k in a && l in b && SameSymbol(a[k].symbol, b[l].symbol) ==> a[k].symbol == b[l].symbol)
    && (forall k :: k in a && k in b ==> a[k].symbol == b[k].symbol)
  }

  ghost predicate ChangedAt(before: Positions, after: Positions, k: string) {
    k in after && (k !in before || before[k] != after[k])
  }

  ghost predicate VanishedAt(before: Positions, after: Positions, k: string) {
    k in before && k !in after
  }

  ghost predicate IsChanged(before: Positions, after: Positions, p: BrokerPosition) {
    exists k :: ChangedAt(before, after, k) && p == after[k]
  }

  ghost predicate IsVanished(before: Positions, after: Positions, p: BrokerPosition) {
    exists k :: VanishedAt(before, after, k) && p.quantity == 0 && p.symbol == before[k].symbol
  }

  /**
   * What a sync processes: exactly the changed positions, and after them, as flat ones, exactly those that
   * vanished.
   */
  ghost predicate IsDiff(before: Positions, after: Positions, processed: seq<BrokerPosition>, m: int) {
    && 0 <= m <= |processed|
    && (forall i :: 0 <= i < m ==> IsChanged(before, after, processed[i]))
    && (forall i :: m <= i < |processed| ==> IsVanished(before, after, processed[i]))
    && (forall k :: ChangedAt(before, after, k) ==> after[k] in processed[..m])
    && (forall k :: VanishedAt(before, after, k) ==>
          exists i :: m <= i < |processed| && processed[i].symbol == before[k].symbol)
  }

  /** A key vanishes although its symbol is still held, under another key: a position moved between accounts. */
  ghost predicate Moves(before: Positions, after: Positions) {
    exists k, l :: VanishedAt(before, after, k) && l in after && after[l].quantity != 0
                   && SameSymbol(before[k].symbol, after[l].symbol)
  }

  lemma MirrorMakesReady(trades: Ledger, positions: Positions, p: BrokerPosition)
    requires Mirrors(trades, positions)
    requires forall k :: k in positions && SameSymbol(positions[k].symbol, p.symbol) ==> positions[k].symbol == p.symbol
    ensures Ready(trades, p)
  {
    hide SameSymbol, OpenIds;
    if id :| id in OpenIds(trades, p.symbol) {
      OpenIdFacts(trades, p.symbol, id);
      var k :| k in positions && positions[k].quantity != 0 && SameSymbol(positions[k].symbol, trades[id].symbol);
      SameSymbolTransitive(positions[k].symbol, trades[id].symbol, p.symbol);
      assert positions[k].symbol == p.symbol;
      assert TradeMatches(trades, positions[k]);
      var only :| IsOnlyOpen(trades, only, positions[k]);
    }
  }

  /** Every processed position stems from one of the maps, with its symbol. */
  lemma ProcessedSource(before: Positions, after: Positions, processed: seq<BrokerPosition>, m: int, i: int)
    requires IsDiff(before, after, processed, m) && 0 <= i < |processed|
    ensures || (exists k :: k in after && after[k] == processed[i])
            || (exists k :: k in before && before[k].symbol == processed[i].symbol)
  {
    assert i < m ==> IsChanged(before, after, processed[i]);
    assert i >= m ==> IsVanished(before, after, processed[i]);
  }

  lemma ProcessedReady(trades: Ledger, before: Positions, after: Positions, processed: seq<BrokerPosition>, m: int)
    requires Mirrors(trades, before) && IsDiff(before, after, processed, m)
    requires SpelledAlike(before, before) && SpelledAlike(before, after) && SpelledAlike(after, after)
    ensures SpelledOneWay(processed)
    ensures forall i :: 0 <= i < |processed| ==> Ready(trades, processed[i])
  {
    hide SameSymbol, TradeMatches, OpenIds, IsDiff, Mirrors, Ready;
    forall i | 0 <= i < |processed| ensures Ready(trades, processed[i]) {
      ProcessedSource(before, after, processed, m, i);
      forall k | k in before && SameSymbol(before[k].symbol, processed[i].symbol)
        ensures before[k].symbol == processed[i].symbol { }
      MirrorMakesReady(trades, before, processed[i]);
    }
    forall i, j | 0 <= i < |processed| && 0 <= j < |processed| && SameSymbol(processed[i].symbol, processed[j].symbol)
      ensures processed[i].symbol == processed[j].symbol
    {
      ProcessedSource(before, after, processed, m, i);
      ProcessedSource(before, after, processed, m, j);
      SameSymbolSymmetric(processed[i].symbol, processed[j].symbol);
    }
  }

  /** A position of the new map whose symbol is processed: the last entry is that position, or a vanished one. */
  lemma LastEntryOf(before: Positions, after: Positions, processed: seq<BrokerPosition>, m: int, l: string, i: int)
    requires IsDiff(before, after, processed, m) && OnePerSymbol(after) && l in after
    requires LastOfSymbol(processed, i, after[l].symbol)
    ensures i < m ==> processed[i] == after[l]
    ensures i >= m ==> exists k :: VanishedAt(before, after, k) && before[k].symbol == processed[i].symbol
  {
    hide SameSymbol;
    assert i < m ==> IsChanged(before, after, processed[i]);
    assert i >= m ==> IsVanished(before, after, processed[i]);
  }

  /** Processing the difference between two position maps carries the mirror over exactly if no position moves. */
  lemma DiffMirrors(trades: Ledger, fills: Fills, before: Positions, after: Positions,
                    processed: seq<BrokerPosition>, m: int, context: RunContext, now: Time)
    requires Sound(trades) && now >= 0 && Mirrors(trades, before) && IsDiff(before, after, processed, m)
    requires OnePerSymbol(before) && OnePerSymbol(after)
    requires SpelledAlike(before, before) && SpelledAlike(before, after) && SpelledAlike(after, after)
    ensures var result := SyncTrades(trades, fills, processed, context, now).0;
      Sound(result) && (Mirrors(result, after) <==> !Moves(before, after))
  {
    hide SameSymbol, TradesOf, OpenIds, SyncTrades, TradeMatches, Ready, Sound, IsDiff, Mirrors, Moves, OnePerSymbol;
    hide SpelledAlike, LastOfSymbol, Mentions;
    var result := SyncTrades(trades, fills, processed, context, now).0;
    ProcessedReady(trades, before, after, processed, m);
    SyncTradesSettle(trades, fills, processed, context, now);
    if Moves(before, after) {
      MoveBreaksMirror(trades, result, before, after, processed, m);
    } else {
      StillMirrors(trades, result, before, after, processed, m);
    }
  }

  /** What processing a list leaves behind. */
  ghost predicate Settled(trades: Ledger, result: Ledger, processed: seq<BrokerPosition>) {
    && (forall i :: IsFinal(processed, i) ==> TradeMatches(result, processed[i]))
    && (forall symbol :: !Mentions(processed, symbol) ==> TradesOf(result, symbol) == TradesOf(trades, symbol))
  }

  lemma LastIsLastOfOwn(positions: seq<BrokerPosition>, i: int, symbol: string)
    requires LastOfSymbol(positions, i, symbol)
    ensures IsFinal(positions, i)
  {
    hide FoldCase;
  }

  lemma MoveBreaksMirror(trades: Ledger, result: Ledger, before: Positions, after: Positions,
                         processed: seq<BrokerPosition>, m: int)
    requires IsDiff(before, after, processed, m) && OnePerSymbol(after) && SpelledAlike(before, after)
    requires Settled(trades, result, processed) && Moves(before, after)
    ensures !Mirrors(result, after)
  {
    hide SameSymbol, TradesOf, OpenIds, OnePerSymbol;
    var k, l :| VanishedAt(before, after, k) && l in after && after[l].quantity != 0
                && SameSymbol(before[k].symbol, after[l].symbol);
    var v :| m <= v < |processed| && processed[v].symbol == before[k].symbol;
    assert Mentions(processed, after[l].symbol);
    FindLastOfSymbol(processed, after[l].symbol);
    var i :| LastOfSymbol(processed, i, after[l].symbol);
    assert i >= v;
    LastIsLastOfOwn(processed, i, after[l].symbol);
    assert IsVanished(before, after, processed[i]);
    assert processed[i].symbol == after[l].symbol;
    NoneOpen(result, processed[i], after[l]);
  }

  lemma NoneOpen(trades: Ledger, flat: BrokerPosition, p: BrokerPosition)
    requires flat.quantity == 0 && flat.symbol == p.symbol && TradeMatches(trades, flat)
    ensures TradeMatches(trades, p) <==> p.quantity == 0
  {
    hide SameSymbol;
    if p.quantity != 0 {
      forall id ensures !IsOnlyOpen(trades, id, p) {
        assert id in {id};
      }
    }
  }

  lemma StillMirrors(trades: Ledger, result: Ledger, before: Positions, after: Positions,
                     processed: seq<BrokerPosition>, m: int)
    requires Mirrors(trades, before) && IsDiff(before, after, processed, m) && !Moves(before, after)
    requires OnePerSymbol(before) && OnePerSymbol(after) && SpelledAlike(before, after) && SpelledAlike(after, after)
    requires Settled(trades, result, processed)
    ensures Mirrors(result, after)
  {
    hide SameSymbol, TradesOf, OpenIds, TradeMatches, IsDiff, OnePerSymbol, SpelledAlike, Settled;
    forall k | k in after ensures TradeMatches(result, after[k]) {
      PositionStillMatches(trades, result, before, after, processed, m, k);
    }
    forall id | id in result && result[id].status == TradeOpen
      ensures exists k :: k in after && after[k].quantity != 0 && SameSymbol(after[k].symbol, result[id].symbol)
    {
      OpenHasPosition(trades, result, before, after, processed, m, id);
    }
  }

  lemma PositionStillMatches(trades: Ledger, result: Ledger, before: Positions, after: Positions,
                             processed: seq<BrokerPosition>, m: int, l: string)
    requires Mirrors(trades, before) && IsDiff(before, after, processed, m) && !Moves(before, after) && l in after
    requires OnePerSymbol(after) && SpelledAlike(before, after)
    requires Settled(trades, result, processed)
    ensures TradeMatches(result, after[l])
  {
    hide SameSymbol, TradesOf, OpenIds, TradeMatches, OnePerSymbol;
    var symbol := after[l].symbol;
    FindLastOfSymbol(processed, symbol);
    if Mentions(processed, symbol) {
      var i :| LastOfSymbol(processed, i, symbol);
      LastIsLastOfOwn(processed, i, symbol);
      LastEntryOf(before, after, processed, m, l, i);
      if i >= m {
        assert IsVanished(before, after, processed[i]);
        assert processed[i].symbol == symbol;
        NoneOpen(result, processed[i], after[l]);
      }
    } else {
      UnmentionedIsUnchanged(before, after, processed, m, l);
      MatchesDependsOnItsSymbol(trades, result, after[l]);
    }
  }

  lemma UnmentionedIsUnchanged(before: Positions, after: Positions, processed: seq<BrokerPosition>, m: int, l: string)
    requires IsDiff(before, after, processed, m) && l in after && !Mentions(processed, after[l].symbol)
    ensures l in before && before[l] == after[l]
  {
    assert !(after[l] in processed[..m]) by {
      assert forall i :: 0 <= i < m ==> processed[..m][i] == processed[i];
      assert SameSymbol(after[l].symbol, after[l].symbol);
    }
  }

  lemma OpenHasPosition(trades: Ledger, result: Ledger, before: Positions, after: Positions,
                        processed: seq<BrokerPosition>, m: int, id: string)
    requires Mirrors(trades, before) && IsDiff(before, after, processed, m) && SpelledAlike(before, after)
    requires Settled(trades, result, processed) && id in result && result[id].status == TradeOpen
    ensures exists k :: k in after && after[k].quantity != 0 && SameSymbol(after[k].symbol, result[id].symbol)
  {
    hide SameSymbol, OpenIds, TradesOf;
    var symbol := result[id].symbol;
    FindLastOfSymbol(processed, symbol);
    if Mentions(processed, symbol) {
      var i :| LastOfSymbol(processed, i, symbol);
      LastIsLastOfOwn(processed, i, symbol);
      IdIsOpen(result, processed[i].symbol, id);
      assert processed[i].quantity != 0;
      assert i >= m ==> IsVanished(before, after, processed[i]);
      assert IsChanged(before, after, processed[i]);
    } else {
      UntouchedId(trades, result, symbol, id);
      var k :| k in before && before[k].quantity != 0 && SameSymbol(before[k].symbol, trades[id].symbol);
      UnmentionedStays(before, after, processed, m, k, symbol);
    }
  }

  lemma UnmentionedStays(before: Positions, after: Positions, processed: seq<BrokerPosition>, m: int, k: string,
                         symbol: string)
    requires IsDiff(before, after, processed, m) && SpelledAlike(before, after)
    requires k in before && SameSymbol(before[k].symbol, symbol) && !Mentions(processed, symbol)
    ensures k in after && after[k] == before[k]
  {
    hide SameSymbol;
    assert !VanishedAt(before, after, k) by {
      assert forall i :: m <= i < |processed| ==> processed[i].symbol != before[k].symbol;
    }
    assert !(after[k] in processed[..m]) by {
      assert forall i :: 0 <= i < m ==> processed[..m][i] == processed[i];
    }
  }

  lemma IdIsOpen(trades: Ledger, symbol: string, id: string)
    requires id in trades && trades[id].status == TradeOpen && SameSymbol(symbol, trades[id].symbol)
    ensures id in OpenIds(trades, symbol)
  {
  }

  lemma UntouchedId(trades: Ledger, result: Ledger, symbol: string, id: string)
    requires TradesOf(result, symbol) == TradesOf(trades, symbol)
    requires id in result && result[id].symbol == symbol
    ensures id in trades && trades[id] == result[id]
  {
    assert id in TradesOf(result, symbol) && id in TradesOf(trades, symbol);
    assert TradesOf(result, symbol)[id] == TradesOf(trades, symbol)[id];
  }
}
