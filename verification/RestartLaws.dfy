// The trade ledger after a restart: the recorder has its history back, and has forgotten what it saw of the broker.
module RestartLaws {
  import opened MarketTypes
  import opened BrokerTypes
  import opened TradingHistory
  import opened LedgerLaws
  import opened SyncSpec
  import opened SyncLaws
  import opened MirrorLaws
  import opened FillLaws

  /** Every position held before is listed again, held or flat, under whatever account. */
  ghost predicate StillListed(before: seq<BrokerPosition>, after: seq<BrokerPosition>) {
    forall i :: 0 <= i < |before| && before[i].quantity != 0 ==> Mentions(after, before[i].symbol)
  }

  /** With nothing remembered, a sync processes exactly the listing. */
  lemma AllProcessed(positions: seq<BrokerPosition>, b: PositionMap, processed: seq<BrokerPosition>, m: int,
                     symbol: string)
    requires IsPositionMap(b, positions) && IsDiff(map[], b, processed, m)
    ensures Mentions(processed, symbol) <==> Mentions(positions, symbol)
    ensures m == |processed|
  {
    hide SameSymbol, PositionKey;
    var none: Positions := map[];
    assert m < |processed| ==> IsVanished(none, b, processed[m]);
    if i :| 0 <= i < |positions| && SameSymbol(positions[i].symbol, symbol) {
      assert ChangedAt(none, b, PositionKey(positions[i]));
      var j :| 0 <= j < m && processed[j] == positions[i];
    }
    if i :| 0 <= i < |processed| && SameSymbol(processed[i].symbol, symbol) {
      assert IsChanged(none, b, processed[i]);
      var k :| ChangedAt(none, b, k) && processed[i] == b[k];
      var j := ListedAt(b, positions, k);
    }
  }

  /** Each listed position settles its symbol. */
  lemma ListedSettle(positions: seq<BrokerPosition>, b: PositionMap, processed: seq<BrokerPosition>, m: int,
                     trades: Ledger, result: Ledger, j: int)
    requires IsPositionMap(b, positions) && OnePerSymbol(b) && IsDiff(map[], b, processed, m)
    requires Settled(trades, result, processed) && 0 <= j < |positions|
    ensures TradeMatches(result, positions[j])
  {
    hide SameSymbol, PositionKey, TradeMatches, TradesOf;
    var p := positions[j];
    SymbolIsItself(p.symbol);
    AllProcessed(positions, b, processed, m, p.symbol);
    assert Mentions(positions, p.symbol);
    FindLastOfSymbol(processed, p.symbol);
    var i :| LastOfSymbol(processed, i, p.symbol);
    LastIsLastOfOwn(processed, i, p.symbol);
    LastEntryOf(map[], b, processed, m, PositionKey(p), i);
  }

  /**
   * The first sync after a restart, for any ledger with at most one open trade per listed symbol: it mirrors its
   * listing exactly if the symbol of every open trade is listed. A trade of an unlisted symbol stays open.
   */
  lemma FirstSyncMirrors(history: History, context: RunContext, snap: BrokerSnapshot, now: Time, names: Names)
    requires Sound(history.trades) && now >= 0 && GoodListing(snap.positions, names) && OneSpelling(names)
    requires forall i :: 0 <= i < |snap.positions| ==> Ready(history.trades, snap.positions[i])
    ensures var after := Sync(RebuiltRecorder(history, context), snap, now).0.history.trades;
      MirrorsListing(after, snap.positions)
      <==> forall id :: id in OpenTrades(history.trades) ==> Mentions(snap.positions, history.trades[id].symbol)
  {
    hide Sync, SyncTrades, Processed, IsDiff, PositionPass, Sound, Ready;
    hide TradesOf, TradeMatches, OnePerSymbol, PositionKey;
    hide SameSymbol, LastOfSymbol;
    var s, positions := RebuiltRecorder(history, context), snap.positions;
    var after := Sync(s, snap, now).0;
    GoodListingsAreUnique(positions, names);
    SyncPositions(s, snap, now);
    var none: PositionMap, b := map[], after.lastPositions;
    GoodListingMap(b, positions, names);
    ProcessedIsDiff(none, b, positions, now);
    var processed, m := Processed(none, positions, now), |PositionPass(none, positions).1|;
    ProcessedOfListing(positions, b, processed, m, history.trades, names);
    SyncTradesSettle(history.trades, after.history.fills, processed, context, now);
    assert Settled(history.trades, after.history.trades, processed);
    forall j | 0 <= j < |positions| ensures TradeMatches(after.history.trades, positions[j]) {
      ListedSettle(positions, b, processed, m, history.trades, after.history.trades, j);
    }
    forall symbol ensures Mentions(processed, symbol) <==> Mentions(positions, symbol) {
      AllProcessed(positions, b, processed, m, symbol);
    }
    OpenAfterwards(history.trades, after.history.trades, positions);
  }

  function OpenTrades(trades: Ledger): set<string> {
    set id | id in trades && trades[id].status == TradeOpen
  }

  lemma ProcessedOfListing(positions: seq<BrokerPosition>, b: PositionMap, processed: seq<BrokerPosition>, m: int,
                           trades: Ledger, names: Names)
    requires IsPositionMap(b, positions) && GoodListing(positions, names) && OneSpelling(names)
    requires IsDiff(map[], b, processed, m)
    requires forall i :: 0 <= i < |positions| ==> Ready(trades, positions[i])
    ensures SpelledOneWay(processed) && forall i :: 0 <= i < |processed| ==> Ready(trades, processed[i])
  {
    hide SameSymbol, PositionKey, Ready;
    var none: Positions := map[];
    AllProcessed(positions, b, processed, m, "");
    forall i | 0 <= i < |processed| ensures processed[i] in positions {
      assert IsChanged(none, b, processed[i]);
      var k :| ChangedAt(none, b, k) && processed[i] == b[k];
      var j := ListedAt(b, positions, k);
    }
  }

  /** Once every listed symbol is settled, what decides is whether some open trade was not touched. */
  lemma OpenAfterwards(trades: Ledger, result: Ledger, positions: seq<BrokerPosition>)
    requires forall j :: 0 <= j < |positions| ==> TradeMatches(result, positions[j])
    requires forall symbol :: !Mentions(positions, symbol) ==> TradesOf(result, symbol) == TradesOf(trades, symbol)
    ensures MirrorsListing(result, positions)
       <==> forall id :: id in OpenTrades(trades) ==> Mentions(positions, trades[id].symbol)
  {
    hide SameSymbol, TradesOf, TradeMatches;
    if MirrorsListing(result, positions) {
      forall id | id in OpenTrades(trades) ensures Mentions(positions, trades[id].symbol) {
        if !Mentions(positions, trades[id].symbol) {
          UntouchedId(result, trades, trades[id].symbol, id);
        }
      }
    }
    if forall id :: id in OpenTrades(trades) ==> Mentions(positions, trades[id].symbol) {
      forall id | id in result && result[id].status == TradeOpen
        ensures exists i :: 0 <= i < |positions| && positions[i].quantity != 0
                            && SameSymbol(positions[i].symbol, result[id].symbol)
      {
        var symbol := result[id].symbol;
        if !Mentions(positions, symbol) {
          UntouchedId(trades, result, symbol, id);
        }
        var i :| 0 <= i < |positions| && SameSymbol(positions[i].symbol, symbol);
        IdIsOpen(result, positions[i].symbol, id);
        FlatHasNone(result, positions[i]);
      }
    }
  }

  lemma FlatHasNone(trades: Ledger, p: BrokerPosition)
    requires TradeMatches(trades, p)
    ensures p.quantity == 0 ==> OpenIds(trades, p.symbol) == {}
  {
  }

  /**
   * A restart in a run that mirrors the broker: the first sync afterwards mirrors its listing exactly if it lists
   * every position held before. The trade of a position that vanished meanwhile stays open.
   */
  lemma RestartMirrors(ops: seq<RecorderOp>, context: RunContext, snap: BrokerSnapshot, now: Time, names: Names)
    requires GoodRun(ops, names) && NeverMoves(ops) && now >= 0 && GoodListing(snap.positions, names)
    ensures var after := Sync(RebuiltRecorder(RecorderRun(ops).history, context), snap, now).0.history.trades;
      MirrorsListing(after, snap.positions) <==> StillListed(Listed(ops), snap.positions)
  {
    hide RecorderRun, Sync, Listed, IsPositionMap, Sound, Mentions, TradeMatches;
    RunKeepsMirror(ops, names);
    var h, listed := RecorderRun(ops).history, Listed(ops);
    forall i | 0 <= i < |snap.positions| ensures Ready(h.trades, snap.positions[i]) {
      ReadyForListing(h.trades, listed, snap.positions, names, i);
    }
    FirstSyncMirrors(h, context, snap, now, names);
    OpenAreHeld(h.trades, listed, snap.positions);
  }

  lemma ReadyForListing(trades: Ledger, listed: seq<BrokerPosition>, positions: seq<BrokerPosition>, names: Names,
                        i: int)
    requires MirrorsListing(trades, listed) && GoodListing(listed, names) && GoodListing(positions, names)
    requires OneSpelling(names) && 0 <= i < |positions|
    ensures Ready(trades, positions[i])
  {
    hide SameSymbol, OpenIds, PositionKey;
    var p := positions[i];
    forall id | id in OpenIds(trades, p.symbol)
      ensures id in trades && trades[id].symbol == p.symbol && OpenIds(trades, p.symbol) == {id}
    {
      OpenIdFacts(trades, p.symbol, id);
      var j :| 0 <= j < |listed| && listed[j].quantity != 0 && SameSymbol(listed[j].symbol, trades[id].symbol);
      SameSymbolTransitive(listed[j].symbol, trades[id].symbol, p.symbol);
      assert listed[j].symbol == p.symbol;
      assert TradeMatches(trades, listed[j]);
      var only :| IsOnlyOpen(trades, only, listed[j]);
    }
  }

  lemma OpenAreHeld(trades: Ledger, listed: seq<BrokerPosition>, positions: seq<BrokerPosition>)
    requires MirrorsListing(trades, listed)
    ensures (forall id :: id in OpenTrades(trades) ==> Mentions(positions, trades[id].symbol))
       <==> StillListed(listed, positions)
  {
    hide SameSymbol, OpenIds;
    if forall id :: id in OpenTrades(trades) ==> Mentions(positions, trades[id].symbol) {
      forall i | 0 <= i < |listed| && listed[i].quantity != 0 ensures Mentions(positions, listed[i].symbol) {
        assert TradeMatches(trades, listed[i]);
        var only :| IsOnlyOpen(trades, only, listed[i]);
        assert only in OpenIds(trades, listed[i].symbol);
        OpenIdFacts(trades, listed[i].symbol, only);
      }
    }
    if StillListed(listed, positions) {
      forall id | id in OpenTrades(trades) ensures Mentions(positions, trades[id].symbol) {
        var i :| 0 <= i < |listed| && listed[i].quantity != 0 && SameSymbol(listed[i].symbol, trades[id].symbol);
        var j :| 0 <= j < |positions| && SameSymbol(positions[j].symbol, listed[i].symbol);
        SameSymbolTransitive(positions[j].symbol, listed[i].symbol, trades[id].symbol);
      }
    }
  }
}
