// The ledger mirrors the broker after every sync of every run.
module MirrorLaws {
  import opened Prelude
  import opened MarketTypes
  import opened BrokerTypes
  import opened TradingHistory
  import opened LedgerLaws
  import opened SyncSpec
  import opened SyncLaws

  // ----- what a sync processes is the difference between two position maps

  lemma {:induction false} ChangedPositions(last: PositionMap, positions: seq<BrokerPosition>)
    requires UniquePositions(positions)
    ensures var changed := PositionPass(last, positions).1;
      && (forall p :: p in changed <==> p in positions && Get(last, PositionKey(p)) != Some(p))
      && (forall i, j :: 0 <= i < j < |changed| ==> PositionKey(changed[i]) != PositionKey(changed[j]))
  {
    hide PositionKey, PositionKeys, PutPositions, PositionPass;
    PositionPassUnfolds(last, positions);
    if positions != [] {
      var n := |positions| - 1;
      var p := positions[n];
      ChangedPositions(last, positions[..n]);
      var (before, changed) := PositionPass(last, positions[..n]);
      PositionPassPuts(last, positions[..n]);
      NotYetSeen(positions);
      PutPositionsFrame(last, positions[..n], PositionKey(p));
      assert Get(before, PositionKey(p)) == Get(last, PositionKey(p));
      ExtendChanged(last, positions[..n], changed, p);
      assert positions == positions[..n] + [p];
    }
  }

  lemma PositionPassUnfolds(last: PositionMap, positions: seq<BrokerPosition>)
    ensures positions == [] ==> PositionPass(last, positions) == (last, [])
    ensures positions != [] ==>
      var n := |positions| - 1;
      var (before, changed) := PositionPass(last, positions[..n]);
      PositionPass(last, positions).1
      == if Get(before, PositionKey(positions[n])) == Some(positions[n]) then changed else changed + [positions[n]]
  {
    hide PositionKey;
  }

  /** One more position, under a key not seen before: it is changed if it differs from what was remembered. */
  lemma ExtendChanged(last: PositionMap, prefix: seq<BrokerPosition>, changed: seq<BrokerPosition>, p: BrokerPosition)
    requires forall q :: q in changed <==> q in prefix && Get(last, PositionKey(q)) != Some(q)
    requires forall i, j :: 0 <= i < j < |changed| ==> PositionKey(changed[i]) != PositionKey(changed[j])
    requires PositionKey(p) !in PositionKeys(prefix)
    ensures var more := if Get(last, PositionKey(p)) == Some(p) then changed else changed + [p];
      && (forall q :: q in more <==> q in prefix + [p] && Get(last, PositionKey(q)) != Some(q))
      && (forall i, j :: 0 <= i < j < |more| ==> PositionKey(more[i]) != PositionKey(more[j]))
  {
    hide PositionKey, Get;
    forall i | 0 <= i < |changed| ensures PositionKey(changed[i]) != PositionKey(p) {
      assert changed[i] in changed && changed[i] in prefix;
      var j :| 0 <= j < |prefix| && prefix[j] == changed[i];
    }
  }

  lemma NotYetSeen(positions: seq<BrokerPosition>)
    requires UniquePositions(positions) && positions != []
    ensures PositionKey(positions[|positions| - 1]) !in PositionKeys(positions[..|positions| - 1])
  {
    hide PositionKey;
    var n := |positions| - 1;
    forall i | 0 <= i < n ensures PositionKey(positions[..n][i]) != PositionKey(positions[n]) {
      assert positions[..n][i] == positions[i];
    }
  }

  lemma {:induction false} FlattenedAt(last: PositionMap, keys: seq<string>, now: Time, i: int)
    requires forall k :: k in keys ==> k in last
    ensures |FlattenAll(last, keys, now)| == |keys|
    ensures 0 <= i < |keys| ==> keys[i] in keys && FlattenAll(last, keys, now)[i] == Flattened(last[keys[i]], now)
  {
    if keys != [] {
      assert forall k :: k in keys[..|keys| - 1] ==> k in keys;
      FlattenedAt(last, keys[..|keys| - 1], now, i);
    }
  }

  /** Which symbol each position key stands for. */
  type Names = map<string, string>

  /** No symbol is spelled in two ways. */
  ghost predicate OneSpelling(names: Names) {
    forall k, l :: k in names && l in names && SameSymbol(names[k], names[l]) ==> names[k] == names[l]
  }

  /** A listing with at most one entry per symbol, each under a key that stands for its symbol. */
  ghost predicate GoodListing(positions: seq<BrokerPosition>, names: Names) {
    && (forall i :: 0 <= i < |positions| ==>
          PositionKey(positions[i]) in names && names[PositionKey(positions[i])] == positions[i].symbol)
    && forall i, j :: 0 <= i < j < |positions| ==> !SameSymbol(positions[i].symbol, positions[j].symbol)
  }

  /** A symbol that is still held lost one of its keys: its position moved from one account to another. */
  ghost predicate ListingMoves(before: seq<BrokerPosition>, after: seq<BrokerPosition>) {
    exists i, j :: 0 <= i < |before| && 0 <= j < |after| && PositionKey(before[i]) !in PositionKeys(after)
                   && after[j].quantity != 0 && SameSymbol(before[i].symbol, after[j].symbol)
  }

  lemma GoodListingsAreUnique(positions: seq<BrokerPosition>, names: Names)
    requires GoodListing(positions, names)
    ensures UniquePositions(positions)
  {
    hide PositionKey, FoldCase;
  }

  lemma ListedAt(m: PositionMap, positions: seq<BrokerPosition>, k: string) returns (i: int)
    requires IsPositionMap(m, positions) && k in m
    ensures 0 <= i < |positions| && PositionKey(positions[i]) == k && m[k] == positions[i]
  {
    hide PositionKey;
    i :| 0 <= i < |positions| && PositionKey(positions[i]) == k;
  }

  /** The map of a good listing: own keys, one entry per symbol, spelled as named. */
  lemma GoodListingMap(m: PositionMap, positions: seq<BrokerPosition>, names: Names)
    requires IsPositionMap(m, positions) && GoodListing(positions, names)
    ensures OnePerSymbol(m)
    ensures forall k :: k in m ==> PositionKey(m[k]) == k && k in names && names[k] == m[k].symbol
  {
    hide PositionKey, SameSymbol;
    forall k | k in m ensures PositionKey(m[k]) == k && k in names && names[k] == m[k].symbol {
      var i := ListedAt(m, positions, k);
    }
    forall k, l | k in m && l in m && SameSymbol(m[k].symbol, m[l].symbol) ensures k == l {
      var i := ListedAt(m, positions, k);
      var j := ListedAt(m, positions, l);
      SameSymbolSymmetric(m[k].symbol, m[l].symbol);
    }
  }

  lemma NamedMapsSpellAlike(a: PositionMap, b: PositionMap, names: Names)
    requires OneSpelling(names)
    requires forall k :: k in a ==> k in names && names[k] == a[k].symbol
    requires forall k :: k in b ==> k in names && names[k] == b[k].symbol
    ensures SpelledAlike(a, b)
  {
    hide SameSymbol;
  }

  /** Moves between listings are moves between their maps. */
  lemma ListingMovesAreMoves(a: PositionMap, b: PositionMap, before: seq<BrokerPosition>, after: seq<BrokerPosition>)
    requires IsPositionMap(a, before) && IsPositionMap(b, after)
    ensures ListingMoves(before, after) <==> Moves(a, b)
  {
    hide PositionKey, SameSymbol;
    if i, j :| 0 <= i < |before| && 0 <= j < |after| && PositionKey(before[i]) !in PositionKeys(after)
               && after[j].quantity != 0 && SameSymbol(before[i].symbol, after[j].symbol)
    {
      var k, l := PositionKey(before[i]), PositionKey(after[j]);
      assert VanishedAt(a, b, k) && l in b;
    }
    if k, l :| VanishedAt(a, b, k) && l in b && b[l].quantity != 0 && SameSymbol(a[k].symbol, b[l].symbol) {
      var i := ListedAt(a, before, k);
      var j := ListedAt(b, after, l);
    }
  }

  /** The positions handed to the ledger in one sync. */
  ghost function Processed(last: PositionMap, positions: seq<BrokerPosition>, now: Time): seq<BrokerPosition> {
    var (after, changed) := PositionPass(last, positions);
    changed + FlattenAll(after, InOrder(after.Keys - PositionKeys(positions)), now)
  }

  lemma GoneKeys(last: PositionMap, positions: seq<BrokerPosition>, k: string)
    requires UniquePositions(positions)
    ensures var after := PositionPass(last, positions).0;
      && (k in after.Keys - PositionKeys(positions) <==> k in last && k !in PositionKeys(positions))
      && (k in last && k !in PositionKeys(positions) ==> after[k] == last[k])
  {
    hide PositionPass, PutPositions;
    PositionPassPuts(last, positions);
    PutPositionsHolds(last, positions, -1);
    if k !in PositionKeys(positions) {
      PutPositionsFrame(last, positions, k);
    }
  }

  /** The i-th processed position: a changed one of the snapshot, or a vanished one, now flat. */
  lemma ProcessedAt(last: PositionMap, after: PositionMap, positions: seq<BrokerPosition>, now: Time, i: int)
    requires UniquePositions(positions) && IsPositionMap(after, positions)
    requires 0 <= i < |Processed(last, positions, now)|
    ensures var changed := PositionPass(last, positions).1;
      var gone := InOrder(PositionPass(last, positions).0.Keys - PositionKeys(positions));
      var p := Processed(last, positions, now)[i];
      && |Processed(last, positions, now)| == |changed| + |gone|
      && (i < |changed| ==> p == changed[i] && PositionKey(p) in after && after[PositionKey(p)] == p
                            && Get(last, PositionKey(p)) != Some(p))
      && (i >= |changed| ==>
            var k := gone[i - |changed|];
            k in last && k !in after && p == Flattened(last[k], now))
  {
    hide PositionPass, InOrder, PositionKey;
    var (map', changed) := PositionPass(last, positions);
    var gone := InOrder(map'.Keys - PositionKeys(positions));
    ChangedPositions(last, positions);
    FlattenedAt(map', gone, now, i - |changed|);
    if i < |changed| {
      assert changed[i] in changed;
      var j :| 0 <= j < |positions| && positions[j] == changed[i];
    } else {
      GoneKeys(last, positions, gone[i - |changed|]);
    }
  }

  lemma ProcessedIsDiff(last: PositionMap, after: PositionMap, positions: seq<BrokerPosition>, now: Time)
    requires UniquePositions(positions) && IsPositionMap(after, positions)
    requires forall k :: k in after ==> PositionKey(after[k]) == k
    ensures IsDiff(last, after, Processed(last, positions, now), |PositionPass(last, positions).1|)
  {
    hide PositionPass, InOrder, PositionKey, IsPositionMap, Processed;
    var processed := Processed(last, positions, now);
    var (map', changed) := PositionPass(last, positions);
    var gone := InOrder(map'.Keys - PositionKeys(positions));
    ProcessedLength(last, after, positions, now);
    forall i | 0 <= i < |changed| ensures IsChanged(last, after, processed[i]) {
      ProcessedAt(last, after, positions, now, i);
      assert ChangedAt(last, after, PositionKey(processed[i]));
    }
    forall i | |changed| <= i < |processed| ensures IsVanished(last, after, processed[i]) {
      ProcessedAt(last, after, positions, now, i);
      assert VanishedAt(last, after, gone[i - |changed|]);
    }
    forall k | ChangedAt(last, after, k) ensures after[k] in processed[..|changed|] {
      ChangedIsProcessed(last, after, positions, now, k);
    }
    forall k | VanishedAt(last, after, k)
      ensures exists i :: |changed| <= i < |processed| && processed[i].symbol == last[k].symbol
    {
      VanishedIsProcessed(last, after, positions, now, k);
    }
  }

  lemma ProcessedLength(last: PositionMap, after: PositionMap, positions: seq<BrokerPosition>, now: Time)
    requires UniquePositions(positions) && IsPositionMap(after, positions)
    ensures var (map', changed) := PositionPass(last, positions);
      |Processed(last, positions, now)| == |changed| + |InOrder(map'.Keys - PositionKeys(positions))|
  {
    hide PositionPass, InOrder, PositionKey;
    var map' := PositionPass(last, positions).0;
    FlattenedAt(map', InOrder(map'.Keys - PositionKeys(positions)), now, -1);
  }

  lemma ChangedIsProcessed(last: PositionMap, after: PositionMap, positions: seq<BrokerPosition>, now: Time, k: string)
    requires UniquePositions(positions) && IsPositionMap(after, positions) && ChangedAt(last, after, k)
    ensures after[k] in Processed(last, positions, now)[..|PositionPass(last, positions).1|]
  {
    hide PositionPass, InOrder, PositionKey;
    var changed := PositionPass(last, positions).1;
    ChangedPositions(last, positions);
    var j := ListedAt(after, positions, k);
    assert after[k] in changed;
    assert Processed(last, positions, now)[..|changed|] == changed;
  }

  lemma VanishedIsProcessed(last: PositionMap, after: PositionMap, positions: seq<BrokerPosition>, now: Time, k: string)
    requires UniquePositions(positions) && IsPositionMap(after, positions) && VanishedAt(last, after, k)
    ensures exists i :: |PositionPass(last, positions).1| <= i < |Processed(last, positions, now)|
                        && Processed(last, positions, now)[i].symbol == last[k].symbol
  {
    hide PositionPass, InOrder, PositionKey;
    var (map', changed) := PositionPass(last, positions);
    var gone := InOrder(map'.Keys - PositionKeys(positions));
    GoneKeys(last, positions, k);
    var j :| 0 <= j < |gone| && gone[j] == k;
    FlattenedAt(map', gone, now, j);
    assert Processed(last, positions, now)[|changed| + j] == Flattened(last[k], now);
  }

  // ----- every sync of every run

  /** The ledger holds exactly the listed positions: each one its trade, and no other trade open. */
  ghost predicate MirrorsListing(trades: Ledger, positions: seq<BrokerPosition>) {
    && (forall i :: 0 <= i < |positions| ==> TradeMatches(trades, positions[i]))
    && (forall id :: id in trades && trades[id].status == TradeOpen ==>
          exists i :: 0 <= i < |positions| && positions[i].quantity != 0
                      && SameSymbol(positions[i].symbol, trades[id].symbol))
  }

  lemma MapMirrorsListing(trades: Ledger, m: PositionMap, positions: seq<BrokerPosition>)
    requires IsPositionMap(m, positions)
    ensures Mirrors(trades, m) <==> MirrorsListing(trades, positions)
  {
    hide PositionKey, TradeMatches, SameSymbol;
    if Mirrors(trades, m) {
      forall i | 0 <= i < |positions| ensures TradeMatches(trades, positions[i]) {
        assert m[PositionKey(positions[i])] == positions[i];
      }
      forall id | id in trades && trades[id].status == TradeOpen
        ensures exists i :: 0 <= i < |positions| && positions[i].quantity != 0
                            && SameSymbol(positions[i].symbol, trades[id].symbol)
      {
        var k :| k in m && m[k].quantity != 0 && SameSymbol(m[k].symbol, trades[id].symbol);
        var i := ListedAt(m, positions, k);
      }
    }
    if MirrorsListing(trades, positions) {
      forall k | k in m ensures TradeMatches(trades, m[k]) {
        var i := ListedAt(m, positions, k);
      }
      forall id | id in trades && trades[id].status == TradeOpen
        ensures exists k :: k in m && m[k].quantity != 0 && SameSymbol(m[k].symbol, trades[id].symbol)
      {
        var i :| 0 <= i < |positions| && positions[i].quantity != 0
          && SameSymbol(positions[i].symbol, trades[id].symbol);
        assert m[PositionKey(positions[i])] == positions[i];
      }
    }
  }

  /** What a sync remembers and what it feeds to the ledger, apart from everything else it does. */
  lemma SyncPositions(s: RecorderState, snap: BrokerSnapshot, now: Time)
    requires UniquePositions(snap.positions)
    ensures var after := Sync(s, snap, now).0;
      && IsPositionMap(after.lastPositions, snap.positions)
      && after.history.trades
           == SyncTrades(s.history.trades, after.history.fills, Processed(s.lastPositions, snap.positions, now),
                         s.context, now).0
  {
    hide OrderPass, FillPass, PositionPass, FinalRecords, InOrder, SyncTrades;
    hide PnlOf, FlattenAll, PutPositions, Restrict;
    PositionPassPuts(s.lastPositions, snap.positions);
    RestrictedPositions(s.lastPositions, snap.positions);
  }

  /** The recorder remembers a good listing and its ledger mirrors it. */
  ghost predicate MirrorInv(s: RecorderState, listed: seq<BrokerPosition>, names: Names) {
    && Sound(s.history.trades) && GoodListing(listed, names) && IsPositionMap(s.lastPositions, listed)
    && MirrorsListing(s.history.trades, listed)
  }

  /** From a mirrored state, a sync mirrors its own listing exactly if no position moves between accounts. */
  lemma SyncMirrors(s: RecorderState, listed: seq<BrokerPosition>, snap: BrokerSnapshot, now: Time, names: Names)
    requires MirrorInv(s, listed, names) && OneSpelling(names) && now >= 0 && GoodListing(snap.positions, names)
    ensures var after := Sync(s, snap, now).0;
      && Sound(after.history.trades) && IsPositionMap(after.lastPositions, snap.positions)
      && (MirrorsListing(after.history.trades, snap.positions) <==> !ListingMoves(listed, snap.positions))
  {
    hide Sync, Sound, Mirrors, MirrorsListing, SyncTrades, Processed, GoodListing;
    hide SpelledAlike, IsDiff, ListingMoves, Moves;
    hide IsPositionMap, OneSpelling, PositionKey, OnePerSymbol, PositionPass;
    var after := Sync(s, snap, now).0;
    GoodListingsAreUnique(snap.positions, names);
    SyncPositions(s, snap, now);
    var a, b := s.lastPositions, after.lastPositions;
    GoodListingMap(a, listed, names);
    GoodListingMap(b, snap.positions, names);
    NamedMapsSpellAlike(a, a, names);
    NamedMapsSpellAlike(a, b, names);
    NamedMapsSpellAlike(b, b, names);
    MapMirrorsListing(s.history.trades, a, listed);
    MapMirrorsListing(after.history.trades, b, snap.positions);
    ListingMovesAreMoves(a, b, listed, snap.positions);
    ProcessedIsDiff(a, b, snap.positions, now);
    DiffMirrors(s.history.trades, after.history.fills, a, b, Processed(a, snap.positions, now),
                |PositionPass(a, snap.positions).1|, s.context, now);
  }

  /** The positions of the latest sync. */
  function Listed(ops: seq<RecorderOp>): seq<BrokerPosition> {
    if ops == [] then []
    else
      match ops[|ops| - 1]
      case SyncOp(snapshot, _) => snapshot.positions
      case _ => Listed(ops[..|ops| - 1])
  }

  /** Canonical keys and spelling, at most one entry per symbol in each snapshot, times after the epoch. */
  ghost predicate GoodRun(ops: seq<RecorderOp>, names: Names) {
    && OneSpelling(names)
    && forall i :: 0 <= i < |ops| && ops[i].SyncOp? ==> ops[i].now >= 0 && GoodListing(ops[i].snapshot.positions, names)
  }

  /** No sync of the run sees a position move between accounts. */
  ghost predicate NeverMoves(ops: seq<RecorderOp>) {
    ops == []
    || (var n := |ops| - 1;
        NeverMoves(ops[..n]) && (ops[n].SyncOp? ==> !ListingMoves(Listed(ops[..n]), ops[n].snapshot.positions)))
  }

  lemma {:induction false} RunKeepsMirror(ops: seq<RecorderOp>, names: Names)
    requires GoodRun(ops, names) && NeverMoves(ops)
    ensures MirrorInv(RecorderRun(ops), Listed(ops), names)
  {
    hide Sync, MirrorInv, OneSpelling, GoodListing, ListingMoves;
    if ops == [] {
      FreshMirrors(names);
    } else {
      var n := |ops| - 1;
      RunKeepsMirror(ops[..n], names);
      var s, listed := RecorderRun(ops[..n]), Listed(ops[..n]);
      match ops[n]
      case SyncOp(snap, now) =>
        SyncMirrors(s, listed, snap, now, names);
        MirrorInvHolds(Sync(s, snap, now).0, snap.positions, names);
      case SubmissionOp(_) => SameTradesAndPositions(s, RecorderRun(ops), listed, names);
      case RunOp(_) => SameTradesAndPositions(s, RecorderRun(ops), listed, names);
    }
  }

  lemma MirrorInvHolds(s: RecorderState, listed: seq<BrokerPosition>, names: Names)
    requires Sound(s.history.trades) && GoodListing(listed, names) && IsPositionMap(s.lastPositions, listed)
    requires MirrorsListing(s.history.trades, listed)
    ensures MirrorInv(s, listed, names)
  {
  }

  lemma SameTradesAndPositions(s: RecorderState, after: RecorderState, listed: seq<BrokerPosition>, names: Names)
    requires MirrorInv(s, listed, names)
    requires after.history.trades == s.history.trades && after.lastPositions == s.lastPositions
    ensures MirrorInv(after, listed, names)
  {
  }

  lemma FreshMirrors(names: Names)
    ensures MirrorInv(FreshRecorder(), [], names)
  {
  }

  /**
   * The ledger mirrors the broker. In any run of a fresh recorder, whatever the accounts, the latest sync leaves
   * each non-zero position with exactly one open trade of its symbol, side and size, each flat one without, and no
   * other trade open, as long as no sync before saw a position move between accounts: exactly if this one does
   * not either.
   */
  lemma LedgerMirrorsBroker(ops: seq<RecorderOp>, names: Names)
    requires GoodRun(ops, names) && ops != [] && ops[|ops| - 1].SyncOp?
    requires NeverMoves(ops[..|ops| - 1])
    ensures var positions := ops[|ops| - 1].snapshot.positions;
      MirrorsListing(RecorderRun(ops).history.trades, positions)
      <==> !ListingMoves(Listed(ops[..|ops| - 1]), positions)
  {
    hide Sync, MirrorInv, OneSpelling, GoodListing, ListingMoves, MirrorsListing;
    var n := |ops| - 1;
    RunKeepsMirror(ops[..n], names);
    SyncMirrors(RecorderRun(ops[..n]), Listed(ops[..n]), ops[n].snapshot, ops[n].now, names);
  }

  /** Within one account nothing moves. */
  lemma OneAccountNeverMoves(before: seq<BrokerPosition>, after: seq<BrokerPosition>, names: Names)
    requires GoodListing(before, names) && GoodListing(after, names) && OneSpelling(names)
    requires forall i, j :: 0 <= i < |before| && 0 <= j < |after| ==> before[i].accountId == after[j].accountId
    ensures !ListingMoves(before, after)
  {
    hide SameSymbol;
    forall i, j | 0 <= i < |before| && 0 <= j < |after| && SameSymbol(before[i].symbol, after[j].symbol)
      ensures PositionKey(before[i]) in PositionKeys(after)
    {
      assert before[i].symbol == after[j].symbol;
      assert PositionKey(before[i]) == PositionKey(after[j]);
    }
  }

  /**
   * Moves do lose trades: the same symbol held in one account and at the next sync in another. The new position
   * adopts the open trade, the vanished one closes it, and the open position is left without a trade.
   */
  lemma AccountSwitchLosesTrade(held: BrokerPosition, moved: BrokerPosition, first: BrokerSnapshot,
                                second: BrokerSnapshot,
                                t: Time, u: Time)
    requires first.positions == [held] && second.positions == [moved] && t >= 0 && u >= 0
    requires moved.symbol == held.symbol && moved.quantity != 0 && PositionKey(moved) != PositionKey(held)
    ensures MirrorsListing(RecorderRun([SyncOp(first, t)]).history.trades, [held])
    ensures !MirrorsListing(RecorderRun([SyncOp(first, t), SyncOp(second, u)]).history.trades, [moved])
  {
    hide Sync, PositionKey, SameSymbol, MirrorsListing, RecorderRun;
    var one, two := [SyncOp(first, t)], [SyncOp(first, t), SyncOp(second, u)];
    assert two[..1] == one && one[..0] == [];
    var names: Names := map[PositionKey(held) := held.symbol, PositionKey(moved) := moved.symbol];
    SymbolIsItself(held.symbol);
    assert GoodListing([held], names) && GoodListing([moved], names);
    assert GoodRun(one, names) && GoodRun(two, names);
    assert !ListingMoves([], [held]);
    LedgerMirrorsBroker(one, names);
    LedgerMirrorsBroker(two, names);
    assert PositionKey(held) !in PositionKeys([moved]);
    var before, after := [held], [moved];
    assert after[0].quantity != 0 && SameSymbol(before[0].symbol, after[0].symbol);
    assert ListingMoves(before, after);
  }

  lemma SymbolIsItself(a: string)
    ensures SameSymbol(a, a)
  {
  }
}
