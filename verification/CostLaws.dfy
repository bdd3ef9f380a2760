// Closed-trade accounting: what a closed trade is charged, that closed trades are final, and when the
// costs of all closed trades stay within the recorded fills.
module CostLaws {
  import opened Prelude
  import opened MarketTypes
  import opened BrokerTypes
  import opened TradingHistory
  import opened LedgerLaws
  import opened SyncSpec
  import opened FillLaws

  // ----- every closed trade is the sum of the fills in its window

  ghost predicate ChargedBy(t: TradeSummary, fills: Fills, ids: set<string>) {
    && ids <= fills.Keys && t.closedAt.Some?
    && (forall id :: id in ids ==> Chargeable(fills[id], t.symbol, t.openedAt, t.closedAt.value))
    && t.fees == SumOn(ids, FeeOf(fills)) && t.commissions == SumOn(ids, CommissionOf(fills))
    && t.netPnl == t.grossPnl - t.fees - t.commissions && t.slippage == 0
  }

  ghost predicate Accounted(t: TradeSummary, fills: Fills) {
    t.status == TradeClosed ==> exists ids :: ChargedBy(t, fills, ids)
  }

  ghost predicate AllAccounted(trades: Ledger, fills: Fills) {
    forall id :: id in trades ==> Accounted(trades[id], fills)
  }

  /** Recorded fills are never altered: later maps only add to earlier ones. */
  ghost predicate Extends(fills: Fills, more: Fills) {
    forall id :: id in fills ==> id in more && more[id] == fills[id]
  }

  lemma AccountedExtends(t: TradeSummary, fills: Fills, more: Fills)
    requires Accounted(t, fills) && Extends(fills, more)
    ensures Accounted(t, more)
  {
    hide SumOn, SameSymbol;
    if t.status == TradeClosed {
      var ids :| ChargedBy(t, fills, ids);
      SumOnSame(ids, FeeOf(fills), FeeOf(more));
      SumOnSame(ids, CommissionOf(fills), CommissionOf(more));
      assert ChargedBy(t, more, ids);
    }
  }

  /** Closing charges exactly the symbol's fills between opening and closing, and nets them off the gross result. */
  lemma CloseIsAccounted(record: TradeSummary, fills: Fills, p: BrokerPosition, now: Time)
    ensures ChargedBy(ClosedTrade(record, fills, p, now), fills,
                      ChargedFills(fills, record.symbol, record.openedAt, now))
    ensures Accounted(ClosedTrade(record, fills, p, now), fills)
  {
    hide SumOn, SameSymbol, ExitPrice;
    assert ChargedBy(ClosedTrade(record, fills, p, now), fills,
                     ChargedFills(fills, record.symbol, record.openedAt, now));
  }

  lemma {:induction false} SyncTradeAccounted(
    trades: Ledger, fills: Fills, p: BrokerPosition, context: RunContext, now: Time)
    requires AllAccounted(trades, fills)
    ensures AllAccounted(SyncTrade(trades, fills, p, context, now).0, fills)
    decreases |StaleIds(trades, p)|
  {
    hide ChargedBy, ClosedTrade, TradeIdFor, SameSymbol;
    match FindOpen(trades, p.symbol)
    case None =>
    case Some(id) =>
      CloseIsAccounted(trades[id], fills, p, now);
      if SideOf(p.quantity).Some? && SideOf(p.quantity) != Some(trades[id].side) {
        StaleOpen(trades, p, id);
        CloseShrinksStale(trades, fills, p, id, now);
        SyncTradeAccounted(trades[id := ClosedTrade(trades[id], fills, p, now)], fills, p, context, now);
      }
  }

  lemma {:induction false} SyncTradesAccounted(
    trades: Ledger, fills: Fills, positions: seq<BrokerPosition>, context: RunContext, now: Time)
    requires AllAccounted(trades, fills)
    ensures AllAccounted(SyncTrades(trades, fills, positions, context, now).0, fills)
  {
    hide AllAccounted, SyncTrade;
    if positions != [] {
      var n := |positions| - 1;
      SyncTradesAccounted(trades, fills, positions[..n], context, now);
      SyncTradeAccounted(SyncTrades(trades, fills, positions[..n], context, now).0, fills, positions[n], context, now);
    }
  }

  lemma {:induction false} FillPassOnlyAdds(
    fills: Fills, seen: set<string>, context: RunContext, account: Option<string>, reported: seq<BrokerFill>)
    requires seen == fills.Keys
    ensures var (seen', records, added) := FillPass(seen, context, account, reported);
      seen' == ApplyFills(fills, records).Keys && Extends(fills, ApplyFills(fills, records))
  {
    hide AddQuantity, FillRecordOf, ApplyFills;
    if reported == [] {
      NoFillsApplied(fills);
    } else {
      var n := |reported| - 1;
      FillPassOnlyAdds(fills, seen, context, account, reported[..n]);
      var records := FillPass(seen, context, account, reported[..n]).1;
      RecordRecords(reported[n], context, account);
      ApplyFillsSnoc(fills, records, FillRecordOf(reported[n], context, account));
    }
  }

  /** The trades after a sync, as a function of the fills after it. */
  lemma SyncLedger(s: RecorderState, snap: BrokerSnapshot, now: Time)
    ensures var after := Sync(s, snap, now).0.history;
      exists processed :: after.trades == SyncTrades(s.history.trades, after.fills, processed, s.context, now).0
  {
    hide OrderPass, FillPass, PositionPass, FinalRecords, InOrder, SyncTrades, PnlOf, FlattenAll, Restrict, ApplyOrders;
    var d := DiffOf(s, snap, now);
    assert Sync(s, snap, now).0.history.trades
      == SyncTrades(s.history.trades, Sync(s, snap, now).0.history.fills, d.processed, s.context, now).0;
  }

  /**
   * Over any run, every closed trade nets its gross result against fees and commissions, each the sum
   * over recorded fills of its symbol between its opening and its closing time.
   */
  lemma {:induction false} ClosedTradesAreAccounted(ops: seq<RecorderOp>)
    ensures AllAccounted(RecorderRun(ops).history.trades, RecorderRun(ops).history.fills)
  {
    hide Sync, AllAccounted, SyncTrades, FillPass, ApplyFills, FillsMatch;
    if ops == [] {
      NothingToAccount();
    } else {
      var n := |ops| - 1;
      ClosedTradesAreAccounted(ops[..n]);
      var s := RecorderRun(ops[..n]);
      match ops[n]
      case SyncOp(snap, now) =>
        RunKeepsFills(ops[..n]);
        SyncFills(s, snap, now);
        FillPassOnlyAdds(s.history.fills, s.seenFills, s.context, snap.DefaultAccount(), snap.fills);
        SyncLedger(s, snap, now);
        var after := Sync(s, snap, now).0.history;
        var processed :| after.trades == SyncTrades(s.history.trades, after.fills, processed, s.context, now).0;
        AllAccountedExtends(s.history.trades, s.history.fills, after.fills);
        SyncTradesAccounted(s.history.trades, after.fills, processed, s.context, now);
      case SubmissionOp(_) =>
      case RunOp(_) =>
    }
  }

  lemma NothingToAccount()
    ensures AllAccounted(map[], map[])
  {
  }

  lemma AllAccountedExtends(trades: Ledger, fills: Fills, more: Fills)
    requires AllAccounted(trades, fills) && Extends(fills, more)
    ensures AllAccounted(trades, more)
  {
    hide Accounted, Extends;
    forall id | id in trades ensures Accounted(trades[id], more) {
      AccountedExtends(trades[id], fills, more);
    }
  }

  // ----- and of exactly those recorded when it closed

  /** Closed at `now`, charged with all fills of its window that are recorded in `fills`. */
  ghost predicate ClosedExactly(t: TradeSummary, fills: Fills, now: Time) {
    && t.status == TradeClosed && t.closedAt == Some(now)
    && ChargedBy(t, fills, ChargedFills(fills, t.symbol, t.openedAt, now))
  }

  /** Each closed trade was already there, or is closed exactly. */
  ghost predicate NewlyClosed(before: Ledger, after: Ledger, fills: Fills, now: Time) {
    forall id :: id in after && after[id].status == TradeClosed ==>
      (id in before && before[id] == after[id]) || ClosedExactly(after[id], fills, now)
  }

  lemma NewlyClosedTransitive(a: Ledger, b: Ledger, c: Ledger, fills: Fills, now: Time)
    requires NewlyClosed(a, b, fills, now) && NewlyClosed(b, c, fills, now)
    ensures NewlyClosed(a, c, fills, now)
  {
    hide ClosedExactly;
  }

  lemma CloseIsExact(trades: Ledger, id: string, fills: Fills, p: BrokerPosition, now: Time)
    requires id in trades
    ensures NewlyClosed(trades, trades[id := ClosedTrade(trades[id], fills, p, now)], fills, now)
  {
    CloseIsAccounted(trades[id], fills, p, now);
    assert ClosedExactly(ClosedTrade(trades[id], fills, p, now), fills, now) by {
      hide ChargedFills, SumOn, ExitPrice, ChargedBy;
    }
    hide ClosedExactly, ClosedTrade;
  }

  lemma {:induction false} SyncTradeCloses(
    trades: Ledger, fills: Fills, p: BrokerPosition, context: RunContext, now: Time)
    ensures NewlyClosed(trades, SyncTrade(trades, fills, p, context, now).0, fills, now)
    decreases |StaleIds(trades, p)|
  {
    hide ClosedExactly, ClosedTrade, TradeIdFor, SameSymbol;
    match FindOpen(trades, p.symbol)
    case None =>
    case Some(id) =>
      FoundFacts(trades, fills, p, id, now);
      CloseIsExact(trades, id, fills, p, now);
      if SideOf(p.quantity).Some? && SideOf(p.quantity) != Some(trades[id].side) {
        CloseShrinksStale(trades, fills, p, id, now);
        var closed := trades[id := ClosedTrade(trades[id], fills, p, now)];
        SyncTradeCloses(closed, fills, p, context, now);
        NewlyClosedTransitive(trades, closed, SyncTrade(closed, fills, p, context, now).0, fills, now);
      }
  }

  lemma {:induction false} SyncTradesClose(
    trades: Ledger, fills: Fills, positions: seq<BrokerPosition>, context: RunContext, now: Time)
    ensures NewlyClosed(trades, SyncTrades(trades, fills, positions, context, now).0, fills, now)
  {
    if positions != [] {
      hide NewlyClosed, SyncTrade;
      var n := |positions| - 1;
      var before := SyncTrades(trades, fills, positions[..n], context, now).0;
      SyncTradesClose(trades, fills, positions[..n], context, now);
      SyncTradeCloses(before, fills, positions[n], context, now);
      NewlyClosedTransitive(trades, before, SyncTrade(before, fills, positions[n], context, now).0, fills, now);
    }
  }

  /** Sync `k` of the run closed the trade, with the fills recorded by then. */
  ghost predicate ClosedBySync(t: TradeSummary, ops: seq<RecorderOp>, k: int) {
    0 <= k < |ops| && ops[k].SyncOp? && ClosedExactly(t, RecorderRun(ops[..k + 1]).history.fills, ops[k].now)
  }

  lemma ClosedBySyncExtends(t: TradeSummary, ops: seq<RecorderOp>, k: int)
    requires ops != [] && ClosedBySync(t, ops[..|ops| - 1], k)
    ensures ClosedBySync(t, ops, k)
  {
    hide ClosedExactly, RecorderRun;
    assert ops[..|ops| - 1][..k + 1] == ops[..k + 1];
  }

  /**
   * Over any run, every closed trade was closed by some sync of the run and charged with exactly the fills of its
   * symbol in its open-close window that were recorded then, those of the closing snapshot included.
   */
  lemma {:induction false} ClosedTradesChargeTheirWindow(ops: seq<RecorderOp>, id: string)
    requires id in RecorderRun(ops).history.trades && RecorderRun(ops).history.trades[id].status == TradeClosed
    ensures exists k :: ClosedBySync(RecorderRun(ops).history.trades[id], ops, k)
  {
    hide Sync, ClosedExactly, SyncTrades;
    var n := |ops| - 1;
    var s := RecorderRun(ops[..n]);
    var t := RecorderRun(ops).history.trades[id];
    if id in s.history.trades && s.history.trades[id] == t {
      ClosedTradesChargeTheirWindow(ops[..n], id);
      var k :| ClosedBySync(t, ops[..n], k);
      ClosedBySyncExtends(t, ops, k);
    } else {
      var snap, now := ops[n].snapshot, ops[n].now;
      SyncLedger(s, snap, now);
      var after := Sync(s, snap, now).0.history;
      var processed :| after.trades == SyncTrades(s.history.trades, after.fills, processed, s.context, now).0;
      SyncTradesClose(s.history.trades, after.fills, processed, s.context, now);
      assert ops[..n + 1] == ops;
      assert ClosedBySync(t, ops, n);
    }
  }

  // ----- no fill charged twice

  ghost predicate Apart(a: TradeSummary, b: TradeSummary) {
    a.closedAt.Some? && b.closedAt.Some?
    && (a.closedAt.value < b.openedAt || b.closedAt.value < a.openedAt)
  }

  predicate BothClosed(a: TradeSummary, b: TradeSummary) {
    a.status == TradeClosed && b.status == TradeClosed && SameSymbol(a.symbol, b.symbol)
  }

  /** Closed trades of one symbol occupy separate windows. */
  ghost predicate DisjointWindows(trades: Ledger) {
    forall a, b :: a in trades && b in trades && a != b && BothClosed(trades[a], trades[b]) ==>
      Apart(trades[a], trades[b])
  }

  /** The fills charged to the closed trades among `ids`. */
  ghost predicate CoveredBy(trades: Ledger, fills: Fills, ids: set<string>, charged: set<string>) {
    && charged <= fills.Keys
    && SumOn(ids, ClosedFeeOf(trades)) == SumOn(charged, FeeOf(fills))
    && SumOn(ids, ClosedCommissionOf(trades)) == SumOn(charged, CommissionOf(fills))
    && forall f :: f in charged ==> exists t :: t in ids && ChargesFill(trades, fills, t, f)
  }

  ghost predicate ChargesFill(trades: Ledger, fills: Fills, t: string, f: string) {
    t in trades && f in fills && trades[t].status == TradeClosed && trades[t].closedAt.Some?
    && Chargeable(fills[f], trades[t].symbol, trades[t].openedAt, trades[t].closedAt.value)
  }

  lemma NoFillInTwoWindows(trades: Ledger, fills: Fills, a: string, b: string, f: string)
    requires DisjointWindows(trades) && ChargesFill(trades, fills, a, f) && ChargesFill(trades, fills, b, f)
    ensures a == b
  {
    hide FoldCase;
  }

  lemma {:induction false} ChargedFillsCover(trades: Ledger, fills: Fills, ids: set<string>)
    requires AllAccounted(trades, fills) && DisjointWindows(trades) && ids <= trades.Keys
    ensures exists charged :: CoveredBy(trades, fills, ids, charged)
  {
    hide SumOn, DisjointWindows, Accounted, Chargeable;
    if ids == {} {
      SumOfNone(FeeOf(fills));
      SumOfNone(CommissionOf(fills));
      SumOfNone(ClosedFeeOf(trades));
      SumOfNone(ClosedCommissionOf(trades));
      assert CoveredBy(trades, fills, ids, {});
    } else {
      var t :| t in ids;
      var rest := ids - {t};
      ChargedFillsCover(trades, fills, rest);
      var charged :| CoveredBy(trades, fills, rest, charged);
      SumOnRemove(ids, ClosedFeeOf(trades), t);
      SumOnRemove(ids, ClosedCommissionOf(trades), t);
      if trades[t].status == TradeClosed {
        AccountedMeans(trades[t], fills);
        var own :| ChargedBy(trades[t], fills, own);
        forall f | f in own && f in charged ensures false {
          assert ChargesFill(trades, fills, t, f);
          var u :| u in rest && ChargesFill(trades, fills, u, f);
          NoFillInTwoWindows(trades, fills, t, u, f);
        }
        SumOnUnion(charged, own, FeeOf(fills));
        SumOnUnion(charged, own, CommissionOf(fills));
        forall f | f in charged + own ensures exists u :: u in ids && ChargesFill(trades, fills, u, f) {
          if f in own {
            assert ChargesFill(trades, fills, t, f);
          } else {
            var u :| u in rest && ChargesFill(trades, fills, u, f);
            assert u in ids;
          }
        }
        assert CoveredBy(trades, fills, ids, charged + own);
      } else {
        assert CoveredBy(trades, fills, ids, charged);
      }
    }
  }

  lemma SumOfNone(w: string -> int)
    ensures SumOn({}, w) == 0
  {
  }

  lemma AccountedMeans(t: TradeSummary, fills: Fills)
    requires Accounted(t, fills) && t.status == TradeClosed
    ensures exists ids :: ChargedBy(t, fills, ids)
  {
  }

  /**
   * With separate windows per symbol no fill is charged twice: for non-negative costs the fees and
   * commissions of all closed trades never exceed those of all recorded fills, so the costs of every
   * profit-and-loss snapshot are exactly the recorded ones.
   */
  lemma ClosedCostsWithinRecorded(ops: seq<RecorderOp>)
    requires var h := RecorderRun(ops).history;
      DisjointWindows(h.trades) && forall id :: id in h.fills ==> h.fills[id].fee >= 0 && h.fills[id].commission >= 0
    ensures var h := RecorderRun(ops).history;
      && ClosedFees(h.trades) <= RecordedFees(h.fills)
      && ClosedCommissions(h.trades) <= RecordedCommissions(h.fills)
      && forall account, now :: PnlOf(account, h.fills, h.trades, now).fees == RecordedFees(h.fills)
                             && PnlOf(account, h.fills, h.trades, now).commissions == RecordedCommissions(h.fills)
  {
    hide SumOn, RecorderRun, DisjointWindows;
    var h := RecorderRun(ops).history;
    ClosedTradesAreAccounted(ops);
    ChargedFillsCover(h.trades, h.fills, h.trades.Keys);
    var charged :| CoveredBy(h.trades, h.fills, h.trades.Keys, charged);
    SumOnMonotone(charged, h.fills.Keys, FeeOf(h.fills));
    SumOnMonotone(charged, h.fills.Keys, CommissionOf(h.fills));
  }

  /**
   * A flip keeps windows apart if and only if the new position was captured after the sync that closes
   * the old trade: the new trade opens at the capture time, the old one closes at the sync time.
   */
  lemma FlipWindowsApart(trades: Ledger, fills: Fills, p: BrokerPosition, side: Side, id: string, context: RunContext,
                         now: Time)
    requires id in trades && trades[id].openedAt <= now && p.capturedAt >= trades[id].openedAt
    ensures var closed := ClosedTrade(trades[id], fills, p, now);
      var next := OpenedTrade(p, side, context, now);
      forall later :: later >= p.capturedAt ==>
        (Apart(closed, next.(closedAt := Some(later))) <==> now < p.capturedAt)
  {
    hide SumOn, ExitPrice, TradeIdFor, ChargedFills;
  }

  // ----- closed trades are final

  /** Trade ids name their symbol and a time no later than `latest`. */
  ghost predicate NamedUpTo(trades: Ledger, latest: Time) {
    forall id :: id in trades ==> exists t :: 0 <= t <= latest && id == TradeIdFor(trades[id].symbol, t)
  }

  lemma FoundFacts(trades: Ledger, fills: Fills, p: BrokerPosition, id: string, now: Time)
    requires FindOpen(trades, p.symbol) == Some(id)
    ensures id in trades && trades[id].status == TradeOpen
    ensures Some(trades[id].side) != SideOf(p.quantity) ==> id in StaleIds(trades, p)
    ensures ClosedTrade(trades[id], fills, p, now).symbol == trades[id].symbol == ResizedTrade(trades[id], p).symbol
  {
    hide SumOn, ExitPrice, SameSymbol, ChargedFills;
    OpenIdFacts(trades, p.symbol, id);
  }

  /**
   * A ledger grown within one sync: older trades keep their symbol, closed ones every field, new ids carry its
   * time.
   */
  ghost predicate Grown(base: Ledger, trades: Ledger, now: Time) {
    && (forall id :: id in base ==> id in trades && trades[id].symbol == base[id].symbol)
    && (forall id :: id in base && base[id].status != TradeOpen ==> trades[id] == base[id])
    && (forall id :: id in trades && id !in base ==> id == TradeIdFor(trades[id].symbol, now))
  }

  lemma GrownByOpening(base: Ledger, trades: Ledger, p: BrokerPosition, side: Side, context: RunContext, now: Time)
    requires Grown(base, trades, now) && TradeIdFor(p.symbol, now) !in base
    ensures var record := OpenedTrade(p, side, context, now); Grown(base, trades[record.tradeId := record], now)
  {
    hide TradeIdFor;
  }

  lemma GrownByWriting(base: Ledger, trades: Ledger, id: string, record: TradeSummary, now: Time)
    requires Grown(base, trades, now) && id in trades && trades[id].status == TradeOpen
    requires record.symbol == trades[id].symbol
    ensures Grown(base, trades[id := record], now)
  {
    hide TradeIdFor;
  }

  lemma {:induction false} SyncTradeGrows(
    base: Ledger, trades: Ledger, fills: Fills, p: BrokerPosition, context: RunContext, now: Time)
    requires Grown(base, trades, now) && TradeIdFor(p.symbol, now) !in base
    ensures Grown(base, SyncTrade(trades, fills, p, context, now).0, now)
    decreases |StaleIds(trades, p)|
  {
    hide TradeIdFor, FindOpen, StaleIds, ClosedTrade, ResizedTrade, Grown;
    match FindOpen(trades, p.symbol)
    case None =>
      if SideOf(p.quantity).Some? {
        GrownByOpening(base, trades, p, SideOf(p.quantity).value, context, now);
      }
    case Some(id) =>
      FoundFacts(trades, fills, p, id, now);
      GrownByWriting(base, trades, id, ClosedTrade(trades[id], fills, p, now), now);
      GrownByWriting(base, trades, id, ResizedTrade(trades[id], p), now);
      if SideOf(p.quantity).Some? && SideOf(p.quantity) != Some(trades[id].side) {
        CloseShrinksStale(trades, fills, p, id, now);
        SyncTradeGrows(base, trades[id := ClosedTrade(trades[id], fills, p, now)], fills, p, context, now);
      }
  }

  lemma NewerIdIsFresh(trades: Ledger, latest: Time, symbol: string, now: Time)
    requires NamedUpTo(trades, latest) && latest < now <= 0x7FFF_FFFF_FFFF_FFFF && now >= 0
    ensures TradeIdFor(symbol, now) !in trades
  {
    hide TradeIdFor;
    var id := TradeIdFor(symbol, now);
    if id in trades {
      var t :| 0 <= t <= latest && id == TradeIdFor(trades[id].symbol, t);
      TradeIdNamesItsSymbol(symbol, now, trades[id].symbol, t);
    }
  }

  lemma {:induction false} SyncTradesGrow(
    trades: Ledger, fills: Fills, positions: seq<BrokerPosition>, context: RunContext, now: Time, latest: Time)
    requires NamedUpTo(trades, latest) && latest < now <= 0x7FFF_FFFF_FFFF_FFFF && now >= 0
    ensures Grown(trades, SyncTrades(trades, fills, positions, context, now).0, now)
  {
    if positions != [] {
      hide Grown, SyncTrade, NamedUpTo;
      var n := |positions| - 1;
      SyncTradesGrow(trades, fills, positions[..n], context, now, latest);
      NewerIdIsFresh(trades, latest, positions[n].symbol, now);
      SyncTradeGrows(trades, SyncTrades(trades, fills, positions[..n], context, now).0, fills, positions[n], context,
                     now);
    }
  }

  lemma GrownIsNamed(base: Ledger, trades: Ledger, latest: Time, now: Time)
    requires Grown(base, trades, now) && NamedUpTo(base, latest) && latest < now && now >= 0
    ensures NamedUpTo(trades, now)
  {
    hide TradeIdFor;
    forall id | id in trades ensures exists t :: 0 <= t <= now && id == TradeIdFor(trades[id].symbol, t) {
      if id in base {
        var t :| 0 <= t <= latest && id == TradeIdFor(base[id].symbol, t);
        assert 0 <= t <= now && id == TradeIdFor(trades[id].symbol, t);
      } else {
        assert 0 <= now <= now && id == TradeIdFor(trades[id].symbol, now);
      }
    }
  }

  /** Sync times strictly increase over the run, from the epoch on, and fit 64 bits. */
  ghost predicate TimesIncrease(ops: seq<RecorderOp>) {
    && (forall i :: 0 <= i < |ops| && ops[i].SyncOp? ==> 0 <= ops[i].now <= 0x7FFF_FFFF_FFFF_FFFF)
    && forall i, j :: 0 <= i < j < |ops| && ops[i].SyncOp? && ops[j].SyncOp? ==> ops[i].now < ops[j].now
  }

  function LatestSync(ops: seq<RecorderOp>): Time {
    if ops == [] then -1
    else if ops[|ops| - 1].SyncOp? then ops[|ops| - 1].now
    else LatestSync(ops[..|ops| - 1])
  }

  lemma {:induction false} LatestSyncIsOld(ops: seq<RecorderOp>, op: RecorderOp)
    requires TimesIncrease(ops + [op]) && op.SyncOp?
    ensures LatestSync(ops) < op.now
  {
    assert (ops + [op])[|ops|] == op;
    if ops != [] {
      var n := |ops| - 1;
      assert (ops + [op])[n] == ops[n] && (ops + [op])[n + 1] == op;
      if !ops[n].SyncOp? {
        var shorter := ops[..n] + [op];
        forall i | 0 <= i < |shorter| && shorter[i].SyncOp? ensures 0 <= shorter[i].now <= 0x7FFF_FFFF_FFFF_FFFF {
          assert shorter[i] == if i < n then (ops + [op])[i] else (ops + [op])[n + 1];
        }
        forall i, j | 0 <= i < j < |shorter| && shorter[i].SyncOp? && shorter[j].SyncOp?
          ensures shorter[i].now < shorter[j].now
        {
          assert shorter[i] == (ops + [op])[i];
          assert shorter[j] == if j < n then (ops + [op])[j] else (ops + [op])[n + 1];
        }
        LatestSyncIsOld(ops[..n], op);
      }
    }
  }

  /** One sync: the ledger grows, and its ids stay named by symbol and time. */
  lemma SyncGrows(s: RecorderState, snap: BrokerSnapshot, now: Time, latest: Time)
    requires latest < now <= 0x7FFF_FFFF_FFFF_FFFF && now >= 0 && NamedUpTo(s.history.trades, latest)
    ensures var after := Sync(s, snap, now).0.history.trades;
      Grown(s.history.trades, after, now) && NamedUpTo(after, now)
  {
    hide Sync, SyncTrades, NamedUpTo, Grown;
    SyncLedger(s, snap, now);
    var after := Sync(s, snap, now).0.history;
    var processed :| after.trades == SyncTrades(s.history.trades, after.fills, processed, s.context, now).0;
    SyncTradesGrow(s.history.trades, after.fills, processed, s.context, now, latest);
    GrownIsNamed(s.history.trades, after.trades, latest, now);
  }

  lemma {:induction false} RunNames(ops: seq<RecorderOp>)
    requires TimesIncrease(ops)
    ensures NamedUpTo(RecorderRun(ops).history.trades, LatestSync(ops))
  {
    hide Sync, NamedUpTo, Grown;
    if ops == [] {
      NoNames();
    } else {
      var n := |ops| - 1;
      assert ops[..n] + [ops[n]] == ops;
      RunNames(ops[..n]);
      if ops[n].SyncOp? {
        LatestSyncIsOld(ops[..n], ops[n]);
        SyncGrows(RecorderRun(ops[..n]), ops[n].snapshot, ops[n].now, LatestSync(ops[..n]));
      }
    }
  }

  lemma NoNames()
    ensures NamedUpTo(map[], -1)
  {
  }

  /** Closed trades are final: with increasing sync times, no later operation of any run changes one. */
  lemma {:induction false} ClosedTradesAreFinal(ops: seq<RecorderOp>, later: seq<RecorderOp>, id: string)
    requires TimesIncrease(ops + later)
    requires id in RecorderRun(ops).history.trades && RecorderRun(ops).history.trades[id].status == TradeClosed
    ensures id in RecorderRun(ops + later).history.trades
      && RecorderRun(ops + later).history.trades[id] == RecorderRun(ops).history.trades[id]
    decreases |later|
  {
    hide Sync, NamedUpTo;
    if later == [] {
      assert ops + later == ops;
    } else {
      var n := |later| - 1;
      var all, before := ops + later, ops + later[..n];
      assert all[..|all| - 1] == before && all == before + [later[n]];
      PrefixTimes(before, later[n]);
      ClosedTradesAreFinal(ops, later[..n], id);
      if later[n].SyncOp? {
        RunNames(before);
        LatestSyncIsOld(before, later[n]);
        SyncGrows(RecorderRun(before), later[n].snapshot, later[n].now, LatestSync(before));
      }
    }
  }

  lemma PrefixTimes(ops: seq<RecorderOp>, op: RecorderOp)
    requires TimesIncrease(ops + [op])
    ensures TimesIncrease(ops)
    ensures op.SyncOp? ==> 0 <= op.now <= 0x7FFF_FFFF_FFFF_FFFF
  {
    var all := ops + [op];
    assert forall i :: 0 <= i < |ops| ==> all[i] == ops[i];
    assert all[|ops|] == op;
  }
}
