// Which fills closed trades are charged over whole runs, and what that costs: a fill is charged twice exactly when it
// falls into two holdings.
module WindowLaws {
  import opened Prelude
  import opened MarketTypes
  import opened BrokerTypes
  import opened TradingHistory
  import opened SyncSpec
  import opened MirrorLaws
  import opened FillLaws
  import opened CostLaws
  import opened HoldingLaws

  // ----- what each holding is charged

  /** Sync `k` closed the trade and charged the fill to it: it had been recorded by then and lies in the window. */
  ghost predicate ChargesAt(ops: seq<RecorderOp>, id: string, f: string, k: int) {
    id in RecorderRun(ops).history.trades
    && var t := RecorderRun(ops).history.trades[id];
    && ClosedBySync(t, ops, k)
    && f in ChargedFills(RecorderRun(ops[..k + 1]).history.fills, t.symbol, t.openedAt, ops[k].now)
  }

  /** The closed trade was charged the fill. */
  ghost predicate Charges(ops: seq<RecorderOp>, id: string, f: string) {
    exists k :: ChargesAt(ops, id, f, k)
  }

  /** The first report of a fill, by the sync that ended a holding or before, falls into the holding. */
  ghost predicate FallsInto(ops: seq<RecorderOp>, w: Holding, symbol: string, f: string) {
    w.closedBy < |ops|
    && var first := FirstReports(Reported(ops[..w.closedBy + 1]));
       f in first && SameSymbol(first[f].symbol, symbol) && w.openedAt <= first[f].occurredAt <= w.closedAt
  }

  lemma SameTime(ops: seq<RecorderOp>, k: int, l: int)
    requires TimesIncrease(ops) && 0 <= k < |ops| && 0 <= l < |ops| && ops[k].SyncOp? && ops[l].SyncOp?
    requires ops[k].now == ops[l].now
    ensures k == l
  {
  }

  lemma RecordedBy(ops: seq<RecorderOp>, f: string)
    ensures var fills, first := RecorderRun(ops).history.fills, FirstReports(Reported(ops));
      && (f in fills <==> f in first)
      && (f in fills ==> fills[f].symbol == first[f].symbol && fills[f].occurredAt == first[f].occurredAt)
  {
    FillsRecordedExactlyOnce(ops);
  }

  /** Fills keep their first report. */
  lemma {:induction false} ReportsStay(ops: seq<RecorderOp>, k: nat, f: string)
    requires k <= |ops| && f in FirstReports(Reported(ops[..k]))
    ensures f in FirstReports(Reported(ops)) && FirstReports(Reported(ops))[f] == FirstReports(Reported(ops[..k]))[f]
  {
    if k == |ops| {
      assert ops[..k] == ops;
    } else {
      var n := |ops| - 1;
      assert ops[..n][..k] == ops[..k];
      ReportsStay(ops[..n], k, f);
      FirstReportsExtend(Reported(ops[..n]), if ops[n].SyncOp? then ops[n].snapshot.fills else [], f);
    }
  }

  /** A closed trade is charged exactly the fills of its symbol that fall into its holding. */
  lemma ChargesWhatFallsIn(ops: seq<RecorderOp>, names: Names, symbol: string, id: string, f: string)
    requires GoodRun(ops, names) && NeverMoves(ops) && TimesIncrease(ops)
    requires IsClosed(RecorderRun(ops).history.trades, id, symbol)
    ensures id in HoldingsOf(ops, symbol).closed
    ensures Charges(ops, id, f) <==> FallsInto(ops, HoldingsOf(ops, symbol).closed[id], symbol, f)
  {
    hide RecorderRun, FirstReports, Reported, NeverMoves, GoodRun, HoldingsOf, ClosedExactly, SameSymbol;
    TradesAreHoldings(ops, names, symbol);
    HoldingsEnd(ops, symbol, id);
    ClosedTradesChargeTheirWindow(ops, id);
    var t, w := RecorderRun(ops).history.trades[id], HoldingsOf(ops, symbol).closed[id];
    var l :| ClosedBySync(t, ops, l);
    ClosedAtItsSync(t, ops, l);
    forall k | ClosedBySync(t, ops, k) ensures k == w.closedBy {
      ClosedAtItsSync(t, ops, k);
      SameTime(ops, k, w.closedBy);
    }
    RecordedBy(ops[..w.closedBy + 1], f);
    if f in FirstReports(Reported(ops[..w.closedBy + 1])) {
      SymbolsAgree(FirstReports(Reported(ops[..w.closedBy + 1]))[f].symbol, t.symbol, symbol);
    }
    assert ChargesAt(ops, id, f, w.closedBy) <==> Charges(ops, id, f);
  }

  lemma ClosedAtItsSync(t: TradeSummary, ops: seq<RecorderOp>, k: int)
    requires ClosedBySync(t, ops, k)
    ensures 0 <= k < |ops| && ops[k].SyncOp? && t.closedAt == Some(ops[k].now)
  {
  }

  lemma SymbolsAgree(a: string, b: string, c: string)
    requires SameSymbol(b, c)
    ensures SameSymbol(a, b) <==> SameSymbol(a, c)
  {
  }

  // ----- a fill charged twice

  ghost predicate ChargedTwice(ops: seq<RecorderOp>, f: string) {
    exists a, b :: a != b && Charges(ops, a, f) && Charges(ops, b, f)
  }

  /**
   * Two holdings of the fill's symbol: it was reported by the sync that ended the one that ended first, and occurred
   * after both had opened and before that one closed.
   */
  ghost predicate InTwoHoldings(ops: seq<RecorderOp>, f: string) {
    var first := FirstReports(Reported(ops));
    f in first
    && var closed := HoldingsOf(ops, first[f].symbol).closed;
       exists a, b :: a in closed && b in closed && a != b && closed[a].closedBy <= closed[b].closedBy
                      && closed[a].closedBy < |ops| && f in FirstReports(Reported(ops[..closed[a].closedBy + 1]))
                      && closed[a].openedAt <= first[f].occurredAt && closed[b].openedAt <= first[f].occurredAt
                      && first[f].occurredAt <= closed[a].closedAt
  }

  lemma ChargedIsClosed(ops: seq<RecorderOp>, id: string, f: string)
    requires Charges(ops, id, f)
    ensures var first := FirstReports(Reported(ops));
      f in first && IsClosed(RecorderRun(ops).history.trades, id, first[f].symbol)
  {
    hide RecorderRun, FirstReports, Reported, SumOn, FoldCase;
    var k :| ChargesAt(ops, id, f, k);
    RecordedBy(ops[..k + 1], f);
    ReportsStay(ops, k + 1, f);
  }

  lemma ReportsGrow(ops: seq<RecorderOp>, k: nat, l: nat, f: string)
    requires k <= l <= |ops| && f in FirstReports(Reported(ops[..k]))
    ensures f in FirstReports(Reported(ops[..l]))
    ensures FirstReports(Reported(ops[..l]))[f] == FirstReports(Reported(ops[..k]))[f]
  {
    assert ops[..l][..k] == ops[..k];
    ReportsStay(ops[..l], k, f);
  }

  lemma EndsInOrder(ops: seq<RecorderOp>, symbol: string, a: string, b: string)
    requires TimesIncrease(ops) && a in HoldingsOf(ops, symbol).closed && b in HoldingsOf(ops, symbol).closed
    requires HoldingsOf(ops, symbol).closed[a].closedBy <= HoldingsOf(ops, symbol).closed[b].closedBy
    ensures HoldingsOf(ops, symbol).closed[a].closedAt <= HoldingsOf(ops, symbol).closed[b].closedAt
  {
    HoldingsEnd(ops, symbol, a);
    HoldingsEnd(ops, symbol, b);
  }

  /**
   * Exactly which fills are charged to two trades, from the operations alone: those that a sync reported while ending
   * one of two holdings of their symbol, or before, and that occurred after both had opened and before that one ended.
   */
  lemma ChargedTwiceExactly(ops: seq<RecorderOp>, names: Names, f: string)
    requires GoodRun(ops, names) && NeverMoves(ops) && TimesIncrease(ops)
    ensures ChargedTwice(ops, f) <==> InTwoHoldings(ops, f)
  {
    hide *;
    if ChargedTwice(ops, f) {
      TwiceIsInTwo(ops, names, f);
    }
    if InTwoHoldings(ops, f) {
      InTwoIsTwice(ops, names, f);
    }
  }

  lemma TwiceIsInTwo(ops: seq<RecorderOp>, names: Names, f: string)
    requires GoodRun(ops, names) && NeverMoves(ops) && TimesIncrease(ops) && ChargedTwice(ops, f)
    ensures InTwoHoldings(ops, f)
  {
    hide RecorderRun, FirstReports, Reported, NeverMoves, GoodRun, HoldingsOf, Charges, TimesIncrease, SameSymbol;
    var first := FirstReports(Reported(ops));
    var a, b :| a != b && Charges(ops, a, f) && Charges(ops, b, f);
    ChargedIsClosed(ops, a, f);
    ChargedIsClosed(ops, b, f);
    var closed := HoldingsOf(ops, first[f].symbol).closed;
    ChargesWhatFallsIn(ops, names, first[f].symbol, a, f);
    ChargesWhatFallsIn(ops, names, first[f].symbol, b, f);
    ReportsStay(ops, closed[a].closedBy + 1, f);
    ReportsStay(ops, closed[b].closedBy + 1, f);
    assert closed[a].closedBy <= closed[b].closedBy || closed[b].closedBy <= closed[a].closedBy;
  }

  lemma InTwoIsTwice(ops: seq<RecorderOp>, names: Names, f: string)
    requires GoodRun(ops, names) && NeverMoves(ops) && TimesIncrease(ops) && InTwoHoldings(ops, f)
    ensures ChargedTwice(ops, f)
  {
    hide RecorderRun, FirstReports, Reported, NeverMoves, GoodRun, HoldingsOf, Charges, TimesIncrease, SameSymbol;
    var first := FirstReports(Reported(ops));
    var symbol := first[f].symbol;
    var closed := HoldingsOf(ops, symbol).closed;
    var a, b :| a in closed && b in closed && a != b && closed[a].closedBy <= closed[b].closedBy
                && closed[a].closedBy < |ops| && f in FirstReports(Reported(ops[..closed[a].closedBy + 1]))
                && closed[a].openedAt <= first[f].occurredAt && closed[b].openedAt <= first[f].occurredAt
                && first[f].occurredAt <= closed[a].closedAt;
    TradesAreHoldings(ops, names, symbol);
    EndsInOrder(ops, symbol, a, b);
    HoldingsEnd(ops, symbol, b);
    ReportsStay(ops, closed[a].closedBy + 1, f);
    ReportsGrow(ops, closed[a].closedBy + 1, closed[b].closedBy + 1, f);
    SymbolIsItself(symbol);
    ChargesWhatFallsIn(ops, names, symbol, a, f);
    ChargesWhatFallsIn(ops, names, symbol, b, f);
  }

  // ----- what double charges cost

  /** All that is charged to some trade among `ids`. */
  function ChargedTo(own: map<string, set<string>>, ids: set<string>): set<string> {
    set id, f | id in ids && id in own && f in own[id] :: f
  }

  /** Something that costs is charged to two of them. */
  ghost predicate Shared(own: map<string, set<string>>, ids: set<string>, w: string -> int) {
    exists a, b, f :: a in ids && b in ids && a != b && a in own && b in own && f in own[a] && f in own[b] && w(f) > 0
  }

  lemma ChargedToMore(own: map<string, set<string>>, ids: set<string>, id: string)
    requires id in ids
    ensures ChargedTo(own, ids) == ChargedTo(own, ids - {id}) + if id in own then own[id] else {}
  {
  }

  lemma {:induction false} SumOnPositive(ids: set<string>, w: string -> int)
    requires forall x :: x in ids ==> w(x) >= 0
    ensures SumOn(ids, w) > 0 <==> exists x :: x in ids && w(x) > 0
  {
    if ids != {} {
      var x := Least(ids);
      SumOnPositive(ids - {x}, w);
      SumOnNonNegative(ids - {x}, w);
    }
  }

  /** Charging something twice costs exactly what is shared on top of what is charged. */
  lemma {:induction false} SharedCosts(
    ids: set<string>, own: map<string, set<string>>, c: string -> int, w: string -> int)
    requires forall id :: id in ids ==> c(id) == if id in own then SumOn(own[id], w) else 0
    requires forall id, f :: id in own && f in own[id] ==> w(f) >= 0
    ensures SumOn(ids, c) >= SumOn(ChargedTo(own, ids), w)
    ensures SumOn(ids, c) == SumOn(ChargedTo(own, ids), w) <==> !Shared(own, ids, w)
  {
    hide SumOn, ChargedTo;
    if ids == {} {
      SumOfNone(c);
      SumOfNone(w);
      assert ChargedTo(own, {}) == {} by {
        NothingCharged(own);
      }
    } else {
      var t :| t in ids;
      var rest := ids - {t};
      SharedCosts(rest, own, c, w);
      SumOnRemove(ids, c, t);
      ChargedToMore(own, ids, t);
      var sofar := ChargedTo(own, rest);
      if t in own {
        var mine := own[t];
        SumOnUnion(sofar, mine - sofar, w);
        SumOnUnion(mine - sofar, mine * sofar, w);
        assert sofar + (mine - sofar) == sofar + mine && (mine - sofar) + mine * sofar == mine;
        SumOnPositive(mine * sofar, w);
        SumOnNonNegative(mine * sofar, w);
        SharedMore(own, ids, t, w);
      } else {
        SharedMore(own, ids, t, w);
        assert sofar + {} == sofar;
      }
    }
  }

  lemma NothingCharged(own: map<string, set<string>>)
    ensures ChargedTo(own, {}) == {}
  {
  }

  lemma SharedMore(own: map<string, set<string>>, ids: set<string>, t: string, w: string -> int)
    requires t in ids
    ensures Shared(own, ids, w) <==>
      || Shared(own, ids - {t}, w)
      || (t in own && exists f :: f in own[t] * ChargedTo(own, ids - {t}) && w(f) > 0)
  {
    var rest := ids - {t};
    if a, b, f :| a in ids && b in ids && a != b && a in own && b in own && f in own[a] && f in own[b] && w(f) > 0 {
      if a == t || b == t {
        assert f in own[t] * ChargedTo(own, rest);
      } else {
        assert a in rest && b in rest;
      }
    }
    if t in own {
      if f :| f in own[t] * ChargedTo(own, rest) && w(f) > 0 {
        var id :| id in rest && id in own && f in own[id];
        assert t in ids && id in ids && t != id;
      }
    }
  }

  // ----- costs over whole runs

  /** No fill reported in the run carries a negative cost. */
  ghost predicate CostsNotNegative(ops: seq<RecorderOp>) {
    forall f :: f in Reported(ops) ==> f.fee.GetOr(0) >= 0 && f.commission.GetOr(0) >= 0
  }

  /** What each closed trade of a run was charged. */
  ghost function OwnCharges(ops: seq<RecorderOp>): map<string, set<string>> {
    var h := RecorderRun(ops).history;
    map id | id in h.trades && h.trades[id].status == TradeClosed :: set f | f in h.fills && Charges(ops, id, f)
  }

  /** Every fill of a run that was charged to some closed trade. */
  ghost function AllCharged(ops: seq<RecorderOp>): set<string> {
    set f | f in RecorderRun(ops).history.fills && exists id :: Charges(ops, id, f)
  }

  lemma {:induction false} FillsStay(ops: seq<RecorderOp>, k: nat)
    requires k <= |ops|
    ensures Extends(RecorderRun(ops[..k]).history.fills, RecorderRun(ops).history.fills)
  {
    hide Sync, FillPass, ApplyFills, FillsMatch;
    if k == |ops| {
      assert ops[..k] == ops;
    } else {
      var n := |ops| - 1;
      assert ops[..n][..k] == ops[..k];
      FillsStay(ops[..n], k);
      if ops[n].SyncOp? {
        var s, snap, now := RecorderRun(ops[..n]), ops[n].snapshot, ops[n].now;
        RunKeepsFills(ops[..n]);
        SyncFills(s, snap, now);
        FillPassOnlyAdds(s.history.fills, s.seenFills, s.context, snap.DefaultAccount(), snap.fills);
      }
    }
  }

  lemma ChargesMeans(ops: seq<RecorderOp>, id: string, f: string, k: int)
    requires TimesIncrease(ops) && id in RecorderRun(ops).history.trades
    requires ClosedBySync(RecorderRun(ops).history.trades[id], ops, k)
    ensures var t := RecorderRun(ops).history.trades[id];
      Charges(ops, id, f)
      <==> f in ChargedFills(RecorderRun(ops[..k + 1]).history.fills, t.symbol, t.openedAt, ops[k].now)
  {
    hide RecorderRun, ClosedExactly, ChargedFills;
    var t := RecorderRun(ops).history.trades[id];
    ClosedAtItsSync(t, ops, k);
    forall l | ClosedBySync(t, ops, l) ensures l == k {
      ClosedAtItsSync(t, ops, l);
      SameTime(ops, k, l);
    }
    assert ChargesAt(ops, id, f, k) <==> Charges(ops, id, f);
  }

  /** A closed trade costs what it was charged, in terms of the fills as finally recorded. */
  lemma CostsOwnCharges(ops: seq<RecorderOp>, id: string)
    requires TimesIncrease(ops) && id in OwnCharges(ops)
    ensures var h := RecorderRun(ops).history;
      && h.trades[id].fees == SumOn(OwnCharges(ops)[id], FeeOf(h.fills))
      && h.trades[id].commissions == SumOn(OwnCharges(ops)[id], CommissionOf(h.fills))
  {
    hide RecorderRun, SumOn, Charges, Chargeable, TimesIncrease;
    var h := RecorderRun(ops).history;
    ClosedTradesChargeTheirWindow(ops, id);
    var t := h.trades[id];
    var k :| ClosedBySync(t, ops, k);
    var fills := RecorderRun(ops[..k + 1]).history.fills;
    var charged := ChargedFills(fills, t.symbol, t.openedAt, ops[k].now);
    FillsStay(ops, k + 1);
    forall f ensures f in OwnCharges(ops)[id] <==> f in charged {
      ChargesMeans(ops, id, f, k);
    }
    assert OwnCharges(ops)[id] == charged;
    SumOnSame(charged, FeeOf(fills), FeeOf(h.fills));
    SumOnSame(charged, CommissionOf(fills), CommissionOf(h.fills));
  }

  lemma ChargedToAll(ops: seq<RecorderOp>)
    ensures ChargedTo(OwnCharges(ops), RecorderRun(ops).history.trades.Keys) == AllCharged(ops)
  {
    hide RecorderRun, Charges, SumOn;
    var h, own := RecorderRun(ops).history, OwnCharges(ops);
    forall f | f in AllCharged(ops) ensures f in ChargedTo(own, h.trades.Keys) {
      var id :| Charges(ops, id, f);
      ChargedIsClosed(ops, id, f);
      assert id in own && f in own[id];
    }
  }

  lemma SharedIsTwice(ops: seq<RecorderOp>, w: string -> int)
    requires forall f :: f !in RecorderRun(ops).history.fills ==> w(f) == 0
    ensures Shared(OwnCharges(ops), RecorderRun(ops).history.trades.Keys, w)
       <==> exists f :: ChargedTwice(ops, f) && w(f) > 0
  {
    hide RecorderRun, Charges;
    var h, own := RecorderRun(ops).history, OwnCharges(ops);
    if f :| ChargedTwice(ops, f) && w(f) > 0 {
      var a, b :| a != b && Charges(ops, a, f) && Charges(ops, b, f);
      ChargedIsClosed(ops, a, f);
      ChargedIsClosed(ops, b, f);
      assert a in own && b in own && f in own[a] && f in own[b];
    }
    if a, b, f :| a in h.trades.Keys && b in h.trades.Keys && a != b && a in own && b in own
                  && f in own[a] && f in own[b] && w(f) > 0
    {
      assert ChargedTwice(ops, f);
    }
  }

  lemma RecordedCosts(ops: seq<RecorderOp>)
    requires CostsNotNegative(ops)
    ensures var fills := RecorderRun(ops).history.fills;
      forall f :: FeeOf(fills)(f) >= 0 && CommissionOf(fills)(f) >= 0
  {
    hide RecorderRun, Reported, Records;
    FillsRecordedExactlyOnce(ops);
    var fills := RecorderRun(ops).history.fills;
    forall f | f in fills ensures fills[f].fee >= 0 && fills[f].commission >= 0 {
      FirstReportsAreFirst(Reported(ops), f);
      RecordedCost(fills[f], FirstReports(Reported(ops))[f]);
    }
  }

  lemma RecordedCost(record: FillRecord, fill: BrokerFill)
    requires Records(record, fill)
    ensures record.fee == fill.fee.GetOr(0) && record.commission == fill.commission.GetOr(0)
  {
  }

  /**
   * The costs of all closed trades, in any run: at least those of the fills charged to some trade, and exactly those
   * if no fill that costs anything is charged twice.
   */
  lemma ClosedTradesCost(ops: seq<RecorderOp>)
    requires TimesIncrease(ops) && CostsNotNegative(ops)
    ensures var h := RecorderRun(ops).history;
      && ClosedFees(h.trades) >= SumOn(AllCharged(ops), FeeOf(h.fills))
      && (ClosedFees(h.trades) == SumOn(AllCharged(ops), FeeOf(h.fills))
          <==> !exists f :: ChargedTwice(ops, f) && FeeOf(h.fills)(f) > 0)
      && ClosedCommissions(h.trades) >= SumOn(AllCharged(ops), CommissionOf(h.fills))
      && (ClosedCommissions(h.trades) == SumOn(AllCharged(ops), CommissionOf(h.fills))
          <==> !exists f :: ChargedTwice(ops, f) && CommissionOf(h.fills)(f) > 0)
  {
    hide RecorderRun, SumOn, ChargedTo, AllCharged, Shared, ChargedTwice, Charges, TimesIncrease, CostsNotNegative;
    var h, own := RecorderRun(ops).history, OwnCharges(ops);
    RecordedCosts(ops);
    ChargedToAll(ops);
    SharedIsTwice(ops, FeeOf(h.fills));
    SharedIsTwice(ops, CommissionOf(h.fills));
    forall id | id in own
      ensures h.trades[id].fees == SumOn(own[id], FeeOf(h.fills))
        && h.trades[id].commissions == SumOn(own[id], CommissionOf(h.fills))
    {
      CostsOwnCharges(ops, id);
    }
    SharedCosts(h.trades.Keys, own, ClosedFeeOf(h.trades), FeeOf(h.fills));
    SharedCosts(h.trades.Keys, own, ClosedCommissionOf(h.trades), CommissionOf(h.fills));
  }

  /**
   * Costs over whole runs, from the operations alone. The closed trades cost exactly what the fills charged to them
   * cost if and only if no fill that costs anything lies in two holdings, flips included; then they never cost more
   * than all recorded fills, and every profit-and-loss snapshot reports exactly the recorded costs.
   */
  lemma CostsCountOnceExactly(ops: seq<RecorderOp>, names: Names)
    requires GoodRun(ops, names) && NeverMoves(ops) && TimesIncrease(ops) && CostsNotNegative(ops)
    ensures var h, charged := RecorderRun(ops).history, AllCharged(ops);
      var once := ClosedFees(h.trades) == SumOn(charged, FeeOf(h.fills))
                  && ClosedCommissions(h.trades) == SumOn(charged, CommissionOf(h.fills));
      && (once <==> forall f :: InTwoHoldings(ops, f) ==> FeeOf(h.fills)(f) == 0 && CommissionOf(h.fills)(f) == 0)
      && (once ==> ClosedFees(h.trades) <= RecordedFees(h.fills))
      && (once ==> ClosedCommissions(h.trades) <= RecordedCommissions(h.fills))
      && (once ==> forall account, now ::
            && PnlOf(account, h.fills, h.trades, now).fees == RecordedFees(h.fills)
            && PnlOf(account, h.fills, h.trades, now).commissions == RecordedCommissions(h.fills))
  {
    hide RecorderRun, SumOn, ChargedTwice, InTwoHoldings, TimesIncrease, GoodRun, NeverMoves, CostsNotNegative, Charges;
    hide ClosedFees, ClosedCommissions;
    var h := RecorderRun(ops).history;
    ClosedTradesCost(ops);
    RecordedCosts(ops);
    forall f ensures ChargedTwice(ops, f) <==> InTwoHoldings(ops, f) {
      ChargedTwiceExactly(ops, names, f);
    }
    SumOnMonotone(AllCharged(ops), h.fills.Keys, FeeOf(h.fills));
    SumOnMonotone(AllCharged(ops), h.fills.Keys, CommissionOf(h.fills));
  }

  // ----- a run that charges a fill twice

  function FlipPosition(quantity: int, capturedAt: Time): BrokerPosition {
    BrokerPosition(None, "ES", quantity, None, None, None, false, capturedAt)
  }

  function FlipFill(): BrokerFill {
    BrokerFill("F", None, None, "ES", Sell, 2, 0, Some(1), None, 17)
  }

  function FlipSnapshot(positions: seq<BrokerPosition>, fills: seq<BrokerFill>): BrokerSnapshot {
    BrokerSnapshot(None, None, positions, [], fills)
  }

  /** Long at 10, short at 20 with the position captured at 15 and the fill at 17, gone at 30. */
  function FlipRun(): seq<RecorderOp> {
    [SyncOp(FlipSnapshot([FlipPosition(1, 5)], []), 10),
     SyncOp(FlipSnapshot([FlipPosition(-1, 15)], [FlipFill()]), 20),
     SyncOp(FlipSnapshot([], []), 30)]
  }

  function FlipRecord(): FillRecord {
    FillRecordOf(FlipFill(), RunContext(None, None), None)
  }

  lemma InOrderOfOne(k: string)
    ensures InOrder({}) == [] && InOrder({k}) == [k]
  {
    assert Least({k}) == k;
    assert {k} - {k} == {};
  }

  lemma ProcessedOne(last: PositionMap, p: BrokerPosition, now: Time)
    requires last.Keys <= {PositionKey(p)} && Get(last, PositionKey(p)) != Some(p)
    ensures Processed(last, [p], now) == [p]
  {
    hide PositionKey;
    var k := PositionKey(p);
    assert [p][..0] == [];
    assert PositionPass(last, [p]) == (last[k := p], [] + [p]);
    assert PositionKeys([p]) == {PositionKey([p][0])};
    assert last[k := p].Keys - PositionKeys([p]) == {};
    InOrderOfOne(k);
    assert [p] + [] == [p];
  }

  lemma ProcessedGone(p: BrokerPosition, now: Time)
    ensures Processed(map[PositionKey(p) := p], [], now) == [Flattened(p, now)]
  {
    hide PositionKey, Flattened;
    var k := PositionKey(p);
    var last: PositionMap := map[k := p];
    InOrderOfOne(k);
    assert PositionPass(last, []) == (last, []);
    assert last.Keys - PositionKeys([]) == {k};
    FlattenedAt(last, [k], now, 0);
    assert FlattenAll(last, [k], now) == [Flattened(p, now)];
    assert [] + [Flattened(p, now)] == [Flattened(p, now)];
  }

  /** A sync with one position that differs from the one remembered, if any. */
  lemma SyncOne(s: RecorderState, p: BrokerPosition, fills: seq<BrokerFill>, now: Time)
    requires s.lastPositions.Keys <= {PositionKey(p)} && Get(s.lastPositions, PositionKey(p)) != Some(p)
    ensures var after := Sync(s, FlipSnapshot([p], fills), now).0;
      && after.lastPositions == map[PositionKey(p) := p] && after.context == s.context
      && after.history.trades == SyncTrade(s.history.trades, after.history.fills, p, s.context, now).0
  {
    hide PositionKey, Processed, SyncTrade, Sync;
    var snap := FlipSnapshot([p], fills);
    SyncPositions(s, snap, now);
    ProcessedOne(s.lastPositions, p, now);
    assert [p][..0] == [];
    var after := Sync(s, snap, now).0;
    assert after.lastPositions.Keys == {PositionKey(p)} && after.lastPositions[PositionKey(snap.positions[0])] == p by {
      assert PositionKeys([p]) == {PositionKey([p][0])};
    }
    SyncKeepsContext(s, snap, now);
  }

  lemma SyncKeepsContext(s: RecorderState, snap: BrokerSnapshot, now: Time)
    ensures Sync(s, snap, now).0.context == s.context
  {
    hide DiffOf, Persist;
  }

  lemma SyncGone(s: RecorderState, p: BrokerPosition, now: Time)
    requires s.lastPositions == map[PositionKey(p) := p]
    ensures var after := Sync(s, FlipSnapshot([], []), now).0;
      after.history.trades == SyncTrade(s.history.trades, after.history.fills, Flattened(p, now), s.context, now).0
  {
    hide PositionKey, Processed, SyncTrade, Flattened, Sync;
    SyncPositions(s, FlipSnapshot([], []), now);
    ProcessedGone(p, now);
    assert [Flattened(p, now)][..0] == [];
  }

  lemma NoNewFills(s: RecorderState, positions: seq<BrokerPosition>, now: Time)
    ensures Sync(s, FlipSnapshot(positions, []), now).0.history.fills == s.history.fills
    ensures Sync(s, FlipSnapshot(positions, []), now).0.seenFills == s.seenFills
  {
    hide Sync;
    SyncFills(s, FlipSnapshot(positions, []), now);
  }

  lemma OneNewFill(s: RecorderState, positions: seq<BrokerPosition>, now: Time)
    requires s.seenFills == {} && s.history.fills == map[] && s.context == RunContext(None, None)
    ensures Sync(s, FlipSnapshot(positions, [FlipFill()]), now).0.history.fills == map["F" := FlipRecord()]
  {
    hide Sync;
    SyncFills(s, FlipSnapshot(positions, [FlipFill()]), now);
    assert [FlipFill()][..0] == [];
    assert [FlipRecord()][..0] == [];
  }

  lemma FirstTrade(fills: Fills, context: RunContext)
    ensures SyncTrade(map[], fills, FlipPosition(1, 5), context, 10).0
         == map[TradeIdFor("ES", 10) := OpenedTrade(FlipPosition(1, 5), Buy, context, 10)]
  {
    hide TradeIdFor, FoldCase;
    var none: Ledger := map[];
    assert OpenIds(none, "ES") == {};
  }

  lemma OnlyOpenFound(trades: Ledger, id: string)
    requires IsOpen(trades, id) && trades[id].symbol == "ES" && forall other :: IsOpen(trades, other) ==> other == id
    ensures FindOpen(trades, "ES") == Some(id)
  {
    hide FoldCase;
    var found := OpenIds(trades, "ES");
    assert id in found && forall other :: other in found ==> IsOpen(trades, other);
    assert found == {id};
  }

  lemma SecondTrade(first: TradeSummary, fills: Fills, context: RunContext)
    requires first == OpenedTrade(FlipPosition(1, 5), Buy, context, 10)
    ensures var a, b, p := TradeIdFor("ES", 10), TradeIdFor("ES", 20), FlipPosition(-1, 15);
      a != b && SyncTrade(map[a := first], fills, p, context, 20).0
                == map[a := ClosedTrade(first, fills, p, 20), b := OpenedTrade(p, Sell, context, 20)]
  {
    hide TradeIdFor, FoldCase, ExitPrice, SumOn, ChargedFills;
    var a, b, p := TradeIdFor("ES", 10), TradeIdFor("ES", 20), FlipPosition(-1, 15);
    if a == b {
      TradeIdNamesItsSymbol("ES", 10, "ES", 20);
    }
    OnlyOpenFound(map[a := first], a);
    var closed := map[a := ClosedTrade(first, fills, p, 20)];
    assert OpenIds(closed, "ES") == {};
    assert map[a := first][a := ClosedTrade(first, fills, p, 20)] == closed;
    hide FindOpen, StaleIds;
    assert SyncTrade(closed, fills, p, context, 20).0 == closed[b := OpenedTrade(p, Sell, context, 20)] by {
      NothingFound(closed);
    }
  }

  lemma NothingFound(trades: Ledger)
    requires OpenIds(trades, "ES") == {}
    ensures FindOpen(trades, "ES") == None
  {
  }

  lemma ThirdTrade(closed: TradeSummary, second: TradeSummary, fills: Fills, context: RunContext)
    requires closed.status == TradeClosed && second == OpenedTrade(FlipPosition(-1, 15), Sell, context, 20)
    requires TradeIdFor("ES", 10) != TradeIdFor("ES", 20)
    ensures var a, b, p := TradeIdFor("ES", 10), TradeIdFor("ES", 20), Flattened(FlipPosition(-1, 15), 30);
      SyncTrade(map[a := closed, b := second], fills, p, context, 30).0
      == map[a := closed, b := ClosedTrade(second, fills, p, 30)]
  {
    hide TradeIdFor, FoldCase, ExitPrice, SumOn, ChargedFills, OpenIds;
    OnlyOpenFound(map[TradeIdFor("ES", 10) := closed, TradeIdFor("ES", 20) := second], TradeIdFor("ES", 20));
  }

  /** A trade whose window holds the fill is charged its whole fee. */
  lemma FlipFeeCharged(record: TradeSummary, p: BrokerPosition, now: Time)
    requires record.symbol == "ES" && record.openedAt <= 17 <= now
    ensures ClosedTrade(record, map["F" := FlipRecord()], p, now).fees == 1
  {
    hide ExitPrice;
    var fills: Fills := map["F" := FlipRecord()];
    SymbolIsItself("ES");
    assert ChargedFills(fills, "ES", record.openedAt, now) == {"F"};
    SumOfOne("F", FeeOf(fills));
    SumOfOne("F", CommissionOf(fills));
  }

  lemma SumOfOne(id: string, w: string -> int)
    ensures SumOn({id}, w) == w(id)
  {
    SumOnRemove({id}, w, id);
    assert {id} - {id} == {};
  }

  lemma FeesOfTwo(a: string, b: string, first: TradeSummary, second: TradeSummary)
    requires a != b && first.status == TradeClosed && second.status == TradeClosed
    ensures ClosedFees(map[a := first, b := second]) == first.fees + second.fees
  {
    hide SumOn;
    var trades: Ledger := map[a := first, b := second];
    SumOnRemove(trades.Keys, ClosedFeeOf(trades), a);
    assert trades.Keys - {a} == {b};
    SumOfOne(b, ClosedFeeOf(trades));
  }

  /**
   * A fill charged twice. The flipped position was captured before the sync that closes the first trade, as a
   * position that is already held always is; a fill between the two times lies in both windows, and the closed
   * trades cost twice what was recorded.
   */
  lemma FlipChargesTwice()
    ensures var h := RecorderRun(FlipRun()).history;
      ClosedFees(h.trades) == 2 && RecordedFees(h.fills) == 1
    ensures TimesIncrease(FlipRun()) && CostsNotNegative(FlipRun())
  {
    hide Sync, SyncTrade, FlipPosition, FlipRecord, Flattened, TradeIdFor, OpenedTrade;
    hide ClosedTrade, ClosedFees, SumOn, FeeOf;
    var run, context := FlipRun(), RunContext(None, None);
    var long, short := FlipPosition(1, 5), FlipPosition(-1, 15);
    var a, b := TradeIdFor("ES", 10), TradeIdFor("ES", 20);
    assert run[..2][..1] == run[..1] && run[..1][..0] == [] && run[..2] == [run[0], run[1]] && run[..1] == [run[0]];
    var s0 := FreshRecorder();
    var s1 := Sync(s0, FlipSnapshot([long], []), 10).0;
    var s2 := Sync(s1, FlipSnapshot([short], [FlipFill()]), 20).0;
    var s3 := Sync(s2, FlipSnapshot([], []), 30).0;
    assert RecorderRun(run[..0]) == s0 && RecorderRun(run[..1]) == s1;
    assert RecorderRun(run[..2]) == s2;
    assert RecorderRun(run) == s3;
    FlipKeys();
    SyncOne(s0, long, [], 10);
    NoNewFills(s0, [long], 10);
    SyncOne(s1, short, [FlipFill()], 20);
    OneNewFill(s1, [short], 20);
    SyncGone(s2, short, 30);
    NoNewFills(s2, [], 30);
    var fills := s2.history.fills;
    FirstTrade(s1.history.fills, context);
    var first, second := OpenedTrade(long, Buy, context, 10), OpenedTrade(short, Sell, context, 20);
    SecondTrade(first, fills, context);
    var closed, last := ClosedTrade(first, fills, short, 20), ClosedTrade(second, fills, Flattened(short, 30), 30);
    FlipTradeFacts(first, second, fills, context);
    ThirdTrade(closed, second, fills, context);
    FeesOfTwo(a, b, closed, last);
    FlipRecorded();
  }

  lemma FlipKeys()
    ensures PositionKey(FlipPosition(1, 5)) == PositionKey(FlipPosition(-1, 15))
      && FlipPosition(1, 5) != FlipPosition(-1, 15)
    ensures TimesIncrease(FlipRun()) && CostsNotNegative(FlipRun())
  {
    var run := FlipRun();
    assert run[..2][..1] == run[..1] && run[..1][..0] == [] && run[..3] == run;
    assert Reported(run[..1]) == [] + [] == [];
    assert Reported(run[..2]) == [] + [FlipFill()] == [FlipFill()];
    assert Reported(run) == [FlipFill()] + [] == [FlipFill()];
  }

  lemma FlipTradeFacts(first: TradeSummary, second: TradeSummary, fills: Fills, context: RunContext)
    requires first == OpenedTrade(FlipPosition(1, 5), Buy, context, 10)
    requires second == OpenedTrade(FlipPosition(-1, 15), Sell, context, 20) && fills == map["F" := FlipRecord()]
    ensures var closed := ClosedTrade(first, fills, FlipPosition(-1, 15), 20);
      closed.fees == 1 && closed.status == TradeClosed
    ensures var last := ClosedTrade(second, fills, Flattened(FlipPosition(-1, 15), 30), 30);
      last.fees == 1 && last.status == TradeClosed
  {
    hide TradeIdFor, ExitPrice, SumOn, ChargedFills, FlipRecord;
    FlipFeeCharged(first, FlipPosition(-1, 15), 20);
    FlipFeeCharged(second, Flattened(FlipPosition(-1, 15), 30), 30);
  }

  lemma FlipRecorded()
    ensures RecordedFees(map["F" := FlipRecord()]) == 1
  {
    var fills: Fills := map["F" := FlipRecord()];
    assert fills.Keys == {"F"};
    SumOfOne("F", FeeOf(fills));
  }
}
