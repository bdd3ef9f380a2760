// Front-month selection is a minimum, and the built-in chains always have one in time.
module FrontMonthLaws {
  import opened Prelude
  import opened InstrumentResolver

  ghost predicate IsFrontMonth(chain: seq<Listing>, asOf: Date, l: Listing) {
    && l in chain && !l.PastCutoff(asOf)
    && forall x :: x in chain && !x.PastCutoff(asOf) ==> MonthLeq(l.month, x.month)
  }

  lemma {:induction false} ScanFindsFirst(ordered: seq<Listing>, asOf: Date)
    requires SortedBy(BY_MONTH, ordered)
    ensures Scan(ordered, asOf).Ok? ==> IsFrontMonth(ordered, asOf, Scan(ordered, asOf).value.0)
    ensures Scan(ordered, asOf).Ok? ==> Scan(ordered, asOf).value.1 == Scan(ordered, asOf).value.0.SelectionBasis()
    ensures Scan(ordered, asOf).Err? ==> forall x :: x in ordered ==> x.PastCutoff(asOf)
    ensures Scan(ordered, asOf).Err? ==> Scan(ordered, asOf).error == NoActiveContract(asOf)
  {
    if ordered != [] {
      assert ordered == [ordered[0]] + ordered[1..];
      if ordered[0].PastCutoff(asOf) {
        ScanFindsFirst(ordered[1..], asOf);
      } else {
        forall x | x in ordered ensures MonthLeq(ordered[0].month, x.month) {
          var i :| 0 <= i < |ordered| && ordered[i] == x;
          assert i > 0 ==> BY_MONTH(ordered[0], ordered[i]);
        }
      }
    }
  }

  /** Sorting and scanning finds the least contract month that is not past its cutoff, if there is one. */
  lemma SelectionIsTheMinimum(chain: seq<Listing>, asOf: Date)
    ensures match SelectFrontMonth(chain, asOf)
            case Ok((l, basis)) => IsFrontMonth(chain, asOf, l) && basis == l.SelectionBasis()
            case Err(e) => e == NoActiveContract(asOf) && forall x :: x in chain ==> x.PastCutoff(asOf)
  {
    hide SortBy, Scan;
    assert TotalPreorder(BY_MONTH);
    SortBySorts(BY_MONTH, chain);
    ScanFindsFirst(SortBy(BY_MONTH, chain), asOf);
  }

  /** The order of a validated chain does not matter. */
  lemma SelectionIgnoresOrder(chain: seq<Listing>, other: seq<Listing>, asOf: Date)
    requires ValidChain(chain) && forall l :: l in chain <==> l in other
    ensures SelectFrontMonth(chain, asOf) == SelectFrontMonth(other, asOf)
  {
    hide SelectFrontMonth, SortBy;
    SelectionIsTheMinimum(chain, asOf);
    SelectionIsTheMinimum(other, asOf);
    var a, b := SelectFrontMonth(chain, asOf), SelectFrontMonth(other, asOf);
    if a.Ok? && b.Ok? {
      assert a.value.0.month == b.value.0.month;
      var i :| 0 <= i < |chain| && chain[i] == a.value.0;
      var j :| 0 <= j < |chain| && chain[j] == b.value.0;
      assert i == j;
    }
  }

  /** As time passes the front month never moves back, and a chain that has run out stays so. */
  lemma SelectionIsMonotone(chain: seq<Listing>, asOf: Date, later: Date)
    requires DateLeq(asOf, later)
    ensures SelectFrontMonth(chain, later).Ok? ==>
      && SelectFrontMonth(chain, asOf).Ok?
      && MonthLeq(SelectFrontMonth(chain, asOf).value.0.month, SelectFrontMonth(chain, later).value.0.month)
  {
    hide SelectFrontMonth;
    SelectionIsTheMinimum(chain, asOf);
    SelectionIsTheMinimum(chain, later);
    if SelectFrontMonth(chain, later).Ok? {
      var l := SelectFrontMonth(chain, later).value.0;
      assert !l.PastCutoff(asOf);
    }
  }

  // ----- generated chains

  /** A cycle: at least one month, each between 1 and 12, in ascending order. */
  ghost predicate IsCycle(months: seq<nat>) {
    && months != []
    && (forall i :: 0 <= i < |months| ==> 1 <= months[i] <= 12)
    && forall i, j :: 0 <= i < j < |months| ==> months[i] < months[j]
  }

  ghost predicate IsBuilt(l: Listing, root: string, months: seq<nat>, from: int, until: int, day: int) {
    exists y, i :: from <= y < until && 0 <= i < |months| && l == BuiltListing(root, y, months[i], day)
  }

  ghost predicate Ascending(chain: seq<Listing>) {
    forall i, j :: 0 <= i < j < |chain| ==> chain[i].month != chain[j].month && MonthLeq(chain[i].month, chain[j].month)
  }

  /** A generated chain: built listings of its years, in ascending order of their months. */
  lemma {:induction false} BuildChainContents(root: string, months: seq<nat>, startYear: int, years: nat, day: int)
    requires IsCycle(months)
    ensures var chain := BuildChain(root, months, startYear, years, day);
      && (forall l :: l in chain ==> IsBuilt(l, root, months, startYear, startYear + years, day))
      && Ascending(chain)
      && (years > 0 ==>
            chain != [] && chain[|chain| - 1] == BuiltListing(root, startYear + years - 1, months[|months| - 1], day))
  {
    if years > 0 {
      hide BuiltListing, Ascending;
      BuildChainContents(root, months, startYear, years - 1, day);
      var before := BuildChain(root, months, startYear, years - 1, day);
      var last := YearListings(root, months, startYear + years - 1, day);
      AppendYear(before, root, months, startYear, startYear + years - 1, day);
      forall l | l in before + last ensures IsBuilt(l, root, months, startYear, startYear + years, day) {
        if l in before {
          var y, i :| startYear <= y < startYear + years - 1 && 0 <= i < |months|
            && l == BuiltListing(root, y, months[i], day);
        } else {
          var i :| 0 <= i < |last| && last[i] == l;
        }
      }
    }
  }

  /** A further year keeps the order. */
  lemma AppendYear(before: seq<Listing>, root: string, months: seq<nat>, startYear: int, year: int, day: int)
    requires IsCycle(months) && Ascending(before)
    requires forall l :: l in before ==> IsBuilt(l, root, months, startYear, year, day)
    ensures Ascending(before + YearListings(root, months, year, day))
  {
    hide RawSymbol, ContractSymbol, PreviousMonthDate;
    var chain := before + YearListings(root, months, year, day);
    forall i, j | 0 <= i < j < |chain|
      ensures chain[i].month != chain[j].month && MonthLeq(chain[i].month, chain[j].month)
    {
      if i < |before| <= j {
        assert before[i] in before;
      }
    }
  }

  lemma CutoffsGrow(year: int, month: nat, laterYear: int, laterMonth: nat, day: int)
    requires 1 <= month <= 12 && 1 <= laterMonth <= 12
    requires MonthLeq(ContractMonth(year, month), ContractMonth(laterYear, laterMonth))
    ensures DateLeq(PreviousMonthDate(year, month, day), PreviousMonthDate(laterYear, laterMonth, day))
  {
  }

  /** A generated chain is valid and resolves exactly until the cutoff of its last contract. */
  lemma GeneratedChainResolves(root: string, months: seq<nat>, startYear: int, yearsAhead: nat, day: int, asOf: Date)
    requires IsCycle(months)
    ensures var chain := BuildChain(root, months, startYear, yearsAhead + 1, day);
      var cutoff := PreviousMonthDate(startYear + yearsAhead, months[|months| - 1], day);
      && ValidChain(chain)
      && (SelectFrontMonth(chain, asOf).Ok? <==> !DateLeq(cutoff, asOf))
  {
    hide SelectFrontMonth, BuildChain, PreviousMonthDate, RawSymbol, ContractSymbol;
    BuildChainContents(root, months, startYear, yearsAhead + 1, day);
    var chain := BuildChain(root, months, startYear, yearsAhead + 1, day);
    var last := chain[|chain| - 1];
    var cutoff := PreviousMonthDate(startYear + yearsAhead, months[|months| - 1], day);
    forall i | 0 <= i < |chain| ensures 1 <= chain[i].month.month <= 12 {
      assert chain[i] in chain;
    }
    SelectionIsTheMinimum(chain, asOf);
    assert last in chain && (last.PastCutoff(asOf) <==> DateLeq(cutoff, asOf));
    if DateLeq(cutoff, asOf) {
      forall l | l in chain ensures l.PastCutoff(asOf) {
        var y, i :| startYear <= y < startYear + (yearsAhead + 1) && 0 <= i < |months|
          && l == BuiltListing(root, y, months[i], day);
        CutoffsGrow(y, months[i], startYear + yearsAhead, months[|months| - 1], day);
      }
    }
  }

  lemma BuiltinCycles(market: Market)
    ensures IsCycle(CycleMonths(market)) && CycleMonths(market)[|CycleMonths(market)| - 1] == 12
    ensures 1 <= RolloverDay(market) <= 28
  {
  }

  /**
   * Built-in chains are validated and have a front month for any date of their start year and the next, and
   * further exactly until the rollover day of November in the year after that: two years on, a chain built at
   * startup runs out.
   */
  lemma BuiltinChainsResolve(market: Market, startYear: int, asOf: Date)
    ensures ValidChain(BuiltinChain(market, startYear))
    ensures SelectFrontMonth(BuiltinChain(market, startYear), asOf).Ok? <==>
      !DateLeq(Date(startYear + 2, 11, RolloverDay(market)), asOf)
    ensures asOf.year <= startYear + 1 ==> SelectFrontMonth(BuiltinChain(market, startYear), asOf).Ok?
  {
    hide SelectFrontMonth, BuildChain, ValidChain, IsCycle, CycleMonths, RolloverDay, Root;
    BuiltinCycles(market);
    GeneratedChainResolves(Root(market), CycleMonths(market), startYear, YEARS_AHEAD, RolloverDay(market), asOf);
  }

  // ----- symbols

  lemma MonthCodesDiffer(a: nat, b: nat)
    requires 1 <= a <= 12 && 1 <= b <= 12 && FuturesMonthCode(a) == FuturesMonthCode(b)
    ensures a == b
  {
  }

  /** Raw symbols keep one digit of the year: they agree exactly on the same root, month and year modulo ten. */
  lemma RawSymbolsAgree(root: string, a: ContractMonth, other: string, b: ContractMonth)
    requires 1 <= a.month <= 12 && 1 <= b.month <= 12
    ensures RawSymbol(root, a) == RawSymbol(other, b)
       <==> root == other && a.month == b.month && a.year % 10 == b.year % 10
  {
    hide FuturesMonthCode;
    var s, t := RawSymbol(root, a), RawSymbol(other, b);
    assert |Digits(a.year % 10)| == 1 && |Digits(b.year % 10)| == 1;
    if s == t {
      assert s[..|root|] == root && t[..|other|] == other;
      assert s[|root|] == FuturesMonthCode(a.month) && t[|other|] == FuturesMonthCode(b.month);
      MonthCodesDiffer(a.month, b.month);
      assert s[|root| + 1..] == Digits(a.year % 10) && t[|other| + 1..] == Digits(b.year % 10);
      DigitsInjective(a.year % 10, b.year % 10);
    }
  }

  lemma RootsDiffer(a: Market, b: Market)
    requires Root(a) == Root(b)
    ensures a == b
  {
  }

  /** Over all built-in chains of one start year, no two contracts share a raw symbol. */
  lemma BuiltinSymbolsAreDistinct(a: Market, b: Market, startYear: int, i: nat, j: nat)
    requires i < |BuiltinChain(a, startYear)| && j < |BuiltinChain(b, startYear)|
    requires BuiltinChain(a, startYear)[i].databentoSymbol == BuiltinChain(b, startYear)[j].databentoSymbol
    ensures a == b && i == j
  {
    hide BuildChain, RawSymbol, ContractSymbol, PreviousMonthDate, IsCycle, CycleMonths, RolloverDay, Root;
    BuiltinCycles(a);
    BuiltinCycles(b);
    var chainA, chainB := BuiltinChain(a, startYear), BuiltinChain(b, startYear);
    BuildChainContents(Root(a), CycleMonths(a), startYear, YEARS_AHEAD + 1, RolloverDay(a));
    BuildChainContents(Root(b), CycleMonths(b), startYear, YEARS_AHEAD + 1, RolloverDay(b));
    assert chainA[i] in chainA && chainB[j] in chainB;
    CycleBounds(a);
    CycleBounds(b);
    RawSymbolsAgree(Root(a), chainA[i].month, Root(b), chainB[j].month);
    RootsDiffer(a, b);
  }

  lemma CycleBounds(market: Market)
    ensures forall i :: 0 <= i < |CycleMonths(market)| ==> 1 <= CycleMonths(market)[i] <= 12
  {
  }
}
