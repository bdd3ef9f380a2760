// Front-month contract selection: chain validation, sort and scan, and the built-in contract chains.
module InstrumentResolver {
  import opened Prelude

  datatype Date = Date(year: int, month: int, day: int)

  predicate DateLeq(a: Date, b: Date) {
    || a.year < b.year
    || (a.year == b.year && a.month < b.month)
    || (a.year == b.year && a.month == b.month && a.day <= b.day)
  }

  datatype ContractMonth = ContractMonth(year: int, month: nat)

  predicate MonthLeq(a: ContractMonth, b: ContractMonth) {
    a.year < b.year || (a.year == b.year && a.month <= b.month)
  }

  datatype Basis = FirstNoticeDate | LastTradeDate | ChainOrder

  datatype Listing = Listing(
    month: ContractMonth,
    databentoSymbol: string,
    tradovateSymbol: string,
    firstNoticeDate: Option<Date>,
    lastTradeDate: Option<Date>)
  {
    /** The day the contract is rolled away from, and which date that is. */
    function RolloverCutoff(): Option<(Date, Basis)> {
      match firstNoticeDate
      case Some(date) => Some((date, FirstNoticeDate))
      case None =>
        match lastTradeDate
        case Some(date) => Some((date, LastTradeDate))
        case None => None
    }

    predicate PastCutoff(asOf: Date) {
      RolloverCutoff().Some? && DateLeq(RolloverCutoff().value.0, asOf)
    }

    function SelectionBasis(): Basis {
      if RolloverCutoff().Some? then RolloverCutoff().value.1 else ChainOrder
    }
  }

  datatype ResolverError =
    | EmptyContractChain
    | InvalidContractMonth(month: nat)
    | DuplicateContractMonth
    | NoActiveContract(asOf: Date)

  // ----- validation

  ghost predicate ValidChain(chain: seq<Listing>) {
    && (forall i :: 0 <= i < |chain| ==> 1 <= chain[i].month.month <= 12)
    && forall i, j :: 0 <= i < j < |chain| ==> chain[i].month != chain[j].month
  }

  /** What is wrong with listing `i`, the ones before it being fine. */
  ghost predicate FirstFault(chain: seq<Listing>, i: int, error: ResolverError) {
    && 0 <= i < |chain| && ValidChain(chain[..i])
    && match error
       case InvalidContractMonth(m) => chain[i].month.month == m && !(1 <= m <= 12)
       case DuplicateContractMonth =>
         1 <= chain[i].month.month <= 12 && exists j :: 0 <= j < i && chain[j].month == chain[i].month
       case _ => false
  }

  method ValidateChain(chain: seq<Listing>) returns (error: Option<ResolverError>)
    ensures error.None? <==> ValidChain(chain)
    ensures error.Some? ==> exists i :: FirstFault(chain, i, error.value)
  {
    var months: set<ContractMonth> := {};
    for i := 0 to |chain|
      invariant ValidChain(chain[..i])
      invariant months == set j | 0 <= j < i :: chain[j].month
    {
      var month := chain[i].month;
      if !(1 <= month.month <= 12) {
        assert FirstFault(chain, i, InvalidContractMonth(month.month));
        return Some(InvalidContractMonth(month.month));
      }
      if month in months {
        assert FirstFault(chain, i, DuplicateContractMonth);
        return Some(DuplicateContractMonth);
      }
      months := months + {month};
    }
    assert chain[..|chain|] == chain;
    return None;
  }

  // ----- selection

  const BY_MONTH: (Listing, Listing) -> bool := (a: Listing, b: Listing) => MonthLeq(a.month, b.month)

  function Scan(ordered: seq<Listing>, asOf: Date): Result<(Listing, Basis), ResolverError> {
    if ordered == [] then Err(NoActiveContract(asOf))
    else if ordered[0].PastCutoff(asOf) then Scan(ordered[1..], asOf)
    else Ok((ordered[0], ordered[0].SelectionBasis()))
  }

  function SelectFrontMonth(chain: seq<Listing>, asOf: Date): Result<(Listing, Basis), ResolverError> {
    Scan(SortBy(BY_MONTH, chain), asOf)
  }

  method FindFrontMonth(chain: seq<Listing>, asOf: Date) returns (r: Result<(Listing, Basis), ResolverError>)
    ensures r == SelectFrontMonth(chain, asOf)
  {
    var ordered := SortBy(BY_MONTH, chain);
    for i := 0 to |ordered|
      invariant Scan(ordered, asOf) == Scan(ordered[i..], asOf)
    {
      var cutoff := ordered[i].RolloverCutoff();
      if cutoff.Some? && DateLeq(cutoff.value.0, asOf) {
        assert ordered[i..][1..] == ordered[i + 1..];
        continue;
      }
      if cutoff.Some? {
        return Ok((ordered[i], cutoff.value.1));
      }
      return Ok((ordered[i], ChainOrder));
    }
    return Err(NoActiveContract(asOf));
  }

  method ResolveFrontMonth(chain: seq<Listing>, asOf: Date) returns (r: Result<(Listing, Basis), ResolverError>)
    ensures chain == [] ==> r == Err(EmptyContractChain)
    ensures chain != [] && ValidChain(chain) ==> r == SelectFrontMonth(chain, asOf)
    ensures chain != [] && !ValidChain(chain) ==> r.Err? && exists i :: FirstFault(chain, i, r.error)
  {
    if chain == [] {
      return Err(EmptyContractChain);
    }
    var fault := ValidateChain(chain);
    if fault.Some? {
      return Err(fault.value);
    }
    r := FindFrontMonth(chain, asOf);
  }

  // ----- symbols

  const MONTH_CODES: string := "FGHJKMNQUVXZ"

  function FuturesMonthCode(month: nat): char {
    if 1 <= month <= 12 then MONTH_CODES[month - 1] else '?'
  }

  function ContractSymbol(root: string, month: ContractMonth): string {
    root + [FuturesMonthCode(month.month)] + IntString(month.year)
  }

  /** The exchange's short symbol: only the last digit of the year. */
  function RawSymbol(root: string, month: ContractMonth): string {
    root + [FuturesMonthCode(month.month)] + Digits(month.year % 10)
  }

  // ----- built-in chains

  /** The given day in the month before the contract month. */
  function PreviousMonthDate(year: int, month: nat, day: int): Date {
    if month == 1 then Date(year - 1, 12, day) else Date(year, month - 1, day)
  }

  function BuiltListing(root: string, year: int, month: nat, day: int): Listing {
    var contractMonth := ContractMonth(year, month);
    Listing(contractMonth, RawSymbol(root, contractMonth), ContractSymbol(root, contractMonth),
            Some(PreviousMonthDate(year, month, day)), None)
  }

  function YearListings(root: string, months: seq<nat>, year: int, day: int): (r: seq<Listing>)
    ensures |r| == |months| && forall i :: 0 <= i < |months| ==> r[i] == BuiltListing(root, year, months[i], day)
  {
    if months == [] then []
    else YearListings(root, months[..|months| - 1], year, day) + [BuiltListing(root, year, months[|months| - 1], day)]
  }

  /** The listings of `years` consecutive years. */
  function BuildChain(root: string, months: seq<nat>, startYear: int, years: nat, day: int): seq<Listing> {
    if years == 0 then []
    else BuildChain(root, months, startYear, years - 1, day) + YearListings(root, months, startYear + years - 1, day)
  }

  method BuildContractChain(root: string, months: seq<nat>, startYear: int, yearsAhead: nat, day: int)
    returns (chain: seq<Listing>)
    ensures chain == BuildChain(root, months, startYear, yearsAhead + 1, day)
  {
    hide BuiltListing;
    chain := [];
    for y := 0 to yearsAhead + 1
      invariant chain == BuildChain(root, months, startYear, y, day)
    {
      ghost var before := chain;
      for i := 0 to |months|
        invariant chain == before + YearListings(root, months[..i], startYear + y, day)
      {
        assert months[..i + 1][..i] == months[..i];
        chain := chain + [BuiltListing(root, startYear + y, months[i], day)];
      }
      assert months[..|months|] == months;
    }
  }

  datatype Market = Gold | Silver | MicroSilver | CrudeOil | Es | Nq | Ym | Rty

  function Root(market: Market): string {
    match market
    case Gold => "GC" case Silver => "SI" case MicroSilver => "SIL" case CrudeOil => "CL"
    case Es => "ES" case Nq => "NQ" case Ym => "YM" case Rty => "RTY"
  }

  function CycleMonths(market: Market): seq<nat> {
    match market
    case Gold => [2, 4, 6, 8, 10, 12]
    case Silver => [3, 5, 7, 9, 12]
    case MicroSilver => [3, 5, 7, 9, 12]
    case CrudeOil => [1, 2, 3, 4, 5, 6, 7, 8, 9, 10, 11, 12]
    case _ => [3, 6, 9, 12]
  }

  function RolloverDay(market: Market): int {
    match market
    case Gold => 28
    case Silver => 26
    case MicroSilver => 26
    case CrudeOil => 20
    case _ => 15
  }

  const YEARS_AHEAD: nat := 2

  function BuiltinChain(market: Market, startYear: int): seq<Listing> {
    BuildChain(Root(market), CycleMonths(market), startYear, YEARS_AHEAD + 1, RolloverDay(market))
  }
}
