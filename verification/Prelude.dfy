// Shared vocabulary: optional values, results, map lookup, the key order of Rust's ordered maps,
// and sums over finite key sets.
module Prelude {

  datatype Option<+T> = None | Some(value: T) {
    function GetOr(default: T): T {
      match this
      case Some(v) => v
      case None => default
    }

    /** Rust's `Option::or`: the first value present. */
    function Or(other: Option<T>): Option<T> {
      if Some? then this else other
    }
  }

  datatype Result<+T, +E> = Ok(value: T) | Err(error: E)

  function Get<K, V>(m: map<K, V>, k: K): Option<V> {
    if k in m then Some(m[k]) else None
  }

  /** Stores a present value under `k`, or removes the key. */
  function Put<K, V>(m: map<K, V>, k: K, v: Option<V>): map<K, V> {
    match v
    case Some(x) => m[k := x]
    case None => m - {k}
  }

  function Min(a: int, b: int): int { if a <= b then a else b }

  function Max(a: int, b: int): int { if a >= b then a else b }

  function Abs(a: int): nat { if a >= 0 then a else -a }

  // ----- the last n elements of a sequence

  function LastN<T>(s: seq<T>, n: nat): seq<T> {
    if |s| <= n then s else s[|s| - n..]
  }

  lemma LastNOfPush<T>(s: seq<T>, x: T, n: nat)
    requires n > 0
    ensures LastN(LastN(s, n) + [x], n) == LastN(s + [x], n)
  {
    if |s| < n {
      assert LastN(s, n) == s;
    } else {
      var tail := LastN(s, n);
      assert (tail + [x])[1..] == (s + [x])[|s| + 1 - n..];
    }
  }

  function Reversed<T>(s: seq<T>): (r: seq<T>)
    ensures |r| == |s| && forall i :: 0 <= i < |r| ==> r[i] == s[|s| - 1 - i]
  {
    if s == [] then [] else [s[|s| - 1]] + Reversed(s[..|s| - 1])
  }

  // ----- stable sorting by a "not after" relation, as `sort_by_key` does

  function InsertBy<T>(leq: (T, T) -> bool, x: T, s: seq<T>): (r: seq<T>)
    ensures |r| == |s| + 1
  {
    if s == [] then [x]
    else if leq(x, s[0]) then [x] + s
    else [s[0]] + InsertBy(leq, x, s[1..])
  }

  function SortBy<T>(leq: (T, T) -> bool, s: seq<T>): (r: seq<T>)
    ensures |r| == |s|
  {
    if s == [] then [] else InsertBy(leq, s[0], SortBy(leq, s[1..]))
  }

  ghost predicate SortedBy<T>(leq: (T, T) -> bool, s: seq<T>) {
    forall i, j :: 0 <= i < j < |s| ==> leq(s[i], s[j])
  }

  ghost predicate TotalPreorder<T(!new)>(leq: (T, T) -> bool) {
    && (forall x, y :: leq(x, y) || leq(y, x))
    && (forall x, y, z :: leq(x, y) && leq(y, z) ==> leq(x, z))
  }

  lemma {:induction false} InsertByKeepsOrder<T(!new)>(leq: (T, T) -> bool, x: T, s: seq<T>)
    requires TotalPreorder(leq) && SortedBy(leq, s)
    ensures SortedBy(leq, InsertBy(leq, x, s))
    ensures forall y :: y in InsertBy(leq, x, s) <==> y == x || y in s
  {
    if s == [] {
    } else if leq(x, s[0]) {
      forall y | y in s ensures leq(x, y) {
        var i :| 0 <= i < |s| && s[i] == y;
        assert leq(s[0], s[i]) || i == 0;
      }
      assert forall y :: y in s ==> leq(x, y);
    } else {
      InsertByKeepsOrder(leq, x, s[1..]);
      var rest := InsertBy(leq, x, s[1..]);
      forall y | y in rest ensures leq(s[0], y) {
        if y in s[1..] {
          var i :| 0 <= i < |s| - 1 && s[1..][i] == y;
          assert leq(s[0], s[i + 1]);
        }
      }
      assert s == [s[0]] + s[1..];
    }
  }

  lemma {:induction false} SortBySorts<T(!new)>(leq: (T, T) -> bool, s: seq<T>)
    requires TotalPreorder(leq)
    ensures SortedBy(leq, SortBy(leq, s))
    ensures forall y :: y in SortBy(leq, s) <==> y in s
  {
    if s != [] {
      SortBySorts(leq, s[1..]);
      InsertByKeepsOrder(leq, s[0], SortBy(leq, s[1..]));
      assert s == [s[0]] + s[1..];
    }
  }

  /** Sorting leaves an already sorted sequence alone. */
  lemma {:induction false} SortByIdentity<T>(leq: (T, T) -> bool, s: seq<T>)
    requires SortedBy(leq, s)
    ensures SortBy(leq, s) == s
  {
    if s != [] {
      SortByIdentity(leq, s[1..]);
      if |s| > 1 {
        assert leq(s[0], s[1]);
      }
    }
  }

  // ----- the key order of a BTreeMap<String, _>

  /** Lexicographic order on strings, the `Ord` of Rust's `String`. */
  predicate StrLeq(a: string, b: string) {
    a == [] || (b != [] && (a[0] < b[0] || (a[0] == b[0] && StrLeq(a[1..], b[1..]))))
  }

  lemma StrLeqTotal(a: string, b: string)
    ensures StrLeq(a, b) || StrLeq(b, a)
  {
  }

  lemma {:induction false} StrLeqAntisymmetric(a: string, b: string)
    requires StrLeq(a, b) && StrLeq(b, a)
    ensures a == b
  {
    if a != [] && b != [] {
      StrLeqAntisymmetric(a[1..], b[1..]);
      assert a == [a[0]] + a[1..] && b == [b[0]] + b[1..];
    }
  }

  lemma {:induction false} StrLeqTransitive(a: string, b: string, c: string)
    requires StrLeq(a, b) && StrLeq(b, c)
    ensures StrLeq(a, c)
  {
    if a != [] && a[0] == b[0] == c[0] {
      StrLeqTransitive(a[1..], b[1..], c[1..]);
    }
  }

  ghost predicate IsLeast(m: string, s: set<string>) {
    m in s && forall x :: x in s ==> StrLeq(m, x)
  }

  lemma {:induction false} LeastExists(s: set<string>)
    requires s != {}
    ensures exists m :: IsLeast(m, s)
  {
    var x :| x in s;
    StrLeqTotal(x, x);
    if s == {x} {
      assert IsLeast(x, s);
    } else {
      LeastExists(s - {x});
      var m :| IsLeast(m, s - {x});
      StrLeqTotal(x, m);
      var best := if StrLeq(x, m) then x else m;
      forall y | y in s ensures StrLeq(best, y) {
        if y != x && best == x { StrLeqTransitive(x, m, y); }
      }
      assert IsLeast(best, s);
    }
  }

  ghost function Least(s: set<string>): (m: string)
    requires s != {}
    ensures IsLeast(m, s)
  {
    LeastExists(s);
    var m :| IsLeast(m, s);
    m
  }

  /** The keys of a BTreeMap in the order its iterators visit them. */
  ghost function InOrder(s: set<string>): (r: seq<string>)
    ensures forall x :: x in r <==> x in s
    ensures forall i, j :: 0 <= i < j < |r| ==> r[i] != r[j]
  {
    if s == {} then []
    else
      var m := Least(s);
      [m] + InOrder(s - {m})
  }

  method LeastKey(s: set<string>) returns (m: string)
    requires s != {}
    ensures m == Least(s)
  {
    m :| m in s;
    var others := s - {m};
    StrLeqTotal(m, m);
    while others != {}
      invariant others <= s && IsLeast(m, s - others)
      decreases others
    {
      var k :| k in others;
      if !StrLeq(m, k) {
        StrLeqTotal(m, k);
        StrLeqTotal(k, k);
        forall x | x in s - others ensures StrLeq(k, x) { StrLeqTransitive(k, m, x); }
        m := k;
      }
      others := others - {k};
    }
    assert s - others == s;
    StrLeqAntisymmetric(m, Least(s));
  }

  /** Visits a key set in ascending order. */
  method KeysInOrder(s: set<string>) returns (r: seq<string>)
    ensures r == InOrder(s)
  {
    hide InOrder, Least;
    r := [];
    var rest := s;
    assert [] + InOrder(s) == InOrder(s);
    while rest != {}
      invariant r + InOrder(rest) == InOrder(s)
      decreases rest
    {
      var m := LeastKey(rest);
      InOrderUnfolds(rest);
      assert r + ([m] + InOrder(rest - {m})) == (r + [m]) + InOrder(rest - {m});
      r := r + [m];
      rest := rest - {m};
    }
    InOrderUnfolds(rest);
    assert r + [] == r;
  }

  lemma InOrderUnfolds(s: set<string>)
    ensures s == {} ==> InOrder(s) == []
    ensures s != {} ==> Least(s) in s && InOrder(s) == [Least(s)] + InOrder(s - {Least(s)})
  {
  }

  // ----- sums of integer weights over key sets

  ghost function SumOn(ids: set<string>, w: string -> int): int {
    if ids == {} then 0
    else
      var x := Least(ids);
      w(x) + SumOn(ids - {x}, w)
  }

  lemma {:induction false} SumOnRemove(ids: set<string>, w: string -> int, k: string)
    requires k in ids
    ensures SumOn(ids, w) == w(k) + SumOn(ids - {k}, w)
  {
    var x := Least(ids);
    if x != k {
      SumOnRemove(ids - {x}, w, k);
      SumOnRemove(ids - {k}, w, x);
      assert ids - {x} - {k} == ids - {k} - {x};
    }
  }

  lemma {:induction false} SumOnUnion(a: set<string>, b: set<string>, w: string -> int)
    requires a !! b
    ensures SumOn(a + b, w) == SumOn(a, w) + SumOn(b, w)
  {
    if b == {} {
      assert a + b == a;
    } else {
      var x := Least(b);
      SumOnUnion(a, b - {x}, w);
      SumOnRemove(a + b, w, x);
      assert a + b - {x} == a + (b - {x});
    }
  }

  lemma {:induction false} SumOnSame(ids: set<string>, w: string -> int, v: string -> int)
    requires forall x :: x in ids ==> w(x) == v(x)
    ensures SumOn(ids, w) == SumOn(ids, v)
  {
    if ids != {} {
      SumOnSame(ids - {Least(ids)}, w, v);
    }
  }

  lemma {:induction false} SumOnMonotone(a: set<string>, b: set<string>, w: string -> int)
    requires a <= b && forall x :: x in b ==> w(x) >= 0
    ensures 0 <= SumOn(a, w) <= SumOn(b, w)
  {
    SumOnNonNegative(a, w);
    SumOnNonNegative(b - a, w);
    SumOnUnion(a, b - a, w);
    assert a + (b - a) == b;
  }

  lemma {:induction false} SumOnNonNegative(a: set<string>, w: string -> int)
    requires forall x :: x in a ==> w(x) >= 0
    ensures SumOn(a, w) >= 0
  {
    if a != {} {
      SumOnNonNegative(a - {Least(a)}, w);
    }
  }

  method TotalOn(ids: set<string>, w: string -> int) returns (total: int)
    ensures total == SumOn(ids, w)
  {
    total := 0;
    var rest := ids;
    while rest != {}
      invariant rest <= ids
      invariant total + SumOn(rest, w) == SumOn(ids, w)
      decreases rest
    {
      var x := LeastKey(rest);
      total := total + w(x);
      rest := rest - {x};
    }
  }

  // ----- decimal formatting

  function DigitChar(d: int): char
    requires 0 <= d < 10
  {
    ((d + 48) as char)
  }

  function Digits(n: nat): (r: string)
    ensures r != [] && forall i :: 0 <= i < |r| ==> '0' <= r[i] <= '9'
  {
    if n < 10 then [DigitChar(n)] else Digits(n / 10) + [DigitChar(n % 10)]
  }

  function IntString(n: int): string {
    if n < 0 then "-" + Digits(-n) else Digits(n)
  }

  lemma {:induction false} DigitsInjective(a: nat, b: nat)
    requires Digits(a) == Digits(b)
    ensures a == b
  {
    var s := Digits(a);
    assert s[|s| - 1] == DigitChar(a % 10) && s[|s| - 1] == DigitChar(b % 10);
    if a >= 10 && b >= 10 {
      assert Digits(a / 10) == s[..|s| - 1] == Digits(b / 10);
      DigitsInjective(a / 10, b / 10);
    }
  }

  lemma LastDash(a: string, d: string, b: string, e: string)
    requires a + "-" + d == b + "-" + e
    ensures |d| < |e| ==> '-' in e
  {
    var s := a + "-" + d;
    assert s[|a|] == '-';
    if |d| < |e| {
      assert s == (b + "-") + e;
      assert s[|a|] == e[|e| - 1 - |d|];
    }
  }

  /** A dash followed by digits only can be cut off again: the text before it is unambiguous. */
  lemma DashDigitsSplit(a: string, m: nat, b: string, n: nat)
    requires a + "-" + Digits(m) == b + "-" + Digits(n)
    ensures a == b && m == n
  {
    hide Digits;
    var d, e := Digits(m), Digits(n);
    LastDash(a, d, b, e);
    LastDash(b, e, a, d);
    assert |d| == |e|;
    var s := a + "-" + d;
    assert s[..|a|] == a && s[..|a|] == b;
    assert s[|a| + 1..] == d && s[|a| + 1..] == e;
    DigitsInjective(m, n);
  }

  // ----- parsing

  function DigitsValue(s: string): Option<nat> {
    if s == [] then Some(0)
    else
      var c := s[|s| - 1];
      var rest := DigitsValue(s[..|s| - 1]);
      if rest.Some? && '0' <= c <= '9' then Some(10 * rest.value + (c as int - '0' as int)) else None
  }

  /** Rust's `parse::<i64>`: an optional sign, at least one digit, and in range. */
  function ParseI64(s: string): Option<int> {
    var signed := s != [] && s[0] in {'-', '+'};
    var digits := if signed then s[1..] else s;
    if digits == [] || DigitsValue(digits).None? then None
    else
      var magnitude: int := DigitsValue(digits).value;
      var n: int := if s[0] == '-' then -magnitude else magnitude;
      if -0x8000_0000_0000_0000 <= n <= 0x7FFF_FFFF_FFFF_FFFF then Some(n) else None
  }

  lemma {:induction false} DigitsRoundTrip(n: nat)
    ensures DigitsValue(Digits(n)) == Some(n)
  {
    var s := Digits(n);
    if n < 10 {
      assert s[..0] == [];
    } else {
      DigitsRoundTrip(n / 10);
      assert s[..|s| - 1] == Digits(n / 10);
    }
  }

  /** Parsing a printed 64-bit integer gives it back. */
  lemma ParsePrintedI64(n: int)
    requires -0x8000_0000_0000_0000 <= n <= 0x7FFF_FFFF_FFFF_FFFF
    ensures ParseI64(IntString(n)) == Some(n)
  {
    hide DigitsValue;
    var printed := IntString(n);
    DigitsRoundTrip(Abs(n));
    if n < 0 {
      assert printed[1..] == Digits(-n);
    } else {
      hide Digits;
      assert '0' <= printed[0] <= '9';
    }
  }
}
