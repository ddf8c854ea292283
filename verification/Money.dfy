/**
 server/data/ai-catalog.js: exact money, and the order of a model catalog.
 */
module Money {
  import opened Numerals
  import opened Prelude

  const NANO := 1000000000

  // ---------------------------------------------------------------- usdPerMillion

  function Zeros(k: nat): string { seq(k, _ => '0') }

  /** `padStart(9, '0')` */
  function PadStart(s: string, k: nat): string { if |s| >= k then s else Zeros(k - |s|) + s }

  /** `padEnd(k, '0')` */
  function PadEnd(s: string, k: nat): string { if |s| >= k then s else s + Zeros(k - |s|) }

  /** `replace(/0+$/, '')` */
  function TrimZeros(s: string): (r: string)
    ensures r <= s && (r == "" || r[|r| - 1] != '0')
  {
    if s == "" || s[|s| - 1] != '0' then s else TrimZeros(s[..|s| - 1])
  }

  /** The decimals of a number of nano-dollars below one dollar: without trailing zeros, but at least two. */
  function Decimals(n: nat): string {
    var frac := TrimZeros(PadStart(Digits(n), 9));
    if frac == "" then "00" else if |frac| < 2 then PadEnd(frac, 2) else frac
  }

  /** Nano-dollars as dollars. */
  function Dollars(n: nat): string { Digits(n / NANO) + "." + Decimals(n % NANO) }

  /** An integer of at most 19 digits. */
  predicate IsAmount(s: string) { 1 <= |s| <= 19 && AllDigits(s) }

  /** `usdPerMillion` */
  function UsdPerMillion(given: string): Option<string> {
    var s := Trim(given);
    if IsAmount(s) then Some(Dollars(Value(s))) else None
  }

  /** An amount read back: whole dollars, and decimals of a dollar. */
  function NanoOf(whole: string, frac: string): nat
    requires AllDigits(whole) && AllDigits(frac) && |frac| <= 9
  {
    Value(whole) * NANO + Value(frac) * Pow10(9 - |frac|)
  }

  lemma {:induction false} ZerosAreZero(k: nat)
    ensures AllDigits(Zeros(k)) && Value(Zeros(k)) == 0
  {
    if k > 0 {
      ZerosAreZero(k - 1);
      assert Zeros(k)[..k - 1] == Zeros(k - 1);
    }
  }

  lemma PadStartValue(s: string, k: nat)
    requires AllDigits(s)
    ensures AllDigits(PadStart(s, k)) && Value(PadStart(s, k)) == Value(s) && |PadStart(s, k)| == Max(|s|, k)
  {
    if |s| < k {
      ZerosAreZero(k - |s|);
      ValueAppend(Zeros(k - |s|), s);
    }
  }

  lemma {:induction false} TrimZerosValue(s: string)
    requires AllDigits(s)
    ensures AllDigits(TrimZeros(s)) && Value(TrimZeros(s)) * Pow10(|s| - |TrimZeros(s)|) == Value(s)
  {
    if s != "" && s[|s| - 1] == '0' {
      var front := s[..|s| - 1];
      TrimZerosValue(front);
      Tenfold(Value(TrimZeros(front)), Pow10(|front| - |TrimZeros(front)|));
    }
  }

  lemma Tenfold(a: nat, p: nat)
    ensures a * (10 * p) == 10 * (a * p)
  {
  }

  lemma Nine()
    ensures Pow10(9) == NANO
  {
    assert Pow10(3) == 1000;
    assert Pow10(6) == 1000000;
  }

  /** The decimals stand for the nano-dollars they came from. */
  lemma DecimalsValue(n: nat)
    requires n < NANO
    ensures var d := Decimals(n); AllDigits(d) && 2 <= |d| <= 9 && Value(d) * Pow10(9 - |d|) == n
    ensures |Decimals(n)| > 2 ==> Decimals(n)[|Decimals(n)| - 1] != '0'
  {
    Nine();
    ValueOfDigits(n);
    DigitsShort(n, 9);
    PadStartValue(Digits(n), 9);
    var frac := TrimZeros(PadStart(Digits(n), 9));
    TrimZerosValue(PadStart(Digits(n), 9));
    if frac == "" {
      ZerosAreZero(2);
      assert Zeros(2) == "00";
    } else if |frac| < 2 {
      OneDecimal(frac, n);
    }
  }

  lemma OneDecimal(frac: string, n: nat)
    requires |frac| == 1 && AllDigits(frac) && Value(frac) * Pow10(8) == n
    ensures AllDigits(PadEnd(frac, 2)) && |PadEnd(frac, 2)| == 2 && Value(PadEnd(frac, 2)) * Pow10(7) == n
  {
    ZerosAreZero(1);
    ValueAppend(frac, Zeros(1));
    assert Pow10(1) == 10;
    assert Pow10(8) == 10 * Pow10(7);
    Tenfold(Value(frac), Pow10(7));
    assert Value(PadEnd(frac, 2)) == Value(frac) * 10;
    assert Value(frac) * 10 * Pow10(7) == 10 * (Value(frac) * Pow10(7));
  }

  /**
   Dollars read back are the nano-dollars they were made of, for every amount; there are two to nine decimals, and no
   trailing zero past the second.
   */
  lemma DollarsExact(n: nat)
    ensures var whole, frac := Digits(n / NANO), Decimals(n % NANO);
            && Dollars(n) == whole + "." + frac && AllDigits(whole) && AllDigits(frac) && 2 <= |frac| <= 9
            && NanoOf(whole, frac) == n
            && (|frac| > 2 ==> frac[|frac| - 1] != '0')
  {
    ValueOfDigits(n / NANO);
    DecimalsValue(n % NANO);
  }

  /** The point stands where the whole dollars end: what is before and behind it can be told apart. */
  lemma PartsUnique(a: string, b: string, c: string, d: string)
    requires AllDigits(a) && AllDigits(c) && a + "." + b == c + "." + d
    ensures a == c && b == d
  {
    var s := a + "." + b;
    var t := c + "." + d;
    assert s[|a|] == '.' && t[|c|] == '.';
    assert forall i :: 0 <= i < |a| ==> s[i] == a[i];
    assert forall i :: 0 <= i < |c| ==> t[i] == c[i];
    assert |a| == |c|;
    assert s[..|a|] == a && t[..|c|] == c;
    assert s[|a| + 1..] == b && t[|c| + 1..] == d;
  }

  /** Two different amounts are never written alike. */
  lemma DollarsInjective(m: nat, n: nat)
    requires Dollars(m) == Dollars(n)
    ensures m == n
  {
    DollarsExact(m);
    DollarsExact(n);
    PartsUnique(Digits(m / NANO), Decimals(m % NANO), Digits(n / NANO), Decimals(n % NANO));
  }

  /** A price is a text that reads back as the amount it was made of. */
  ghost predicate Prices(price: string, n: nat) {
    exists whole, frac ::
        price == whole + "." + frac && AllDigits(whole) && AllDigits(frac) && 2 <= |frac| <= 9
            && NanoOf(whole, frac) == n
  }

  /**
   There is a price exactly for an integer of 1 to 19 digits, white space around it apart; it reads back as that amount,
   and two prices are the same text exactly when the amounts are the same number.
   */
  lemma PriceExact(a: string, b: string)
    ensures UsdPerMillion(a).Some? <==> 1 <= |Trim(a)| <= 19 && AllDigits(Trim(a))
    ensures UsdPerMillion(a).Some? ==> Prices(UsdPerMillion(a).value, Value(Trim(a)))
    ensures UsdPerMillion(a).Some? && UsdPerMillion(b).Some? ==>
              (UsdPerMillion(a) == UsdPerMillion(b) <==> Value(Trim(a)) == Value(Trim(b)))
  {
    if IsAmount(Trim(a)) { DollarsExact(Value(Trim(a))); }
    if UsdPerMillion(a).Some? && UsdPerMillion(a) == UsdPerMillion(b) {
      DollarsInjective(Value(Trim(a)), Value(Trim(b)));
    }
  }

  // ---------------------------------------------------------------- parseCatalog

  const ALIASES := ["openvibe/auto", "openvibe/economy", "openvibe/balanced", "openvibe/fast", "openvibe/private",
      "openvibe"]

  /** An entry of the answer; one that is no object is `NoEntry`, an id that is not there is "". */
  datatype Entry = Entry(id: string, dynamic: bool) | NoEntry

  /** An entry that names something; `exact` is whether its id is an exact one. */
  datatype Row = Row(id: string, dynamic: bool, exact: bool)

  function Rank(r: Row): nat { if IndexOf(ALIASES, r.id) < 0 then |ALIASES| else IndexOf(ALIASES, r.id) }

  predicate IsAlias(r: Row) { r.dynamic || r.id in ALIASES }

  predicate IsModel(r: Row) { !IsAlias(r) && r.exact }

  function Aliases(rows: seq<Row>): seq<Row> {
    if rows == [] then [] else Aliases(rows[..|rows| - 1]) + if IsAlias(rows[|rows| - 1]) then [rows[|rows| - 1]]
        else []
  }

  function Models(rows: seq<Row>): seq<Row> {
    if rows == [] then [] else Models(rows[..|rows| - 1]) + if IsModel(rows[|rows| - 1]) then [rows[|rows| - 1]] else []
  }

  /** A row behind all that are not after it: what a stable sort does with it. */
  function Insert(sorted: seq<Row>, r: Row): seq<Row> {
    if sorted == [] || Rank(sorted[|sorted| - 1]) <= Rank(r) then sorted + [r]
    else Insert(sorted[..|sorted| - 1], r) + [sorted[|sorted| - 1]]
  }

  /** `aliases.sort(order)`; JavaScript's sort is stable. */
  function Sort(rows: seq<Row>): seq<Row> {
    if rows == [] then [] else Insert(Sort(rows[..|rows| - 1]), rows[|rows| - 1])
  }

  /** The entries that name something, with their ids trimmed; which ids are exact is given. */
  function Named(data: seq<Entry>, exact: string -> bool): seq<Row> {
    if data == [] then []
    else Named(data[..|data| - 1], exact) + if HasName(data[|data| - 1]) then [RowOf(data[|data| - 1], exact)] else []
  }

  predicate HasName(e: Entry) { e.Entry? && Trim(e.id) != "" }

  function RowOf(e: Entry, exact: string -> bool): Row
    requires e.Entry?
  {
    Row(Trim(e.id), e.dynamic, exact(Trim(e.id)))
  }

  /** The one legacy model. */
  predicate Legacy(data: seq<Entry>) { |data| == 1 && data[0].Entry? && data[0].id == "openvibe" }

  function Offered(rows: seq<Row>): Option<seq<Row>> {
    if Aliases(rows) == [] && Models(rows) == [] then None else Some(Sort(Aliases(rows)) + Models(rows))
  }

  /** `parseCatalog`, of the list in the answer, if there is one: None when it is no catalog. */
  function Catalog(data: Option<seq<Entry>>, exact: string -> bool): Option<seq<Row>> {
    if data.None? || data.value == [] || Legacy(data.value) then None else Offered(Named(data.value, exact))
  }

  method ParseCatalog(data: Option<seq<Entry>>, exact: string -> bool) returns (entries: Option<seq<Row>>)
    ensures entries == Catalog(data, exact)
  {
    if data.None? || data.value == [] || Legacy(data.value) { return None; }
    var list := data.value;
    var aliases: seq<Row>, models: seq<Row> := [], [];
    for i := 0 to |list|
      invariant aliases == Aliases(Named(list[..i], exact)) && models == Models(Named(list[..i], exact))
    {
      assert list[..i + 1][..i] == list[..i];
      assert Named(list[..i], exact) + [] == Named(list[..i], exact);
      if HasName(list[i]) {
        var row := RowOf(list[i], exact);
        PartsMore(Named(list[..i], exact), row);
        if IsAlias(row) {
          aliases := aliases + [row];
        } else if row.exact {
          models := models + [row];
        }
      }
    }
    assert list[..|list|] == list;
    if aliases == [] && models == [] { return None; }
    return Some(Sort(aliases) + models);
  }

  lemma PartsMore(rows: seq<Row>, r: Row)
    ensures Aliases(rows + [r]) == Aliases(rows) + if IsAlias(r) then [r] else []
    ensures Models(rows + [r]) == Models(rows) + if IsModel(r) then [r] else []
  {
    assert (rows + [r])[..|rows|] == rows;
  }

  ghost predicate Sorted(rows: seq<Row>) { forall i, j :: 0 <= i < j < |rows| ==> Rank(rows[i]) <= Rank(rows[j]) }

  /** The rows of one rank, in order. */
  function Ranked(rows: seq<Row>, k: nat): seq<Row> {
    if rows == [] then [] else Ranked(rows[..|rows| - 1], k) + if Rank(rows[|rows| - 1]) == k then [rows[|rows| - 1]]
        else []
  }

  lemma RankedMore(rows: seq<Row>, r: Row, k: nat)
    ensures Ranked(rows + [r], k) == Ranked(rows, k) + if Rank(r) == k then [r] else []
  {
    assert (rows + [r])[..|rows|] == rows;
  }

  lemma {:induction false} InsertHas(sorted: seq<Row>, r: Row)
    ensures multiset(Insert(sorted, r)) == multiset(sorted) + multiset{r}
  {
    if sorted != [] && Rank(sorted[|sorted| - 1]) > Rank(r) {
      var n := |sorted| - 1;
      InsertHas(sorted[..n], r);
      FrontHas(sorted, sorted[..n]);
    }
  }

  ghost predicate UpTo(rows: seq<Row>, k: nat) { forall i :: 0 <= i < |rows| ==> Rank(rows[i]) <= k }

  lemma {:induction false} InsertUpTo(sorted: seq<Row>, r: Row, k: nat)
    requires UpTo(sorted, k) && Rank(r) <= k
    ensures UpTo(Insert(sorted, r), k)
  {
    if sorted != [] && Rank(sorted[|sorted| - 1]) > Rank(r) { InsertUpTo(sorted[..|sorted| - 1], r, k); }
  }

  lemma SortedMore(rows: seq<Row>, r: Row)
    requires Sorted(rows) && UpTo(rows, Rank(r))
    ensures Sorted(rows + [r])
  {
  }

  lemma {:induction false} InsertSorts(sorted: seq<Row>, r: Row)
    requires Sorted(sorted)
    ensures Sorted(Insert(sorted, r))
  {
    if sorted == [] || Rank(sorted[|sorted| - 1]) <= Rank(r) {
      SortedMore(sorted, r);
    } else {
      var n := |sorted| - 1;
      InsertSorts(sorted[..n], r);
      InsertUpTo(sorted[..n], r, Rank(sorted[n]));
      SortedMore(Insert(sorted[..n], r), sorted[n]);
    }
  }

  lemma {:induction false} InsertRanked(sorted: seq<Row>, r: Row, k: nat)
    requires Sorted(sorted)
    ensures Ranked(Insert(sorted, r), k) == Ranked(sorted, k) + if Rank(r) == k then [r] else []
  {
    if sorted == [] || Rank(sorted[|sorted| - 1]) <= Rank(r) {
      RankedMore(sorted, r, k);
    } else {
      var n := |sorted| - 1;
      var front, last := Insert(sorted[..n], r), sorted[n];
      InsertRanked(sorted[..n], r, k);
      RankedMore(front, last, k);
      RankedBeyond(sorted, r, k);
    }
  }

  /** A row ranked before the last one, and that one, are not both of rank k. */
  lemma RankedBeyond(sorted: seq<Row>, r: Row, k: nat)
    requires sorted != [] && Rank(sorted[|sorted| - 1]) > Rank(r)
    ensures var n := |sorted| - 1;
        var x, y := if Rank(r) == k then [r] else [], if Rank(sorted[n]) == k then [sorted[n]] else [];
            Ranked(sorted[..n], k) + x + y == Ranked(sorted, k) + x
  {
  }

  lemma {:induction false} SortHas(rows: seq<Row>)
    ensures multiset(Sort(rows)) == multiset(rows)
  {
    if rows != [] {
      var n := |rows| - 1;
      SortHas(rows[..n]);
      InsertHas(Sort(rows[..n]), rows[n]);
      FrontHas(rows, rows[..n]);
    }
  }

  lemma FrontHas(rows: seq<Row>, front: seq<Row>)
    requires rows != [] && front == rows[..|rows| - 1]
    ensures multiset(rows) == multiset(front) + multiset{rows[|rows| - 1]}
  {
    assert rows == front + [rows[|rows| - 1]];
  }

  lemma {:induction false} SortSorts(rows: seq<Row>)
    ensures Sorted(Sort(rows))
  {
    if rows != [] {
      SortSorts(rows[..|rows| - 1]);
      InsertSorts(Sort(rows[..|rows| - 1]), rows[|rows| - 1]);
    }
  }

  lemma {:induction false} SortStable(rows: seq<Row>, k: nat)
    ensures Ranked(Sort(rows), k) == Ranked(rows, k)
  {
    if rows != [] {
      var n := |rows| - 1;
      SortSorts(rows[..n]);
      SortStable(rows[..n], k);
      InsertRanked(Sort(rows[..n]), rows[n], k);
    }
  }

  lemma {:induction false} PartsOf(rows: seq<Row>)
    ensures forall r :: r in Aliases(rows) <==> r in rows && IsAlias(r)
    ensures forall r :: r in Models(rows) <==> r in rows && IsModel(r)
  {
    if rows != [] {
      PartsOf(rows[..|rows| - 1]);
      assert rows == rows[..|rows| - 1] + [rows[|rows| - 1]];
    }
  }

  /**
   Nothing stands before the row that the picker lists behind it; what it does not list is behind all that it does.
   */
  ghost predicate InPickersOrder(rows: seq<Row>) {
    forall i, j, q: nat :: 0 <= i < j < |rows| && q < |ALIASES| && rows[j].id == ALIASES[q] ==>
      exists p: nat :: p <= q && rows[i].id == ALIASES[p]
  }

  function WithId(rows: seq<Row>, id: string): seq<Row> {
    if rows == [] then []
    else WithId(rows[..|rows| - 1], id) + if rows[|rows| - 1].id == id then [rows[|rows| - 1]] else []
  }

  function Unlisted(rows: seq<Row>): seq<Row> {
    if rows == [] then []
    else Unlisted(rows[..|rows| - 1]) + if rows[|rows| - 1].id !in ALIASES then [rows[|rows| - 1]] else []
  }

  /** Rows that came in an order are still in it where the picker does not say otherwise. */
  ghost predicate SameOrder(a: seq<Row>, b: seq<Row>) {
    Unlisted(a) == Unlisted(b) && forall id :: id in ALIASES ==> WithId(a, id) == WithId(b, id)
  }

  lemma RankIs(r: Row, q: nat)
    requires q < |ALIASES|
    ensures Rank(r) == q <==> r.id == ALIASES[q]
    ensures Rank(r) == |ALIASES| <==> r.id !in ALIASES
  {
    assert forall i, j :: 0 <= i < j < |ALIASES| ==> ALIASES[i] != ALIASES[j];
  }

  lemma {:induction false} RankedIs(rows: seq<Row>, q: nat)
    requires q < |ALIASES|
    ensures Ranked(rows, q) == WithId(rows, ALIASES[q]) && Ranked(rows, |ALIASES|) == Unlisted(rows)
  {
    if rows != [] {
      RankedIs(rows[..|rows| - 1], q);
      RankIs(rows[|rows| - 1], q);
    }
  }

  lemma SortedInOrder(rows: seq<Row>)
    requires Sorted(rows)
    ensures InPickersOrder(rows)
  {
    forall i, j, q: nat | 0 <= i < j < |rows| && q < |ALIASES| && rows[j].id == ALIASES[q]
      ensures exists p: nat :: p <= q && rows[i].id == ALIASES[p]
    {
      RankIs(rows[j], q);
      RankIs(rows[i], Rank(rows[i]));
    }
  }

  lemma RankedSameOrder(a: seq<Row>, b: seq<Row>)
    requires forall k: nat :: Ranked(a, k) == Ranked(b, k)
    ensures SameOrder(a, b)
  {
    RankedIs(a, 0);
    RankedIs(b, 0);
    forall id | id in ALIASES ensures WithId(a, id) == WithId(b, id) {
      var q :| 0 <= q < |ALIASES| && ALIASES[q] == id;
      RankedIs(a, q);
      RankedIs(b, q);
    }
  }

  /**
   A catalog offers every alias before every exact id, the aliases in the order of the picker and, where that says
   nothing, as they came, the exact ids as they came; nothing is offered twice more than it came, and nothing else is.
   */
  lemma CatalogOrder(data: Option<seq<Entry>>, exact: string -> bool, rows: seq<Row>)
    requires Catalog(data, exact).Some? && rows == Named(data.value, exact)
    ensures exists a, m ::
      Catalog(data, exact).value == a + m && (forall r :: r in a ==> IsAlias(r)) && m == Models(rows)
      && InPickersOrder(a) && multiset(a) == multiset(Aliases(rows)) && SameOrder(a, Aliases(rows))
  {
    var a := Sort(Aliases(rows));
    PartsOf(rows);
    SortSorts(Aliases(rows));
    SortHas(Aliases(rows));
    forall r | r in a ensures IsAlias(r) { assert r in multiset(a); assert r in Aliases(rows); }
    forall k: nat ensures Ranked(a, k) == Ranked(Aliases(rows), k) { SortStable(Aliases(rows), k); }
    SortedInOrder(a);
    RankedSameOrder(a, Aliases(rows));
  }

  /** An entry that can be offered: it has a name, and is an alias or has an exact id. */
  predicate Offers(e: Entry, exact: string -> bool) {
    HasName(e) && (IsAlias(RowOf(e, exact)) || IsModel(RowOf(e, exact)))
  }

  lemma {:induction false} NamedHas(data: seq<Entry>, exact: string -> bool)
    ensures forall e :: e in data && HasName(e) ==> RowOf(e, exact) in Named(data, exact)
    ensures forall r :: r in Named(data, exact) ==> exists e :: e in data && HasName(e) && r == RowOf(e, exact)
  {
    if data != [] {
      var n := |data| - 1;
      NamedHas(data[..n], exact);
      assert data == data[..n] + [data[n]];
    }
  }

  lemma OfferedNone(rows: seq<Row>)
    ensures Offered(rows).None? <==> forall r :: r in rows ==> !IsAlias(r) && !IsModel(r)
  {
    PartsOf(rows);
    if Aliases(rows) != [] { assert Aliases(rows)[0] in Aliases(rows); }
    if Models(rows) != [] { assert Models(rows)[0] in Models(rows); }
  }

  /**
   There is no catalog exactly when the answer holds no list, or the list is the one legacy model and nothing beside it,
   or no entry can be offered.
   */
  lemma NoCatalogIff(data: Option<seq<Entry>>, exact: string -> bool)
    ensures Catalog(data, exact).None?
       <==> data.None? || Legacy(data.value) || forall e :: e in data.value ==> !Offers(e, exact)
  {
    if data.Some? {
      NamedHas(data.value, exact);
      OfferedNone(Named(data.value, exact));
    }
  }
}
