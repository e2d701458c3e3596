/**
 * The tax utility module: two constant lookup tables and the three functions that
 * read them. A JavaScript object literal is keyed by strings, so both tables are
 * maps from strings; a lookup of an absent key yields `None` (JavaScript's
 * `undefined`). The rates and thresholds are the decimals 0.2 and 0.5.
 */
module TaxUtils {
  import opened Wrappers
  import opened Decimal

  /** Base rate per unit, keyed by "month/year". */
  const RatesByMonthAndYear: map<string, real> := map[
    "1/2017" := 0.2,
    "2/2017" := 0.2,
    "3/2017" := 0.2,
    "4/2017" := 0.2,
    "5/2017" := 0.2,
    "6/2017" := 0.2,
    "7/2017" := 0.2,
    "8/2017" := 0.2,
    "9/2017" := 0.2,
    "10/2017" := 0.2,
    "11/2017" := 0.2,
    "12/2017" := 0.2
  ]

  /** Tax-free threshold, keyed by the year's numeral (the literal's key 2017 is the string "2017"). */
  const ThresholdsByYear: map<string, real> := map["2017" := 0.5]

  /** A property lookup on a table: the value under `key`, or `None` when the key is absent. */
  function Lookup(table: map<string, real>, key: string): (r: Option<real>)
    ensures r.Some? <==> key in table
    ensures r.Some? ==> r.value == table[key]
  {
    if key in table then Some(table[key]) else None
  }

  /** The index of the first occurrence of `c` in `s`, if any. */
  ghost function FirstIndexOf(s: string, c: char): (r: Option<nat>)
    ensures r.None? <==> c !in s
    ensures r.Some? ==> r.value < |s| && s[r.value] == c && c !in s[..r.value]
  {
    if s == [] then None
    else if s[0] == c then Some(0)
    else
      match FirstIndexOf(s[1..], c)
      case None => None
      case Some(k) => Some(k + 1)
  }

  /** Splits a key at its first '/' and reads the month and year back from the two halves. */
  ghost function ParseKey(key: string): Option<(int, int)> {
    match FirstIndexOf(key, '/')
    case None => None
    case Some(k) =>
      match (ParseInt(key[..k]), ParseInt(key[k + 1..]))
      case (Some(month), Some(year)) => Some((month, year))
      case _ => None
  }

  lemma FirstIndexOfAfterPrefix(a: string, c: char, b: string)
    requires c !in a
    ensures FirstIndexOf(a + [c] + b, c) == Some(|a|)
  {
    var s := a + [c] + b;
    assert s[|a|] == c;
  }

  /** The key the template literal `${month}/${year}` builds. */
  function KeyOf(month: int, year: int): string {
    IntToString(month) + "/" + IntToString(year)
  }

  /** Splitting a built key at its first '/' and reading both halves gives back the month and year. */
  lemma KeyRoundTrip(month: int, year: int)
    ensures ParseKey(KeyOf(month, year)) == Some((month, year))
  {
    var m, y := IntToString(month), IntToString(year);
    var key := KeyOf(month, year);
    assert key == m + ['/'] + y;
    FirstIndexOfAfterPrefix(m, '/', y);
    assert key[..|m|] == m;
    assert key[|m| + 1..] == y;
    IntRoundTrip(month);
    IntRoundTrip(year);
  }

  /** No zero-padding and a fixed separator: distinct (month, year) pairs give distinct keys. */
  lemma KeyOfInjective(month: int, year: int, month': int, year': int)
    ensures KeyOf(month, year) == KeyOf(month', year') <==> month == month' && year == year'
  {
    KeyRoundTrip(month, year);
    KeyRoundTrip(month', year');
  }

  lemma Numeral2017()
    ensures IntToString(2017) == "2017"
  {
  }

  /** The key of each month of 2017 is the one the rate table spells out. */
  lemma MonthKeys2017()
    ensures KeyOf(1, 2017) == "1/2017" && KeyOf(2, 2017) == "2/2017" && KeyOf(3, 2017) == "3/2017"
    ensures KeyOf(4, 2017) == "4/2017" && KeyOf(5, 2017) == "5/2017" && KeyOf(6, 2017) == "6/2017"
    ensures KeyOf(7, 2017) == "7/2017" && KeyOf(8, 2017) == "8/2017" && KeyOf(9, 2017) == "9/2017"
    ensures KeyOf(10, 2017) == "10/2017" && KeyOf(11, 2017) == "11/2017" && KeyOf(12, 2017) == "12/2017"
  {
    Numeral2017();
    assert NatToString(10) == "10";
    assert NatToString(11) == "11";
    assert NatToString(12) == "12";
  }

  /** The rate table holds exactly the twelve months of 2017, each at 0.2. */
  lemma RateTableLookup(month: int, year: int)
    ensures Lookup(RatesByMonthAndYear, KeyOf(month, year)) ==
      if 1 <= month <= 12 && year == 2017 then Some(0.2) else None
  {
    MonthKeys2017();
    var key := KeyOf(month, year);
    if key in RatesByMonthAndYear {
      var m :| 1 <= m <= 12 && key == KeyOf(m, 2017);
      KeyOfInjective(month, year, m, 2017);
    }
  }

  /**
   * The base rate configured for the month of the year: 0.2 for every month of 2017,
   * and no value for every other (month, year), with no default or nearest match.
   */
  function BaseRate(month: int, year: int): (r: Option<real>)
    ensures r == if 1 <= month <= 12 && year == 2017 then Some(0.2) else None
  {
    RateTableLookup(month, year);
    Lookup(RatesByMonthAndYear, KeyOf(month, year))
  }

  /** The tax-free threshold configured for the year: 0.5 for 2017 and no value for every other year. */
  function TaxThreshold(year: int): (r: Option<real>)
    ensures r == if year == 2017 then Some(0.5) else None
  {
    Numeral2017();
    IntToStringInjective(year, 2017);
    Lookup(ThresholdsByYear, IntToString(year))
  }

  /** `Math.max` of two numbers. */
  function Max(a: real, b: real): (r: real)
    ensures r >= a && r >= b
    ensures r == a || r == b
  {
    if a >= b then a else b
  }

  /**
   * The part of the base charge above the year's threshold, clamped at zero;
   * `None` (NaN in JavaScript) when the year has no threshold.
   */
  function TaxableCharge(baseCharge: real, year: int): (r: Option<real>)
    ensures r.Some? <==> TaxThreshold(year).Some?
    ensures r.Some? ==> r.value >= 0.0 && r.value >= baseCharge - TaxThreshold(year).value
    ensures r.Some? && baseCharge <= TaxThreshold(year).value ==> r.value == 0.0
    ensures r.Some? && baseCharge >= TaxThreshold(year).value ==> r.value == baseCharge - TaxThreshold(year).value
  {
    match TaxThreshold(year)
    case None => None
    case Some(threshold) => Some(Max(0.0, baseCharge - threshold))
  }

  /** For 2017 the taxable charge is the base charge above 0.5, floored at zero; other years give none. */
  lemma TaxableChargeSpec(baseCharge: real, year: int)
    ensures TaxableCharge(baseCharge, year) ==
      if year != 2017 then None
      else if baseCharge <= 0.5 then Some(0.0)
      else Some(baseCharge - 0.5)
  {
  }

  /** The lookups the module's tests check: the rate of 5/2017 and the threshold of 2017. */
  lemma LookupExamples()
    ensures BaseRate(5, 2017) == Some(0.2)
    ensures TaxThreshold(2017) == Some(0.5)
  {
  }

  /** Keys outside the tables: month 13, a year after 2017, no threshold for 2018. */
  lemma MissingEntryExamples()
    ensures BaseRate(13, 2017) == None && BaseRate(5, 2018) == None
    ensures TaxThreshold(2018) == None
  {
  }

  /** The charges the module's tests check: base charge 0 in 2017 clamps to 0, and 1 gives 0.5. */
  lemma TaxableChargeExamples()
    ensures TaxableCharge(0.0, 2017) == Some(0.0)
    ensures TaxableCharge(1.0, 2017) == Some(0.5)
  {
  }
}
