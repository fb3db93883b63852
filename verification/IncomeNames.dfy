/** Names of income files: a region and two days, printed with two-digit years and parsed
    back.  Characters are ASCII. */
module IncomeNames {
  import opened Wrappers
  import opened Decimal
  import opened Text

  datatype Date = Date(year: int, month: int, day: int)

  predicate Leap(year: int) {
    year % 4 == 0 && (year % 100 != 0 || year % 400 == 0)
  }

  function DaysIn(year: int, month: int): int {
    if month == 2 then (if Leap(year) then 29 else 28)
    else if month in {4, 6, 9, 11} then 30
    else 31
  }

  predicate ValidDate(d: Date) {
    1 <= d.year <= 9999 && 1 <= d.month <= 12 && 1 <= d.day <= DaysIn(d.year, d.month)
  }

  type Day = d: Date | ValidDate(d) witness Date(2000, 1, 1)

  predicate Leq(a: Date, b: Date) {
    || a.year < b.year
    || (a.year == b.year && (a.month < b.month || (a.month == b.month && a.day <= b.day)))
  }

  // ---- Printing ------------------------------------------------------------

  function Two(n: nat): (s: string)
    requires n < 100
    ensures |s| == 2 && AllDigits(s)
  {
    [DigitChar(n / 10), DigitChar(n % 10)]
  }

  /** yymmdd */
  function YyMmDd(d: Day): (s: string)
    ensures |s| == 6 && AllDigits(s)
  {
    Two(d.year % 100) + Two(d.month) + Two(d.day)
  }

  function Name(region: string, start: Day, end: Day): string {
    "income_" + region + "_" + YyMmDd(start) + "_" + YyMmDd(end) + ".csv"
  }

  // ---- Parsing -------------------------------------------------------------

  function TwoValue(s: string, i: nat): (v: nat)
    requires i + 1 < |s| && AllDigits(s)
    ensures v < 100
  {
    10 * DigitValue(s[i]) + DigitValue(s[i + 1])
  }

  /** The century of a two-digit year: 69 to 99 are the 1900s. */
  function FullYear(yy: nat): int {
    if yy <= 68 then 2000 + yy else 1900 + yy
  }

  function ParseDay(s: string): (r: Option<Day>)
    requires |s| == 6
  {
    if AllDigits(s) then
      var d := Date(FullYear(TwoValue(s, 0)), TwoValue(s, 2), TwoValue(s, 4));
      if ValidDate(d) then Some(d) else None
    else None
  }

  predicate IsCapital(c: char) { 'A' <= c <= 'Z' }

  predicate IsLetter(c: char) { IsCapital(c) || 'a' <= c <= 'z' }

  datatype Period = Period(region: string, start: Day, end: Day)

  /** parse_income_file_period: letters in any case, and one newline may follow. */
  function Parse(name: string): Option<Period> {
    var core := if |name| == 28 && name[27] == '\n' then name[..27] else name;
    if |core| == 27 && UpperAll(core[..7]) == "INCOME_" && IsLetter(core[7]) && IsLetter(core[8])
       && core[9] == '_' && core[16] == '_' && UpperAll(core[23..]) == ".CSV" then
      var start, end := ParseDay(core[10..16]), ParseDay(core[17..23]);
      if start.Some? && end.Some? then Some(Period(UpperAll(core[7..9]), start.value, end.value)) else None
    else None
  }

  // ---- Round trip ----------------------------------------------------------

  predicate InWindow(d: Date) {
    1969 <= d.year <= 2068
  }

  lemma {:induction false} DayReadsBack(d: Day)
    ensures ParseDay(YyMmDd(d)) == Some(d) <==> InWindow(d)
  {
    var s, yy := YyMmDd(d), d.year % 100;
    assert TwoValue(s, 0) == yy && TwoValue(s, 2) == d.month && TwoValue(s, 4) == d.day by {
      hide IsDigit, ValidDate;
      TwoReadsBack(yy, d.month, d.day);
    }
    if InWindow(d) {
      assert FullYear(yy) == d.year;
    } else {
      assert FullYear(yy) != d.year;
    }
  }

  lemma TwoReadsBack(a: nat, b: nat, c: nat)
    requires a < 100 && b < 100 && c < 100
    ensures var s := Two(a) + Two(b) + Two(c);
            TwoValue(s, 0) == a && TwoValue(s, 2) == b && TwoValue(s, 4) == c
  {
  }

  predicate Capitals(region: string) {
    |region| == 2 && IsCapital(region[0]) && IsCapital(region[1])
  }

  /** Where the fields of a printed name are. */
  lemma NameFields(region: string, start: Day, end: Day)
    requires |region| == 2
    ensures var n := Name(region, start, end);
            && |n| == 27 && n[..7] == "income_" && n[7..9] == region && n[9] == '_'
            && n[10..16] == YyMmDd(start) && n[16] == '_' && n[17..23] == YyMmDd(end) && n[23..] == ".csv"
  {
    hide YyMmDd;
  }

  /** What a printed name parses as, for a region of two letters. */
  lemma ParsePrinted(region: string, start: Day, end: Day)
    requires |region| == 2 && IsLetter(region[0]) && IsLetter(region[1])
    ensures var s, e := ParseDay(YyMmDd(start)), ParseDay(YyMmDd(end));
            Parse(Name(region, start, end))
            == if s.Some? && e.Some? then Some(Period(UpperAll(region), s.value, e.value)) else None
  {
    var n := Name(region, start, end);
    NameFields(region, start, end);
    hide YyMmDd, ParseDay, Name;
    assert UpperAll("income_") == "INCOME_";
    assert UpperAll(".csv") == ".CSV";
    assert n[7] == n[7..9][0] && n[8] == n[7..9][1];
  }

  /** A name parses back to what it was printed from exactly when the region is two capital
      letters and both years lie in the two-digit window. */
  lemma RoundTripIff(region: string, start: Day, end: Day)
    ensures Parse(Name(region, start, end)) == Some(Period(region, start, end))
       <==> Capitals(region) && InWindow(start) && InWindow(end)
  {
    var n := Name(region, start, end);
    if |region| == 2 {
      if IsLetter(region[0]) && IsLetter(region[1]) {
        ParsePrinted(region, start, end);
        DayReadsBack(start);
        DayReadsBack(end);
        UpperKeepsCapitals(region);
      } else {
        NameFields(region, start, end);
        assert n[7] == n[7..9][0] && n[8] == n[7..9][1];
      }
    } else {
      assert |n| == 25 + |region| && n[|n| - 1] == 'v';
    }
  }

  lemma UpperKeepsCapitals(region: string)
    requires |region| == 2 && IsLetter(region[0]) && IsLetter(region[1])
    ensures UpperAll(region) == region <==> Capitals(region)
  {
    var up := UpperAll(region);
    assert up[0] == Upper(region[0]) && up[1] == Upper(region[1]);
    if Capitals(region) {
      assert up == region;
    }
  }
}
