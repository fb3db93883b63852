/** SKU identifiers that a spreadsheet turned into scientific notation: they are read back
    digit by digit, never through a float, so that no digit is lost.  Text is ASCII. */
module SkuNumerals {
  import opened Decimal
  import opened Text
  import opened Wrappers

  // ---- Python's int() ------------------------------------------------------

  /** Digits, with single underscores between digits. */
  predicate Grouped(s: string) {
    && s != "" && IsDigit(s[0]) && IsDigit(s[|s| - 1])
    && (forall i :: 0 <= i < |s| ==> IsDigit(s[i]) || s[i] == '_')
    && (forall i :: 0 < i < |s| ==> IsDigit(s[i - 1]) || IsDigit(s[i]))
  }

  lemma {:induction false} UngroupedDigits(s: string)
    requires forall i :: 0 <= i < |s| ==> IsDigit(s[i]) || s[i] == '_'
    ensures AllDigits(Remove(s, '_'))
  {
    if s != "" {
      UngroupedDigits(s[1..]);
    }
  }

  function IntOf(s: string): Option<int> {
    var t := Strip(s);
    var signed := t != "" && (t[0] == '-' || t[0] == '+');
    var u := if signed then t[1..] else t;
    if Grouped(u) then
      UngroupedDigits(u);
      var n: int := NatValue(Remove(u, '_'));
      Some(if signed && t[0] == '-' then -n else n)
    else None
  }

  lemma DigitsAreGrouped(s: string)
    requires s != "" && AllDigits(s)
    ensures Grouped(s) && Remove(s, '_') == s
  {
    RemoveAbsent(s, '_');
  }

  /** int() reads back what str() prints. */
  lemma IntReadsBack(n: int)
    ensures IntOf(IntText(n)) == Some(n)
  {
    var t := IntText(n);
    assert forall i :: 0 <= i < |t| ==> !IsSpace(t[i]);
    StripKeeps(t);
    if n < 0 {
      assert t[1..] == NatText(-n);
      DigitsAreGrouped(NatText(-n));
    } else {
      DigitsAreGrouped(t);
    }
  }

  // ---- Reading a numeral ---------------------------------------------------

  /** The field after the first dot, up to the next dot. */
  function Fraction(base: string): string
    requires '.' in base
  {
    var rest := base[Find(base, '.') + 1..];
    rest[..Find(rest, '.')]
  }

  function StripPluses(s: string): string {
    if s != "" && s[0] == '+' then StripPluses(s[1..]) else s
  }

  function WithDot(m: string): (base: string)
    ensures '.' in base
  {
    if '.' in m then m else m + "."
  }

  /** The digits with zeros appended, if the exponent reaches past the places. */
  function Padded(digits: string, e: int, places: nat): Option<string> {
    if digits == "" || !AllDigits(digits) || e < places then None else Some(digits + Zeros(e - places))
  }

  /** The numeral with this mantissa and this exponent text. */
  function Shift(m: string, exponent: string): Option<string> {
    var base, e := WithDot(m), IntOf(exponent);
    if e.None? then None else Padded(Remove(base, '.'), e.value, |Fraction(base)|)
  }

  function Shown(s: string): string {
    UpperAll(Strip(s))
  }

  predicate HasOneE(s: string) {
    Count(Shown(s), 'E') == 1
  }

  /** What stands before the E, without spaces. */
  function MantissaOf(s: string): string {
    Remove(Strip(Shown(s)[..Find(Shown(s), 'E')]), ' ')
  }

  /** What stands behind the E, without leading pluses. */
  function ExponentOf(s: string): string
    requires HasOneE(s)
  {
    OnceIff(Shown(s), 'E');
    StripPluses(Strip(Shown(s)[Find(Shown(s), 'E') + 1..]))
  }

  /** _parse_scientific_sku */
  function ParseScientific(s: string): Option<string> {
    if HasOneE(s) then Shift(MantissaOf(s), ExponentOf(s)) else None
  }

  lemma ShiftedIsDigits(m: string, exponent: string)
    ensures Shift(m, exponent).Some? ==> Shift(m, exponent).value != "" && AllDigits(Shift(m, exponent).value)
  {
  }

  // ---- Value ---------------------------------------------------------------

  /** A mantissa with one dot: the digits, and how many follow the dot. */
  lemma OneDot(whole: string, frac: string)
    requires '.' !in whole && '.' !in frac
    ensures var m := Joint(whole, '.', frac); WithDot(m) == m && Remove(m, '.') == whole + frac && Fraction(m) == frac
    ensures WithDot(whole) == Joint(whole, '.', "")
  {
    FindJoint(whole, '.', frac);
    RemoveJoint(whole, '.', frac);
    RemoveAbsent(whole, '.');
    RemoveAbsent(frac, '.');
  }

  lemma Reassociate(n: int, a: int, b: int)
    ensures (n * a) * b == n * (a * b)
  {
  }

  lemma {:induction false} PowersAdd(a: nat, b: nat)
    ensures Pow10(a) * Pow10(b) == Pow10(a + b)
  {
    if a > 0 {
      PowersAdd(a - 1, b);
      Reassociate(10, Pow10(a - 1), Pow10(b));
    }
  }

  /** The result, if any, is a digit string that denotes digits * 10^(e - places); and there is
      one exactly when that power is not negative. */
  ghost predicate Exact(r: Option<string>, digits: string, e: int, places: nat) {
    && AllDigits(digits)
    && (r.Some? <==> e >= places)
    && (r.Some? ==> AllDigits(r.value) && NatValue(r.value) * Pow10(places) == NatValue(digits) * Pow10(e))
  }

  lemma PaddedIsExact(digits: string, e: int, places: nat)
    requires AllDigits(digits) && digits != ""
    ensures Exact(Padded(digits, e, places), digits, e, places)
  {
    hide NatValue, Pow10, Zeros;
    if e >= places {
      ZerosScale(digits, e - places);
      PowersAdd(e - places, places);
      Reassociate(NatValue(digits), Pow10(e - places), Pow10(places));
    }
  }

  lemma ShiftPads(whole: string, frac: string, exponent: string)
    requires AllDigits(whole) && AllDigits(frac) && IntOf(exponent).Some?
    ensures Shift(Joint(whole, '.', frac), exponent) == Padded(whole + frac, IntOf(exponent).value, |frac|)
  {
    OneDot(whole, frac);
    hide IntOf, Remove, Fraction, Padded, Joint, Shift;
    ShiftUnfolds(Joint(whole, '.', frac), exponent);
  }

  lemma ShiftUnfolds(m: string, exponent: string)
    requires '.' in m && IntOf(exponent).Some?
    ensures Shift(m, exponent) == Padded(Remove(m, '.'), IntOf(exponent).value, |Fraction(m)|)
  {
    hide IntOf, Remove, Fraction, Padded;
  }

  /** The result denotes the mantissa times the power of ten, exactly, and there is one exactly
      when the exponent reaches past the decimals. */
  lemma ShiftIsExact(whole: string, frac: string, exponent: string)
    requires AllDigits(whole) && AllDigits(frac) && whole + frac != "" && IntOf(exponent).Some?
    ensures Exact(Shift(Joint(whole, '.', frac), exponent), whole + frac, IntOf(exponent).value, |frac|)
  {
    hide IntOf, Exact, Joint, Shift, Padded;
    ShiftPads(whole, frac, exponent);
    PaddedIsExact(whole + frac, IntOf(exponent).value, |frac|);
  }

  lemma TwoDots(whole: string, frac: string, more: string)
    requires '.' !in whole && '.' !in frac
    ensures var m := Joint(whole, '.', Joint(frac, '.', more));
            '.' in m && Fraction(m) == frac && Remove(m, '.') == whole + (frac + Remove(more, '.'))
  {
    var m, rest := Joint(whole, '.', Joint(frac, '.', more)), Joint(frac, '.', more);
    FindJoint(whole, '.', rest);
    assert Fraction(m) == frac by {
      FindJoint(frac, '.', more);
    }
    hide Remove, Joint, Fraction;
    RemoveJoint(whole, '.', rest);
    RemoveJoint(frac, '.', more);
    RemoveAbsent(whole, '.');
    RemoveAbsent(frac, '.');
  }

  // ---- Printing and reading ------------------------------------------------

  predicate Plain(c: char) {
    IsDigit(c) || c in {'.', '+', '-'}
  }

  predicate AllPlain(s: string) {
    forall i :: 0 <= i < |s| ==> Plain(s[i])
  }

  lemma PlainStays(s: string)
    requires AllPlain(s)
    ensures UpperAll(s) == s && Strip(s) == s && ' ' !in s && 'E' !in s
  {
  }

  /** A numeral is split at its E, in either case. */
  lemma SplitAtE(m: string, mark: char, x: string)
    requires AllPlain(m) && AllPlain(x) && m != "" && x != "" && mark in {'E', 'e'}
    ensures ParseScientific(Joint(m, mark, x)) == Shift(m, StripPluses(x))
  {
    UpperOfJoint(m, mark, x);
    PlainStays(m);
    PlainStays(x);
    FindJoint(m, 'E', x);
    OnceIff(Joint(m, 'E', x), 'E');
    RemoveAbsent(m, ' ');
    hide Shift, StripPluses, UpperAll, Joint, Strip, Find, Count, Remove;
  }

  lemma UpperOfJoint(m: string, mark: char, x: string)
    requires AllPlain(m) && AllPlain(x) && m != "" && x != "" && mark in {'E', 'e'}
    ensures UpperAll(Strip(Joint(m, mark, x))) == Joint(m, 'E', x)
  {
    var s := Joint(m, mark, x);
    StripKeeps(s);
    assert forall i :: 0 <= i < |s| ==> UpperAll(s)[i] == Joint(m, 'E', x)[i];
  }

  /** Every numeral, with its exponent signed or not, reads back as the exact number it denotes,
      or as nothing when the exponent does not reach past the decimals. */
  lemma NumeralReadsExactly(whole: string, frac: string, mark: char, plus: bool, e: int)
    requires AllDigits(whole) && AllDigits(frac) && whole + frac != "" && mark in {'E', 'e'} && (plus ==> e >= 0)
    ensures Exact(ParseScientific(Joint(Joint(whole, '.', frac), mark, ExponentText(plus, e))), whole + frac, e, |frac|)
  {
    var m, x := Joint(whole, '.', frac), ExponentText(plus, e);
    assert AllPlain(m) && AllPlain(x);
    PlusesGo(e);
    IntReadsBack(e);
    hide Shift, ParseScientific, UpperAll, IntOf, Remove, Joint, Exact, Plain, StripPluses;
    SplitAtE(m, mark, x);
    ShiftIsExact(whole, frac, IntText(e));
  }

  function ExponentText(plus: bool, e: int): string {
    if plus then "+" + IntText(e) else IntText(e)
  }

  lemma PlusesGo(e: int)
    ensures StripPluses(IntText(e)) == IntText(e) && StripPluses("+" + IntText(e)) == IntText(e)
  {
    assert ("+" + IntText(e))[1..] == IntText(e);
  }

  // ---- Normalising ---------------------------------------------------------

  /** norm_sku; `float` is int(float(s)), none when it raises. */
  function Norm(s: string, float: string -> Option<int>): Option<string> {
    var t := Strip(s);
    if t == "" || t == "/" then None
    else if AllDigits(t) then Some(t)
    else if ParseScientific(t).Some? then ParseScientific(t)
    else if float(t).Some? then Some(IntText(float(t).value))
    else Some(t)
  }

  /** A whole float prints as an integer that reads as the same float. */
  ghost predicate WholeFloats(float: string -> Option<int>) {
    forall t :: float(t).Some? ==> float(IntText(float(t).value)) == float(t)
  }

  lemma DigitsStay(t: string, float: string -> Option<int>)
    requires t != "" && AllDigits(t)
    ensures Norm(t, float) == Some(t)
  {
    StripKeeps(t);
    assert t != "/";
  }

  lemma ParsedIsDigits(s: string)
    ensures ParseScientific(s).Some? ==> ParseScientific(s).value != "" && AllDigits(ParseScientific(s).value)
  {
    hide Shift, HasOneE, MantissaOf, ExponentOf;
    if HasOneE(s) {
      ShiftedIsDigits(MantissaOf(s), ExponentOf(s));
    }
  }

  lemma NegativeStays(n: int, float: string -> Option<int>)
    requires n < 0 && float(IntText(n)) == Some(n)
    ensures Norm(IntText(n), float) == Some(IntText(n))
  {
    var t := IntText(n);
    hide Shift, Count;
    PlainStays(t);
    CountAbsent(t, 'E');
    assert t[0] == '-' && !IsDigit(t[0]);
  }

  /** Digits are kept as they are, whatever surrounds them; and normalising is done once. */
  lemma NormSettles(s: string, float: string -> Option<int>)
    requires WholeFloats(float)
    ensures Strip(s) != "" && AllDigits(Strip(s)) ==> Norm(s, float) == Some(Strip(s))
    ensures Norm(s, float).Some? ==> Norm(Norm(s, float).value, float) == Norm(s, float)
  {
    var t := Strip(s);
    hide ParseScientific;
    ParsedIsDigits(t);
    StripKeeps(t);
    if Norm(s, float).Some? && Norm(s, float) != Some(t) {
      var r := Norm(s, float).value;
      if AllDigits(r) {
        DigitsStay(r, float);
      } else {
        NegativeStays(float(t).value, float);
      }
    } else if t != "" && AllDigits(t) {
      DigitsStay(t, float);
    }
  }

  // ---- Every accepted text -------------------------------------------------

  /** Digits, at least one, and any number of dots. */
  predicate DigitsAndDots(m: string) {
    (forall i :: 0 <= i < |m| ==> IsDigit(m[i]) || m[i] == '.') && exists i :: 0 <= i < |m| && IsDigit(m[i])
  }

  function Dots(m: string): nat {
    Count(m, '.')
  }

  /** The digits between the first dot and the next. */
  function Places(m: string): nat {
    |Fraction(WithDot(m))|
  }

  /** All digits behind the first dot. */
  function Decimals(m: string): nat {
    |Remove(WithDot(m)[Find(WithDot(m), '.') + 1..], '.')|
  }

  /** A decimal numeral: digits with at most one dot. */
  ghost predicate IsNumeral(m: string) {
    exists whole, frac :: IsNumeralOf(m, whole, frac)
  }

  predicate IsNumeralOf(m: string, whole: string, frac: string) {
    && AllDigits(whole) && AllDigits(frac) && whole + frac != ""
    && (m == Joint(whole, '.', frac) || (frac == "" && m == whole))
  }

  lemma {:induction false} RemoveKeepsOthers(s: string, c: char, d: char)
    requires c != d
    ensures d in Remove(s, c) <==> d in s
  {
    if s != "" {
      RemoveKeepsOthers(s[1..], c, d);
      assert s == [s[0]] + s[1..];
    }
  }

  lemma DigitsRemain(m: string)
    ensures Remove(WithDot(m), '.') != "" && AllDigits(Remove(WithDot(m), '.')) <==> DigitsAndDots(m)
  {
    var base := WithDot(m);
    var digits := Remove(base, '.');
    forall c | c != '.' ensures c in digits <==> c in m {
      RemoveKeepsOthers(base, '.', c);
      assert base == m || base == m + ".";
    }
    hide Remove, WithDot;
    if digits != "" && AllDigits(digits) {
      assert IsDigit(digits[0]) && digits[0] in digits && digits[0] in m;
      forall i | 0 <= i < |m| ensures IsDigit(m[i]) || m[i] == '.' {
        assert m[i] in m;
        if m[i] != '.' {
          assert m[i] in digits;
        }
      }
    }
    if DigitsAndDots(m) {
      var i :| 0 <= i < |m| && IsDigit(m[i]);
      assert m[i] in m && m[i] in digits;
      forall k | 0 <= k < |digits| ensures IsDigit(digits[k]) {
        assert digits[k] in digits && digits[k] in m;
      }
    }
  }

  /** Which texts are accepted: one E, a mantissa of digits and dots, and an integer exponent
      that reaches past the digits between the first dot and the next. */
  lemma AcceptedIff(s: string)
    ensures ParseScientific(s).Some?
       <==> && HasOneE(s)
            && DigitsAndDots(MantissaOf(s))
            && IntOf(ExponentOf(s)).Some?
            && IntOf(ExponentOf(s)).value >= Places(MantissaOf(s))
  {
    DigitsRemain(MantissaOf(s));
    hide IntOf, MantissaOf, ExponentOf, Remove, DigitsAndDots, Fraction, WithDot, HasOneE;
  }

  /** Digits with at most one dot are exactly the numerals. */
  lemma NumeralIff(m: string)
    ensures IsNumeral(m) <==> DigitsAndDots(m) && Dots(m) <= 1
  {
    if IsNumeral(m) {
      var whole, frac :| IsNumeralOf(m, whole, frac);
      NumeralIsDigits(m, whole, frac);
    }
    if DigitsAndDots(m) && Dots(m) <= 1 {
      SplitNumeral(m);
    }
  }

  lemma NumeralIsDigits(m: string, whole: string, frac: string)
    requires IsNumeralOf(m, whole, frac)
    ensures DigitsAndDots(m) && Dots(m) <= 1
  {
    CountJoint(whole, '.', frac);
    CountAbsent(whole, '.');
    CountAbsent(frac, '.');
    if whole != "" {
      assert m[0] == whole[0];
    } else {
      assert m[1] == frac[0];
    }
  }

  lemma SplitNumeral(m: string)
    requires DigitsAndDots(m) && Dots(m) <= 1
    ensures IsNumeral(m)
  {
    var k := Find(m, '.');
    if k == |m| {
      assert m + "" == m;
      assert IsNumeralOf(m, m, "");
    } else {
      hide DigitsAndDots, IsNumeralOf;
      assert m[k] in m;
      CountAbsent(m, '.');
      OnceIff(m, '.');
      assert m == Joint(m[..k], '.', m[k + 1..]);
      HalvesOfNumeral(m, m[..k], m[k + 1..]);
    }
  }

  lemma HalvesOfNumeral(m: string, whole: string, frac: string)
    requires DigitsAndDots(m) && m == Joint(whole, '.', frac) && '.' !in whole && '.' !in frac
    ensures IsNumeralOf(m, whole, frac)
  {
    var i :| 0 <= i < |m| && IsDigit(m[i]);
    assert m[|whole|] == '.' && i != |whole|;
    assert forall k :: 0 <= k < |whole| ==> whole[k] == m[k];
    assert forall k :: 0 <= k < |frac| ==> frac[k] == m[|whole| + 1 + k];
    assert |whole + frac| == |m| - 1;
  }

  /** For a numeral all decimals are counted. */
  lemma NumeralPlaces(m: string)
    requires IsNumeral(m)
    ensures Decimals(m) == Places(m)
  {
    var whole, frac :| IsNumeralOf(m, whole, frac);
    assert '.' !in whole && '.' !in frac;
    OneDot(whole, frac);
    var base := Joint(whole, '.', frac);
    assert WithDot(m) == base;
    FindJoint(whole, '.', frac);
    RemoveAbsent(frac, '.');
    hide Remove, Joint, WithDot;
  }

  /** An accepted text, taken apart. */
  lemma AcceptedMeans(s: string)
    requires ParseScientific(s).Some?
    ensures HasOneE(s) && IntOf(ExponentOf(s)).Some? && IntOf(ExponentOf(s)).value >= 0
    ensures var m := MantissaOf(s);
            && DigitsAndDots(m) && AllDigits(Remove(m, '.')) && Remove(m, '.') != ""
            && ParseScientific(s) == Padded(Remove(m, '.'), IntOf(ExponentOf(s)).value, Places(m))
  {
    AcceptedIff(s);
    DigitsRemain(MantissaOf(s));
    SameDigits(MantissaOf(s));
    hide IntOf, MantissaOf, ExponentOf, Remove, DigitsAndDots, Fraction, WithDot, HasOneE, Padded;
  }

  /** The digits a result has, and the places it was moved by. */
  lemma AcceptedIsExact(s: string)
    requires ParseScientific(s).Some?
    ensures HasOneE(s) && IntOf(ExponentOf(s)).Some?
    ensures Exact(ParseScientific(s), Remove(MantissaOf(s), '.'), IntOf(ExponentOf(s)).value, Places(MantissaOf(s)))
  {
    hide ParseScientific, IntOf, MantissaOf, ExponentOf, Remove, DigitsAndDots, Places, HasOneE, Exact, Padded, AllDigits;
    AcceptedMeans(s);
    PaddedIsExact(Remove(MantissaOf(s), '.'), IntOf(ExponentOf(s)).value, Places(MantissaOf(s)));
  }

  lemma SameDigits(m: string)
    ensures Remove(WithDot(m), '.') == Remove(m, '.')
  {
    if '.' !in m {
      RemoveConcat(m, ".", '.');
      assert Remove(".", '.') == "";
    }
  }

  lemma OneTimes(n: nat, x: nat, t: nat)
    requires n * x * t == n * x && x > 0
    ensures n == 0 || t == 1
  {
  }

  lemma {:induction false} PowerIsOne(k: nat)
    ensures Pow10(k) == 1 <==> k == 0
  {
  }

  /** The relation of a result to its numeral, when a mantissa has so many decimals. */
  predicate Denotes(r: string, digits: string, e: nat, decimals: nat)
    requires AllDigits(r) && AllDigits(digits)
  {
    NatValue(r) * Pow10(decimals) == NatValue(digits) * Pow10(e)
  }

  lemma DenotesIff(r: string, digits: string, e: nat, places: nat, decimals: nat)
    requires AllDigits(r) && AllDigits(digits) && Denotes(r, digits, e, places) && places <= decimals
    ensures Denotes(r, digits, e, decimals) <==> decimals == places || NatValue(digits) == 0
  {
    var more := decimals - places;
    PowersAdd(places, more);
    Reassociate(NatValue(r), Pow10(places), Pow10(more));
    PowerIsOne(more);
    hide NatValue, Pow10;
    assert NatValue(r) * Pow10(decimals) == NatValue(digits) * Pow10(e) * Pow10(more);
    if Denotes(r, digits, e, decimals) {
      OneTimes(NatValue(digits), Pow10(e), Pow10(more));
    }
  }

  lemma CutIsShorter(rest: string)
    ensures |rest[..Find(rest, '.')]| <= |Remove(rest, '.')|
  {
    var before, behind := rest[..Find(rest, '.')], rest[Find(rest, '.')..];
    assert rest == before + behind;
    RemoveAbsent(before, '.');
    hide Remove, Find;
    RemoveConcat(before, behind, '.');
  }

  /** No fewer decimals follow the first dot than are counted. */
  lemma PlacesAreDecimals(m: string)
    ensures Places(m) <= Decimals(m)
  {
    hide Remove, WithDot, Find;
    CutIsShorter(WithDot(m)[Find(WithDot(m), '.') + 1..]);
  }

  /** For every accepted text: the texts that are no numeral are exactly those with two or more
      dots; a numeral is read exactly; and in general the result denotes the mantissa with all
      its decimals, times the power of ten, if and only if no digit was left uncounted behind a
      second dot, or all digits are zero. */
  lemma AcceptedValue(s: string)
    requires ParseScientific(s).Some?
    ensures HasOneE(s) && IntOf(ExponentOf(s)).Some? && IntOf(ExponentOf(s)).value >= 0
    ensures var m, e, r := MantissaOf(s), IntOf(ExponentOf(s)).value, ParseScientific(s).value;
            && (IsNumeral(m) <==> Dots(m) <= 1)
            && (Dots(m) <= 1 ==> Exact(Some(r), Remove(m, '.'), e, Decimals(m)))
            && AllDigits(r) && AllDigits(Remove(m, '.'))
            && (Denotes(r, Remove(m, '.'), e, Decimals(m)) <==> Decimals(m) == Places(m) || NatValue(Remove(m, '.')) == 0)
  {
    hide *;
    AcceptedMeans(s);
    AcceptedIsExact(s);
    ValueOf(MantissaOf(s), ParseScientific(s).value, IntOf(ExponentOf(s)).value);
  }

  lemma ValueOf(m: string, r: string, e: nat)
    requires DigitsAndDots(m) && Exact(Some(r), Remove(m, '.'), e, Places(m))
    ensures IsNumeral(m) <==> Dots(m) <= 1
    ensures Dots(m) <= 1 ==> Exact(Some(r), Remove(m, '.'), e, Decimals(m))
    ensures AllDigits(r) && AllDigits(Remove(m, '.'))
    ensures Denotes(r, Remove(m, '.'), e, Decimals(m)) <==> Decimals(m) == Places(m) || NatValue(Remove(m, '.')) == 0
  {
    hide Remove, DigitsAndDots, Places, Decimals, NatValue, Pow10, IsNumeral, Dots;
    NumeralIff(m);
    if IsNumeral(m) {
      NumeralPlaces(m);
    }
    PlacesAreDecimals(m);
    DenotesIff(r, Remove(m, '.'), e, Places(m), Decimals(m));
  }

  /** With a second dot, and whatever further dots, the places are counted only up to it: the
      text is still accepted, and its digits are moved past those between the two dots alone. */
  lemma SecondDotMiscounts(whole: string, frac: string, more: string, mark: char, plus: bool, e: int)
    requires AllDigits(whole) && AllDigits(frac) && AllDigits(Remove(more, '.')) && AllPlain(more)
    requires whole + (frac + Remove(more, '.')) != "" && e >= |frac| && mark in {'E', 'e'} && (plus ==> e >= 0)
    ensures ParseScientific(Joint(Joint(whole, '.', Joint(frac, '.', more)), mark, ExponentText(plus, e)))
         == Some(whole + (frac + Remove(more, '.')) + Zeros(e - |frac|))
  {
    hide ParseScientific, Remove, Joint, Zeros, ExponentText;
    TwoDotsPadded(whole, frac, more, mark, plus, e);
  }

  lemma TwoDotsPadded(whole: string, frac: string, more: string, mark: char, plus: bool, e: int)
    requires AllDigits(whole) && AllDigits(frac) && AllPlain(more) && mark in {'E', 'e'} && (plus ==> e >= 0)
    ensures ParseScientific(Joint(Joint(whole, '.', Joint(frac, '.', more)), mark, ExponentText(plus, e)))
         == Padded(whole + (frac + Remove(more, '.')), e, |frac|)
  {
    var m, x := Joint(whole, '.', Joint(frac, '.', more)), ExponentText(plus, e);
    PlainParts(whole, frac, more, plus, e);
    PlusesGo(e);
    IntReadsBack(e);
    TwoDots(whole, frac, more);
    hide Shift, ParseScientific, UpperAll, IntOf, Remove, Joint, Plain, AllPlain, AllDigits, StripPluses, Fraction, Zeros,
      IntText, Padded;
    SplitAtE(m, mark, x);
    ShiftUnfolds(m, IntText(e));
  }

  lemma PlainParts(whole: string, frac: string, more: string, plus: bool, e: int)
    requires AllDigits(whole) && AllDigits(frac) && AllPlain(more)
    ensures AllPlain(Joint(whole, '.', Joint(frac, '.', more)))
    ensures AllPlain(ExponentText(plus, e)) && ExponentText(plus, e) != ""
  {
  }

  /** Texts with two and with three dots are read, although they are no numerals. */
  lemma DotsAreAccepted()
    ensures ParseScientific("1.2.3E5") == Some("1230000")
    ensures ParseScientific("1.2.3.4E5") == Some("12340000")
  {
    hide ParseScientific, Remove, Joint, Zeros, IntText;
    SpellFive();
    SpellTexts();
    SecondDotMiscounts("1", "2", "3", 'E', false, 5);
    SecondDotMiscounts("1", "2", "3.4", 'E', false, 5);
    assert "1" + ("2" + "3") + "0000" == "1230000";
    assert "1" + ("2" + "34") + "0000" == "12340000";
  }

  lemma SpellFive()
    ensures IntText(5) == "5" && Zeros(4) == "0000"
  {
  }

  lemma SpellTexts()
    ensures Remove("3", '.') == "3" && Remove("3.4", '.') == "34"
    ensures Joint(Joint("1", '.', Joint("2", '.', "3")), 'E', "5") == "1.2.3E5"
    ensures Joint(Joint("1", '.', Joint("2", '.', "3.4")), 'E', "5") == "1.2.3.4E5"
  {
    SpellRest();
    hide Remove;
    assert Joint("2", '.', "3") == "2.3" && Joint("2", '.', "3.4") == "2.3.4";
    assert Joint("1", '.', "2.3") == "1.2.3" && Joint("1", '.', "2.3.4") == "1.2.3.4";
  }

  lemma SpellRest()
    ensures Remove("3", '.') == "3" && Remove("3.4", '.') == "34"
  {
    RemoveJoint("3", '.', "4");
    assert Joint("3", '.', "4") == "3.4";
    assert Remove("3", '.') == "3" && Remove("4", '.') == "4";
  }
}
