/** Reading field values back out of a line: the processor's `_parse_date`
    and `_parse_decimal`, and the part of Python's `Decimal(str)` they rely
    on. Where Python raises, these functions give None. */
module Scan {
  import opened Text
  import opened Fields

  // ---------------------------------------------------------------------
  // _parse_date

  /** `date(year, month, day)`: None for a day the calendar does not have. */
  function MakeDate(y: int, m: int, d: int): (r: Option<Date>)
    ensures r.Some? <==> IsCalendarDate(Ymd(y, m, d))
    ensures r.Some? ==> r.value == Ymd(y, m, d)
  {
    if IsCalendarDate(Ymd(y, m, d)) then Some(Ymd(y, m, d)) else None
  }

  /** `_parse_date(s)`: stripped, exactly eight characters, `int()` of the
      year, month and day slices, then `date(...)`. */
  function ParseDate(s: string): (r: Option<Date>)
    ensures r.Some? ==> |Strip(s)| == 8 && IsCalendarDate(r.value)
  {
    var t := Strip(s);
    if |t| != 8 then None
    else
      match (PyInt(t[..4]), PyInt(t[4..6]), PyInt(t[6..8]))
      case (Some(y), Some(m), Some(d)) => MakeDate(y, m, d)
      case _ => None
  }

  /** A digit string is already stripped. */
  lemma DigitsStrippedText(s: string)
    requires IsDigitString(s)
    ensures Strip(s) == s
  {
    assert IsStripped(s) by {
      assert IsDigit(s[0]) && IsDigit(s[|s| - 1]);
    }
    StripStripped(s);
  }

  /** `_parse_date` reads back every date `_format_date` writes. */
  lemma ParseFormatDate(d: Date)
    ensures ParseDate(FormatDate(d)) == Some(d)
  {
    var t := FormatDate(d);
    DateDigits(d);
    assert PyInt(t[..4]) == Some(d.year);
    assert PyInt(t[4..6]) == Some(d.month);
    assert PyInt(t[6..8]) == Some(d.day);
  }

  /** The column `_format_date` writes is read back as the same date. */
  lemma DateColumn(d: Date, col: string)
    requires col == FormatDate(d)
    ensures ParseDate(col) == Some(d)
  {
    ParseFormatDate(d);
  }

  lemma DateDigits(d: Date)
    ensures var t := FormatDate(d);
      && Strip(t) == t && |t| == 8
      && IsDigitString(t[..4]) && DigitsValue(t[..4]) == d.year
      && IsDigitString(t[4..6]) && DigitsValue(t[4..6]) == d.month
      && IsDigitString(t[6..8]) && DigitsValue(t[6..8]) == d.day
  {
    var t := FormatDate(d);
    FormatDateFields(d);
    DigitsStrippedText(t);
    assert t[6..8] == t[6..];
  }

  /** The outcome of `_parse_date` where it succeeds: the eight stripped
      characters are a calendar date, each part denoted by its digits. */
  lemma ParseDateDigits(s: string)
    requires IsDigitString(s) && |s| == 8
    ensures ParseDate(s).Some? <==>
      IsCalendarDate(Ymd(DigitsValue(s[..4]), DigitsValue(s[4..6]), DigitsValue(s[6..8])))
    ensures ParseDate(s).Some? ==>
      ParseDate(s).value == Ymd(DigitsValue(s[..4]), DigitsValue(s[4..6]), DigitsValue(s[6..8]))
  {
    DigitsStrippedText(s);
    assert IsDigitString(s[..4]) && IsDigitString(s[4..6]) && IsDigitString(s[6..8]);
  }

  // ---------------------------------------------------------------------
  // Decimal(str)

  /** The position of the first c in s, or |s| when there is none. */
  function IndexOf(s: string, c: char): (k: nat)
    ensures k <= |s|
    ensures k < |s| ==> s[k] == c
    ensures forall i :: 0 <= i < k ==> s[i] != c
  {
    if s == [] then 0 else if s[0] == c then 0 else 1 + IndexOf(s[1..], c)
  }

  /** A decimal literal without its sign: digits with at most one '.', at
      least one digit in all. The value has as many decimal places as
      there are digits after the point, as `Decimal` keeps them. */
  function DecimalBody(b: string, negative: bool): (r: Option<Dec>)
    ensures r.Some? ==> forall i :: IndexOf(b, '.') < i < |b| ==> IsDigit(b[i])
    ensures r.Some? ==> r.value.scale < |b|
    ensures r.Some? && IndexOf(b, '.') < |b| ==> r.value.scale == |b| - IndexOf(b, '.') - 1
    ensures r.Some? && r.value.units < 0 ==> negative
  {
    var k := IndexOf(b, '.');
    var ip := b[..k];
    var fp := if k < |b| then b[k + 1..] else [];
    if AllDigits(ip) && AllDigits(fp) && |ip| + |fp| > 0 then
      var m := DigitsValue(ip + fp);
      Some(Dec(if negative then 0 - m else m, |fp|))
    else None
  }

  /** `Decimal(s)` on a string: surrounding whitespace ignored, one optional
      sign, then a decimal literal. None where `Decimal` raises. */
  function PyDecimal(s: string): (r: Option<Dec>)
    ensures r.Some? ==> r.value.scale < |Strip(s)|
    ensures r.Some? && r.value.units < 0 ==> Strip(s)[0] == '-'
  {
    var t := Strip(s);
    if t != [] && (t[0] == '+' || t[0] == '-') then DecimalBody(t[1..], t[0] == '-')
    else DecimalBody(t, false)
  }

  /** Digits, a point and digits denote digits / 10^(digits after the point). */
  lemma PyDecimalPoint(a: string, b: string)
    requires AllDigits(a) && AllDigits(b) && (a != [] || b != [])
    ensures AllDigits(a + b)
    ensures PyDecimal(a + "." + b) == Some(Dec(DigitsValue(a + b), |b|))
  {
    var s := a + "." + b;
    StripPoint(a, b);
    PyDecimalUnsigned(s);
    DecimalBodyPoint(a, b);
  }

  lemma StripPoint(a: string, b: string)
    requires AllDigits(a) && AllDigits(b)
    ensures var s := a + "." + b; Strip(s) == s && s[0] != '+' && s[0] != '-'
  {
    var s := a + "." + b;
    assert s[|a|] == '.';
    assert IsDigit(s[0]) || s[0] == '.';
    assert IsDigit(s[|s| - 1]) || s[|s| - 1] == '.';
    StripStripped(s);
  }

  lemma PyDecimalUnsigned(s: string)
    requires Strip(s) == s && s != [] && s[0] != '+' && s[0] != '-'
    ensures PyDecimal(s) == DecimalBody(s, false)
  {
  }

  lemma DecimalBodyPoint(a: string, b: string)
    requires AllDigits(a) && AllDigits(b) && (a != [] || b != [])
    ensures AllDigits(a + b)
    ensures DecimalBody(a + "." + b, false) == Some(Dec(DigitsValue(a + b), |b|))
  {
    var s := a + "." + b;
    PointAfterDigits(a, b);
    assert s[..|a|] == a && s[|a| + 1..] == b;
  }

  lemma {:induction false} PointAfterDigits(a: string, b: string)
    requires AllDigits(a)
    ensures IndexOf(a + "." + b, '.') == |a|
    decreases |a|
  {
    if a != [] {
      assert (a + "." + b)[1..] == a[1..] + "." + b;
      PointAfterDigits(a[1..], b);
    }
  }

  // ---------------------------------------------------------------------
  // _parse_decimal

  /** `_parse_decimal(s, p)`: stripped; empty text is zero; with p places the
      point is put before the last p characters ("0." and zero filling when
      there are no more than p of them); then `Decimal(...)`. */
  function ParseDecimal(s: string, p: nat): (r: Option<Dec>)
    ensures r.Some? && p > 0 && Strip(s) != [] ==> r.value.scale == p
  {
    var t := Strip(s);
    if t == [] then Some(Dec(0, 0))
    else if p > 0 then
      if |t| <= p then
        var z := ZFill(t, p);
        ZeroPoint(z);
        PyDecimalScale("0." + z, "0", z);
        PyDecimal("0." + z)
      else
        PyDecimalScale(t[..|t| - p] + "." + t[|t| - p..], t[..|t| - p], t[|t| - p..]);
        PyDecimal(t[..|t| - p] + "." + t[|t| - p..])
    else PyDecimal(t)
  }

  /** Where the text has a point between a and c, a `Decimal` read from it
      has c's length as its scale: an earlier point would leave a point
      among the fraction digits. */
  lemma PointScale(a: string, c: string, negative: bool)
    ensures var d := DecimalBody(a + "." + c, negative);
      d.Some? ==> d.value.scale == |c|
  {
    var b := a + "." + c;
    assert b[|a|] == '.' && !IsDigit(b[|a|]);
  }

  /** A stripped text with a point between a and c reads as a `Decimal` of
      scale |c|, whether or not it has a sign. */
  lemma PyDecimalScale(u: string, a: string, c: string)
    requires u == a + "." + c && a != [] && c != []
    requires !IsSpace(a[0]) && !IsSpace(c[|c| - 1])
    ensures PyDecimal(u).Some? ==> PyDecimal(u).value.scale == |c|
  {
    assert u[0] == a[0] && u[|u| - 1] == c[|c| - 1];
    StripStripped(u);
    if u[0] == '+' || u[0] == '-' {
      assert u[1..] == a[1..] + "." + c;
      PointScale(a[1..], c, u[0] == '-');
    } else {
      PointScale(a, c, false);
    }
  }

  /** A field of digits read with p > 0 places: the digits' value over 10^p. */
  lemma ParseDecimalDigits(s: string, p: nat)
    requires IsDigitString(s) && p > 0
    ensures ParseDecimal(s, p) == Some(Dec(DigitsValue(s), p))
  {
    DigitsStrippedText(s);
    if |s| <= p {
      ParseDecimalShort(s, p);
    } else {
      var a := s[..|s| - p];
      var b := s[|s| - p..];
      assert a + b == s;
      ParseDecimalLong(s, p);
      PyDecimalPoint(a, b);
    }
  }

  /** More than p stripped characters: the point goes before the last p. */
  lemma ParseDecimalLong(s: string, p: nat)
    requires Strip(s) == s && 0 < p < |s|
    ensures ParseDecimal(s, p) == PyDecimal(s[..|s| - p] + "." + s[|s| - p..])
  {
    var t := Strip(s);
    assert t == s && t != [] && !(|t| <= p);
  }

  lemma ParseDecimalShort(s: string, p: nat)
    requires IsDigitString(s) && Strip(s) == s && 0 < |s| <= p
    ensures ParseDecimal(s, p) == Some(Dec(DigitsValue(s), p))
  {
    var z := ZFill(s, p);
    assert ParseDecimal(s, p) == PyDecimal("0." + z);
    assert AllDigits(z) && |z| == p && DigitsValue(z) == DigitsValue(s) by {
      ZFillDigits(s, p);
    }
    FractionOnly(z);
  }

  /** "0." followed by digits. */
  lemma FractionOnly(z: string)
    requires AllDigits(z)
    ensures PyDecimal("0." + z) == Some(Dec(DigitsValue(z), |z|))
  {
    ZeroPoint(z);
    PyDecimalPoint("0", z);
    ZeroPrefix(z);
  }

  /** The text "0." + z is "0", the point, then z. */
  lemma ZeroPoint(z: string)
    ensures "0." + z == "0" + "." + z
  {
  }

  lemma ZeroPrefix(z: string)
    requires AllDigits(z)
    ensures AllDigits("0" + z) && DigitsValue("0" + z) == DigitsValue(z)
  {
    assert "0" + z == Repeat('0', 1) + z;
    LeadingZeros(z, 1, "0" + z);
  }

  /** Zero filling a digit string keeps its value. */
  lemma ZFillDigits(s: string, p: nat)
    requires IsDigitString(s) && |s| <= p
    ensures AllDigits(ZFill(s, p)) && |ZFill(s, p)| == p
    ensures DigitsValue(ZFill(s, p)) == DigitsValue(s)
  {
    assert s[0] != '+' && s[0] != '-';
    var z := ZFill(s, p);
    assert z == Repeat('0', p - |s|) + s;
    LeadingZeros(s, p - |s|, z);
  }

  /** With no places the field is read as an integer literal. */
  lemma ParseDecimalInteger(s: string)
    requires IsDigitString(s)
    ensures ParseDecimal(s, 0) == Some(Dec(DigitsValue(s), 0))
  {
    DigitsStrippedText(s);
    assert s[0] != '+' && s[0] != '-';
    assert ParseDecimal(s, 0) == PyDecimal(s);
    assert PyDecimal(s) == DecimalBody(s, false);
    NoPoint(s);
    assert s[..|s|] == s;
    assert s + [] == s;
  }

  lemma {:induction false} NoPoint(s: string)
    requires AllDigits(s)
    ensures IndexOf(s, '.') == |s|
  {
    if s != [] {
      assert s[0] != '.';
      NoPoint(s[1..]);
    }
  }

  /** A blank field is zero. */
  lemma ParseDecimalBlank(k: nat, p: nat)
    ensures ParseDecimal(Spaces(k), p) == Some(Dec(0, 0))
  {
    SpacesStripToEmpty(k);
  }

  // ---------------------------------------------------------------------
  // What a column written with p places reads back as

  lemma QuotientAtMost(m: nat, q: nat, h: nat)
    requires q >= 1 && m <= h * q
    ensures m / q <= h
    ensures m / q == h ==> m % q == 0
  {
    var d := m / q;
    assert m == d * q + m % q;
    if d > h {
      MulLe(h + 1, d, q);
      assert false;
    }
  }

  lemma ScaledAtMost(m: nat, hi: nat, a: nat, b: nat)
    requires m <= hi * b
    ensures m * a <= hi * (a * b)
  {
    MulLe(m, hi * b, a);
    MulAssoc(hi, b, a);
  }

  lemma RoundedAtMost(m: nat, q: nat, h: nat)
    requires q >= 1 && m <= h * q
    ensures RoundHalfEven(m, q) <= h
  {
    QuotientAtMost(m, q, h);
  }

  /** `m <= hi * 10^s` with `10^s == q * c`, rounded by q: at most hi * c. */
  lemma RoundedBound(m: nat, q: nat, c: nat, hi: nat)
    requires q >= 1 && m <= hi * (q * c)
    ensures RoundHalfEven(m, q) <= hi * c
  {
    MulAssoc(hi, c, q);
    RoundedAtMost(m, q, hi * c);
  }

  /** Rounding at p places keeps a value within its upper bound: a field
      with `le=hi` read back at p places is still at most hi. */
  lemma WrittenAtMost(v: Dec, hi: nat, p: nat)
    requires AmountAtMost(v, hi) && p > 0
    ensures WrittenValue(v, p) <= hi * Pow10(p)
  {
    var s := v.scale;
    if s <= p {
      var a := Pow10(p - s);
      var b := Pow10(s);
      Pow10Add(p - s, s);
      assert Pow10(p) == a * b;
      assert WrittenValue(v, p) == v.units * a;
      ScaledAtMost(v.units, hi, a, b);
    } else {
      var q := Pow10(s - p);
      var c := Pow10(p);
      Pow10Add(s - p, p);
      assert v.units <= hi * (q * c);
      RoundedBound(v.units, q, c, hi);
      assert WrittenValue(v, p) == RoundHalfEven(v.units, q);
    }
  }

  /** A value with at most p places is read back with the same value, as
      `Decimal` equality compares them. */
  lemma WrittenSameValue(v: Dec, p: nat)
    requires v.units >= 0 && v.scale <= p && p > 0
    ensures SameValue(Dec(WrittenValue(v, p), p), v)
  {
    var a := Pow10(p - v.scale);
    var b := Pow10(v.scale);
    Pow10Add(p - v.scale, v.scale);
    assert p - v.scale + v.scale == p;
    assert WrittenValue(v, p) == v.units * a;
    assert (v.units * a) * b == v.units * (a * b);
  }

  /** The column `_format_numeric(v, size, p)` writes for v >= 0 that fits,
      read back by `_parse_decimal` with the same p > 0: v rounded at p
      places. */
  lemma NumericColumnBack(v: Dec, size: nat, p: nat, col: string)
    requires v.units >= 0 && p > 0 && col == FormatNumeric(v, size, p)
    ensures ParseDecimal(col, p) == Some(Dec(WrittenValue(v, p), p))
  {
    FormatNumericValue(v, size, p);
    ParseDecimalDigits(col, p);
  }
}
