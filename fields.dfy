/** Field-level codec of the SINTEGRA records: the three `BaseRecord`
    formatters (`_format_text`, `_format_numeric`, `_format_date`), the
    f-string renderings the other records use (`{n:0Wd}`, `int(v * 100)`),
    and the field validators every record applies at construction. */
module Fields {
  import opened Text

  /** Construction outcome of a validated field or record; `Err` names the
      field that failed, as a pydantic `ValidationError` would. */
  datatype Result<+T> = Ok(value: T) | Err(field: string) {
    predicate IsFailure() {
      Err?
    }

    function PropagateFailure<U>(): Result<U>
      requires Err?
    {
      Err(field)
    }

    function Extract(): T
      requires Ok?
    {
      value
    }
  }

  // ---------------------------------------------------------------------
  // Values

  /** A Python `Decimal`: the exact value units / 10^scale. */
  datatype Dec = Dec(units: int, scale: nat)

  /** `Decimal.__eq__`: equality of values, whatever the scales. */
  predicate SameValue(a: Dec, b: Dec) {
    a.units * Pow10(b.scale) == b.units * Pow10(a.scale)
  }

  function Abs(i: int): nat {
    if i < 0 then -i else i
  }

  /** A calendar date as Python's `date` stores it. */
  datatype Ymd = Ymd(year: int, month: int, day: int)

  predicate IsLeapYear(y: int) {
    (y % 4 == 0 && y % 100 != 0) || y % 400 == 0
  }

  function DaysInMonth(y: int, m: int): int {
    if m == 2 then (if IsLeapYear(y) then 29 else 28)
    else if m == 4 || m == 6 || m == 9 || m == 11 then 30
    else 31
  }

  /** What `date(year, month, day)` accepts. */
  predicate IsCalendarDate(d: Ymd) {
    && 1 <= d.year <= 9999
    && 1 <= d.month <= 12
    && 1 <= d.day <= DaysInMonth(d.year, d.month)
  }

  type Date = d: Ymd | IsCalendarDate(d) witness Ymd(2000, 1, 1)

  // ---------------------------------------------------------------------
  // _format_text

  /** `_format_text(value, size)`: pad with spaces on the right, then cut to
      `size` characters. */
  function FormatText(v: string, size: nat): (r: string)
    ensures |r| == size
    ensures |v| <= size ==> r == v + Spaces(size - |v|)
    ensures |v| >= size ==> r == v[..size]
  {
    LJust(v, size, ' ')[..size]
  }

  /** A stripped text that fits its field is read back by stripping the
      field: the inverse of `_format_text` that the parser applies. */
  lemma FormatTextBack(v: string, size: nat, x: string)
    requires IsStripped(v) && |v| <= size && x == FormatText(v, size)
    ensures Strip(x) == v
  {
    StripPadded(v, size - |v|);
  }

  /** A text that fills its field exactly is written as it is. */
  lemma FormatTextExact(v: string, size: nat, x: string)
    requires |v| == size && x == FormatText(v, size)
    ensures x == v
  {
    assert Spaces(0) == [];
  }

  // ---------------------------------------------------------------------
  // _format_numeric

  /** Rounds m / q to the nearest integer, ties to the even neighbour: the
      rounding of the default decimal context that `f"{v:.pf}"` uses. */
  function RoundHalfEven(m: nat, q: nat): (r: nat)
    requires q >= 1
    ensures r == m / q || r == m / q + 1
    ensures 2 * (m % q) < q ==> r == m / q
    ensures 2 * (m % q) > q ==> r == m / q + 1
    ensures 2 * (m % q) == q ==> r % 2 == 0
  {
    var f := m / q;
    var rem := m % q;
    if 2 * rem > q || (2 * rem == q && f % 2 == 1) then f + 1 else f
  }

  /** |v| * 10^p as the integer `f"{v:.pf}"` shows, rounded when v has more
      than p decimal places. */
  function ScaledMagnitude(v: Dec, p: nat): nat {
    if v.scale <= p then Abs(v.units) * Pow10(p - v.scale)
    else RoundHalfEven(Abs(v.units), Pow10(v.scale - p))
  }

  /** `int(v)`: the decimal truncated toward zero. */
  function TruncToInt(v: Dec): int {
    var q := Quot(Abs(v.units), Pow10(v.scale));
    if v.units < 0 then 0 - q else q
  }

  /** The unpadded text of `_format_numeric`: `str(int(v))` when p is 0,
      otherwise `f"{v:.pf}"` with its decimal point removed. */
  function NumericText(v: Dec, p: nat): string {
    if p == 0 then IntStr(TruncToInt(v))
    else
      (if v.units < 0 then "-" else "") + SplitAt(ScaledMagnitude(v, p), p)
  }

  /** The integer a non-negative value is written as: truncated when p is 0,
      rounded half-even at p places otherwise. */
  function WrittenValue(v: Dec, p: nat): nat {
    if p == 0 then Quot(Abs(v.units), Pow10(v.scale)) else ScaledMagnitude(v, p)
  }

  /** `_format_numeric(value, size, decimal_places)`: zero-padded on the left
      to `size`, never cut. */
  function FormatNumeric(v: Dec, size: nat, p: nat): (r: string)
    ensures |r| >= size
    ensures NumericFits(v, size, p) ==> |r| == size
  {
    RJust(NumericText(v, p), size, '0')
  }

  /** `_format_numeric` keeps the whole text and puts zeros before it: the
      length is the larger of `size` and the text's, and nothing is cut. */
  lemma FormatNumericPadding(v: Dec, size: nat, p: nat)
    ensures var t := NumericText(v, p); var r := FormatNumeric(v, size, p);
      && |r| == (if |t| >= size then |t| else size)
      && r[|r| - |t|..] == t
      && forall i :: 0 <= i < |r| - |t| ==> r[i] == '0'
  {
    var t := NumericText(v, p);
    if |t| < size {
      RepeatChars('0', size - |t|);
      assert (Repeat('0', size - |t|) + t)[size - |t|..] == t;
    }
  }

  /** For a non-negative value `_format_numeric` writes a digit string whose
      value is the written integer, with more than p digits when p > 0. */
  lemma FormatNumericValue(v: Dec, size: nat, p: nat)
    requires v.units >= 0
    ensures AllDigits(FormatNumeric(v, size, p))
    ensures DigitsValue(FormatNumeric(v, size, p)) == WrittenValue(v, p)
    ensures p > 0 ==> |FormatNumeric(v, size, p)| > p
  {
    var t := NumericText(v, p);
    var r := RJust(t, size, '0');
    NumericTextValue(v, p);
    LeadingZeros(t, |r| - |t|, r);
  }

  /** A value with at most p decimal places is written exactly: v * 10^p. */
  lemma WrittenExact(v: Dec, p: nat)
    requires v.units >= 0 && v.scale <= p
    ensures WrittenValue(v, p) == v.units * Pow10(p - v.scale)
      || (p == 0 && WrittenValue(v, p) == v.units)
  {
  }

  lemma NumericTextValue(v: Dec, p: nat)
    requires v.units >= 0
    ensures AllDigits(NumericText(v, p))
    ensures DigitsValue(NumericText(v, p)) == WrittenValue(v, p)
    ensures p > 0 ==> |NumericText(v, p)| > p
  {
    if p == 0 {
      NatStrValue(TruncToInt(v));
    } else {
      var q := ScaledMagnitude(v, p);
      assert NumericText(v, p) == SplitAt(q, p);
      SplitAtValue(q, p);
    }
  }

  /** q written with a decimal point before its last p digits, point removed. */
  function SplitAt(q: nat, p: nat): string {
    NatStr(Quot(q, Pow10(p))) + ZeroPad(Rem(q, Pow10(p)), p)
  }

  lemma SplitAtValue(q: nat, p: nat)
    requires p > 0
    ensures AllDigits(SplitAt(q, p)) && DigitsValue(SplitAt(q, p)) == q
    ensures |SplitAt(q, p)| > p
  {
    var d := Pow10(p);
    var a := NatStr(Quot(q, d));
    var b := ZeroPad(Rem(q, d), p);
    ZeroPadLength(Rem(q, d), p);
    ZeroPadValue(Rem(q, d), p);
    NatStrValue(Quot(q, d));
    DigitsValueConcat(a, b);
    QuotRem(q, d);
  }

  /** The value `_format_numeric` is given fits its field: no widening. */
  predicate NumericFits(v: Dec, size: nat, p: nat) {
    |NumericText(v, p)| <= size
  }

  /** `_format_numeric` on a string such as a CNPJ: `str(int(s))` padded;
      None where `int()` raises. */
  function FormatNumericText(s: string, size: nat): (r: Option<string>)
    ensures IsDigitString(s) ==> r == Some(ZeroPad(DigitsValue(s), size))
  {
    match PyInt(s)
    case Some(i) => Some(RJust(IntStr(i), size, '0'))
    case None => None
  }

  /** `_format_numeric` on an `int`: `Decimal(str(n))` has no fraction, so
      the text is `str(n)` zero-padded. */
  lemma FormatNumericInt(n: nat, size: nat)
    ensures FormatNumeric(Dec(n, 0), size, 0) == ZeroPad(n, size)
  {
  }

  /** `_format_numeric` on a digit-only string of its field's width, such as
      a validated CNPJ or CEP. Construction admits nothing else into these
      fields, so what it gives for other text is never written. */
  function FormatDigitCode(s: string, size: nat): (r: string)
    ensures |s| == size ==> r == s
  {
    if |s| != size && AllDigits(s) then ZeroPad(DigitsValue(s), size) else s
  }

  /** `FormatDigitCode` is what `_format_numeric` computes: `str(int(s))`
      zero-padded, which for a digit string of the field's width is s. */
  lemma FormatDigitCodeAgrees(s: string, size: nat)
    requires IsDigitString(s)
    ensures FormatNumericText(s, size) == Some(FormatDigitCode(s, size))
  {
    if |s| == size {
      ZeroPadDigits(s);
    }
  }

  // ---------------------------------------------------------------------
  // _format_date

  /** `_format_date(value)`: `YYYYMMDD`. */
  function FormatDate(d: Date): (r: string)
    ensures |r| == 8
  {
    ZeroPadLength(d.year, 4);
    ZeroPadLength(d.month, 2);
    ZeroPadLength(d.day, 2);
    Pow10Values();
    ZeroPad(d.year, 4) + ZeroPad(d.month, 2) + ZeroPad(d.day, 2)
  }

  /** The year, month and day can be read back from their positions. */
  lemma FormatDateFields(d: Date)
    ensures AllDigits(FormatDate(d))
    ensures DigitsValue(FormatDate(d)[..4]) == d.year
    ensures DigitsValue(FormatDate(d)[4..6]) == d.month
    ensures DigitsValue(FormatDate(d)[6..]) == d.day
  {
    var y := ZeroPad(d.year, 4);
    var m := ZeroPad(d.month, 2);
    var dd := ZeroPad(d.day, 2);
    ZeroPadLength(d.year, 4);
    ZeroPadLength(d.month, 2);
    ZeroPadLength(d.day, 2);
    ZeroPadValue(d.year, 4);
    ZeroPadValue(d.month, 2);
    ZeroPadValue(d.day, 2);
    Pow10Values();
    var r := y + m + dd;
    assert r[..4] == y && r[4..6] == m && r[6..] == dd;
  }

  // ---------------------------------------------------------------------
  // f-string renderings

  /** `f"{x:0{w}d}"`: a leading minus sign for a negative x, zero padding to
      w characters in all, never cut. */
  function FormatIntField(x: int, w: nat): (r: string)
    ensures IntFits(x, w) && w > 0 ==> |r| == w
    ensures x < 0 ==> |r| > 0 && r[0] == '-'
  {
    if x < 0 then "-" + ZeroPad(-x, if w > 0 then w - 1 else 0)
    else ZeroPadLength(x, w); ZeroPad(x, w)
  }

  lemma FormatIntFieldValue(x: int, w: nat)
    requires x >= 0
    ensures AllDigits(FormatIntField(x, w)) && DigitsValue(FormatIntField(x, w)) == x
  {
    ZeroPadValue(x, w);
  }

  /** `int(v * 10^k)`: scaled, then truncated toward zero. */
  function TruncScaled(v: Dec, k: nat): (r: int)
    ensures v.units >= 0 ==> r >= 0
    ensures v.units < 0 ==> r <= 0
  {
    var q := Quot(Abs(v.units) * Pow10(k), Pow10(v.scale));
    if v.units < 0 then 0 - q else q
  }

  /** For a non-negative value, `int(v * 10^k)` is the floor of v * 10^k. */
  lemma TruncScaledBounds(v: Dec, k: nat)
    requires v.units >= 0
    ensures var r := TruncScaled(v, k);
      r * Pow10(v.scale) <= v.units * Pow10(k) < (r + 1) * Pow10(v.scale)
  {
    QuotRem(Abs(v.units) * Pow10(k), Pow10(v.scale));
  }

  /** `f"{int(v * 10^k):0{w}d}"`, the way the f-string records write amounts. */
  function FormatScaled(v: Dec, k: nat, w: nat): (r: string)
    ensures v.units >= 0 && ScaledFits(v, k, w) && w > 0 ==> |r| == w
  {
    FormatIntField(TruncScaled(v, k), w)
  }

  /** A non-negative value written by `FormatScaled` fills exactly its w
      characters. */
  predicate ScaledFits(v: Dec, k: nat, w: nat) {
    TruncScaled(v, k) < Pow10(w)
  }

  predicate IntFits(x: int, w: nat) {
    0 <= x < Pow10(w)
  }

  /** `f"{v:<n}"`: padded with spaces on the right to n characters, never cut. */
  function PadText(v: string, n: nat): (r: string)
    ensures |v| <= n ==> |r| == n
  {
    LJust(v, n, ' ')
  }

  /** A stripped text that fits is read back from its padded column. */
  lemma PadTextBack(v: string, n: nat, x: string)
    requires IsStripped(v) && |v| <= n && x == PadText(v, n)
    ensures Strip(x) == v
  {
    assert x == v + Spaces(n - |v|);
    StripPadded(v, n - |v|);
  }

  // ---------------------------------------------------------------------
  // Reading a numeric column back

  /** A column of decimal digits that denotes n. */
  predicate DigitsDenote(x: string, n: int) {
    AllDigits(x) && DigitsValue(x) == n
  }

  /** The column `f"{x:0{w}d}"` writes for x >= 0 denotes x. */
  lemma IntColumn(x: int, w: nat, col: string)
    requires x >= 0 && col == FormatIntField(x, w)
    ensures DigitsDenote(col, x)
  {
    FormatIntFieldValue(x, w);
  }

  /** The column `f"{int(v * 10^k):0{w}d}"` writes for v >= 0 denotes
      `int(v * 10^k)`, the floor of v * 10^k. */
  lemma ScaledColumn(v: Dec, k: nat, w: nat, col: string)
    requires v.units >= 0 && col == FormatScaled(v, k, w)
    ensures DigitsDenote(col, TruncScaled(v, k))
  {
    FormatIntFieldValue(TruncScaled(v, k), w);
  }

  /** The column `_format_numeric(x, size)` writes for an integer x that fits
      is exactly `size` digits denoting x. */
  lemma NumericIntColumn(x: int, size: nat, col: string)
    requires size > 0 && 0 <= x < Pow10(size) && col == FormatNumeric(Dec(x, 0), size, 0)
    ensures |col| == size && DigitsDenote(col, x)
  {
    FormatNumericInt(x, size);
    ZeroPadLength(x, size);
    ZeroPadValue(x, size);
  }

  /** The column `_format_numeric(v, size, p)` writes for v >= 0 denotes the
      written value: v * 10^p rounded half-even, or truncated when p is 0. */
  lemma NumericColumn(v: Dec, size: nat, p: nat, col: string)
    requires v.units >= 0 && col == FormatNumeric(v, size, p)
    ensures DigitsDenote(col, WrittenValue(v, p))
  {
    FormatNumericValue(v, size, p);
  }

  // ---------------------------------------------------------------------
  // Validators

  /** The 27 state codes `validate_uf` accepts. */
  const UFS: set<string> := {
    "AC", "AL", "AP", "AM", "BA", "CE", "DF", "ES", "GO", "MA", "MT", "MS",
    "MG", "PA", "PB", "PR", "PE", "PI", "RJ", "RN", "RS", "RO", "RR", "SC",
    "SP", "SE", "TO"
  }

  /** A text field after construction: stripped, within its length bounds. */
  predicate TextOk(v: string, minLen: nat, maxLen: nat) {
    IsStripped(v) && minLen <= |v| <= maxLen
  }

  /** A digit-only code of exactly n characters (CNPJ 14, CEP 8, NCM 8). */
  predicate DigitCodeOk(v: string, n: nat) {
    |v| == n && IsDigitString(v)
  }

  /** The same 27 codes as pairs of letters, grouped by the first one. */
  predicate UfPair(a: char, b: char) {
    || (a == 'A' && (b == 'C' || b == 'L' || b == 'P' || b == 'M'))
    || (a == 'B' && b == 'A')
    || (a == 'C' && b == 'E')
    || (a == 'D' && b == 'F')
    || (a == 'E' && b == 'S')
    || (a == 'G' && b == 'O')
    || (a == 'M' && (b == 'A' || b == 'T' || b == 'S' || b == 'G'))
    || (a == 'P' && (b == 'A' || b == 'B' || b == 'R' || b == 'E' || b == 'I'))
    || (a == 'R' && (b == 'J' || b == 'N' || b == 'S' || b == 'O' || b == 'R'))
    || (a == 'S' && (b == 'C' || b == 'P' || b == 'E'))
    || (a == 'T' && b == 'O')
  }

  /** A state code `validate_uf` accepts. */
  predicate UfOk(v: string) {
    |v| == 2 && UfPair(v[0], v[1])
  }

  /** `UfOk` is membership in the set of 27 codes. */
  lemma UfCodes(v: string)
    ensures UfOk(v) <==> v in UFS
  {
    if |v| == 2 {
      assert v == [v[0], v[1]];
    }
  }

  /** `ge=0` on a Decimal field. */
  predicate AmountOk(d: Dec) {
    d.units >= 0
  }

  /** `ge=0, le=hi` on a Decimal field. */
  predicate AmountAtMost(d: Dec, hi: nat) {
    0 <= d.units <= hi * Pow10(d.scale)
  }

  predicate InRange(x: int, lo: int, hi: int) {
    lo <= x <= hi
  }

  /** A `str` field with `min_length`/`max_length`: stripped, then measured. */
  function CheckText(name: string, v: string, minLen: nat, maxLen: nat): (r: Result<string>)
    ensures r.Ok? <==> minLen <= |Strip(v)| <= maxLen
    ensures r.Ok? ==> r.value == Strip(v) && TextOk(r.value, minLen, maxLen)
    ensures TextOk(v, minLen, maxLen) ==> r == Ok(v)
  {
    var t := Strip(v);
    assert TextOk(v, minLen, maxLen) ==> t == v by {
      if TextOk(v, minLen, maxLen) { StripStripped(v); }
    }
    if minLen <= |t| <= maxLen then Ok(t) else Err(name)
  }

  /** `validate_cnpj`, `validate_cep`, `validate_ncm` behind their
      exact-length bounds: stripped, n characters, `isdigit()`. */
  function CheckDigitCode(name: string, v: string, n: nat): (r: Result<string>)
    ensures r.Ok? <==> |Strip(v)| == n && IsDigitString(Strip(v))
    ensures r.Ok? ==> r.value == Strip(v) && DigitCodeOk(r.value, n)
    ensures DigitCodeOk(v, n) ==> r == Ok(v)
  {
    var t := Strip(v);
    DigitsStripped(v, n);
    if |t| == n && IsDigitString(t) then Ok(t) else Err(name)
  }

  lemma DigitsStripped(v: string, n: nat)
    ensures DigitCodeOk(v, n) ==> Strip(v) == v
  {
    if DigitCodeOk(v, n) {
      assert IsDigit(v[0]) && IsDigit(v[|v| - 1]);
      StripStripped(v);
    }
  }

  /** `validate_uf` behind its two-character bounds: the stripped value,
      upper-cased, must be one of the 27 codes, and is stored upper-cased. */
  function CheckUf(name: string, v: string): (r: Result<string>)
    ensures r.Ok? <==> |Strip(v)| == 2 && Upper(Strip(v)) in UFS
    ensures r.Ok? ==> r.value == Upper(Strip(v)) && UfOk(r.value)
    ensures r.Ok? <==> UfOk(Upper(Strip(v)))
    ensures UfOk(v) ==> r == Ok(v)
  {
    var t := Strip(v);
    UfCodes(Upper(t));
    assert UfOk(v) ==> t == v && Upper(v) == v by {
      if UfOk(v) { UfCaps(v); CapsFixed(v); }
    }
    if |t| == 2 && UfOk(Upper(t)) then Ok(Upper(t)) else Err(name)
  }

  /** Two upper-case ASCII letters. */
  predicate Caps(u: string) {
    |u| == 2 && 'A' <= u[0] <= 'Z' && 'A' <= u[1] <= 'Z'
  }

  lemma UfCaps(u: string)
    requires UfOk(u)
    ensures Caps(u)
  {
  }

  /** Two capital letters, a state code among them, are left unchanged by
      `strip()` and `upper()`. */
  lemma CapsFixed(u: string)
    requires Caps(u)
    ensures Strip(u) == u && Upper(u) == u
  {
    assert Upper(u) == [UpperChar(u[0]), UpperChar(u[1])];
    StripStripped(u);
  }

  function CheckIntRange(name: string, x: int, lo: int, hi: int): (r: Result<int>)
    ensures r.Ok? <==> InRange(x, lo, hi)
    ensures r.Ok? ==> r.value == x
  {
    if lo <= x <= hi then Ok(x) else Err(name)
  }

  function CheckAmount(name: string, d: Dec): (r: Result<Dec>)
    ensures r.Ok? <==> AmountOk(d)
    ensures r.Ok? ==> r.value == d
  {
    if d.units >= 0 then Ok(d) else Err(name)
  }

  function CheckAmountAtMost(name: string, d: Dec, hi: nat): (r: Result<Dec>)
    ensures r.Ok? <==> AmountAtMost(d, hi)
    ensures r.Ok? ==> r.value == d
  {
    if 0 <= d.units <= hi * Pow10(d.scale) then Ok(d) else Err(name)
  }

  /** `Literal["P", "T"]`, the issuer of an invoice: its own or a third
      party's. */
  predicate IssuerOk(v: string) {
    v == "P" || v == "T"
  }

  function CheckIssuer(name: string, v: string): (r: Result<string>)
    ensures r.Ok? <==> IssuerOk(v)
    ensures r.Ok? ==> r.value == v
  {
    if IssuerOk(v) then Ok(v) else Err(name)
  }
}
