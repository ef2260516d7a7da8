/** The Python string primitives the SINTEGRA codec is built from: whitespace
    stripping, padding (`ljust`, `rjust`, `zfill`), digit strings and their
    values, `int()` on a string, `upper()` and `split()`. Strings are
    sequences of Unicode code points, as Python's `str` is. */
module Text {

  datatype Option<+T> = None | Some(value: T)

  // ---------------------------------------------------------------------
  // Whitespace and stripping

  /** `str.isspace()`: the characters Python's `strip()` and `int()` remove. */
  predicate IsSpace(c: char) {
    || c == ' '
    || ('\U{9}' <= c <= '\U{d}')
    || ('\U{1c}' <= c <= '\U{1f}')
    || c == '\U{85}' || c == '\U{a0}' || c == '\U{1680}'
    || ('\U{2000}' <= c <= '\U{200a}')
    || c == '\U{2028}' || c == '\U{2029}' || c == '\U{202f}'
    || c == '\U{205f}' || c == '\U{3000}'
  }

  /** A string `strip()` leaves unchanged: no whitespace at either end. */
  predicate IsStripped(s: string) {
    s == [] || (!IsSpace(s[0]) && !IsSpace(s[|s| - 1]))
  }

  /** `str.lstrip()` */
  function LStrip(s: string): (r: string)
    ensures |r| <= |s|
    ensures r == [] || !IsSpace(r[0])
  {
    if s != [] && IsSpace(s[0]) then LStrip(s[1..]) else s
  }

  /** `str.rstrip()` */
  function RStrip(s: string): (r: string)
    ensures |r| <= |s|
    ensures r == [] || !IsSpace(r[|r| - 1])
  {
    if s != [] && IsSpace(s[|s| - 1]) then RStrip(s[..|s| - 1]) else s
  }

  /** `str.strip()`: the longest middle part without whitespace at its ends. */
  function Strip(s: string): (r: string)
    ensures IsStripped(r) && |r| <= |s|
  {
    var l := LStrip(s);
    var r := RStrip(l);
    assert r == [] || !IsSpace(r[0]) by {
      if r != [] { RStripPrefix(l); assert r[0] == l[0]; }
    }
    r
  }

  lemma {:induction false} RStripPrefix(s: string)
    ensures RStrip(s) == s[..|RStrip(s)|]
    decreases |s|
  {
    if s != [] && IsSpace(s[|s| - 1]) {
      RStripPrefix(s[..|s| - 1]);
    }
  }

  lemma {:induction false} StripStripped(s: string)
    requires IsStripped(s)
    ensures Strip(s) == s
  {
  }

  /** Stripping a stripped string followed by padding gives the string back. */
  lemma {:induction false} StripPadded(s: string, k: nat)
    requires IsStripped(s)
    ensures Strip(s + Spaces(k)) == s
  {
    var t := s + Spaces(k);
    if s == [] {
      assert t == Spaces(k);
      SpacesStripToEmpty(k);
    } else {
      assert t[0] == s[0];
      assert LStrip(t) == t;
      RStripPadded(s, k);
    }
  }

  lemma {:induction false} RStripPadded(s: string, k: nat)
    requires s == [] || !IsSpace(s[|s| - 1])
    ensures RStrip(s + Spaces(k)) == s
    decreases k
  {
    if k > 0 {
      var t := s + Spaces(k);
      assert Spaces(k) == Spaces(k - 1) + [' '];
      assert t == (s + Spaces(k - 1)) + [' '];
      assert t[..|t| - 1] == s + Spaces(k - 1);
      RStripPadded(s, k - 1);
    } else {
      assert s + Spaces(0) == s;
    }
  }

  lemma {:induction false} SpacesStripToEmpty(k: nat)
    ensures Strip(Spaces(k)) == []
    ensures LStrip(Spaces(k)) == []
    decreases k
  {
    RepeatChars(' ', k);
    AllSpacesLStrip(Spaces(k));
  }

  lemma {:induction false} AllSpacesLStrip(s: string)
    requires forall i :: 0 <= i < |s| ==> s[i] == ' '
    ensures LStrip(s) == []
    decreases |s|
  {
    if s != [] {
      AllSpacesLStrip(s[1..]);
    }
  }

  /** `str.rstrip(c)` for a single character `c`. */
  function RStripChar(s: string, c: char): (r: string)
    ensures |r| <= |s| && r == s[..|r|]
    ensures r == [] || r[|r| - 1] != c
    ensures forall i :: |r| <= i < |s| ==> s[i] == c
  {
    if s != [] && s[|s| - 1] == c then RStripChar(s[..|s| - 1], c) else s
  }

  // ---------------------------------------------------------------------
  // Cutting a concatenation back into its pieces

  lemma Cut2(a: string, b: string)
    ensures (a + b)[..|a|] == a && (a + b)[|a|..] == b
  {
  }

  lemma Cut5(a: string, b: string, c: string, d: string, e: string)
    ensures var l := a + b + c + d + e;
      var o2 := |a|; var o3 := o2 + |b|; var o4 := o3 + |c|; var o5 := o4 + |d|;
      && l[..o2] == a && l[o2..o3] == b && l[o3..o4] == c && l[o4..o5] == d && l[o5..] == e
  {
  }

  // ---------------------------------------------------------------------
  // Padding

  function Repeat(c: char, n: nat): (r: string)
    ensures |r| == n
  {
    if n == 0 then [] else Repeat(c, n - 1) + [c]
  }

  lemma {:induction false} RepeatChars(c: char, n: nat)
    ensures forall i :: 0 <= i < n ==> Repeat(c, n)[i] == c
  {
    if n > 0 {
      RepeatChars(c, n - 1);
    }
  }

  function Spaces(n: nat): (r: string)
    ensures |r| == n
  {
    Repeat(' ', n)
  }

  /** `s.ljust(n, fill)` and `f"{s:<n}"`: pad on the right, never cut. */
  function LJust(s: string, n: nat, fill: char): (r: string)
    ensures |r| == if |s| >= n then |s| else n
    ensures |s| >= n ==> r == s
  {
    if |s| >= n then s else s + Repeat(fill, n - |s|)
  }

  /** `s.rjust(n, fill)`: pad on the left, never cut. */
  function RJust(s: string, n: nat, fill: char): (r: string)
    ensures |r| == if |s| >= n then |s| else n
    ensures r != [] ==> r[|r| - 1] == if s != [] then s[|s| - 1] else fill
  {
    if |s| >= n then s
    else
      RepeatChars(fill, n - |s|);
      Repeat(fill, n - |s|) + s
  }

  /** `s.zfill(n)`: zeros are inserted after a leading sign, if any. */
  function ZFill(s: string, n: nat): (r: string)
    ensures |r| == if |s| >= n then |s| else n
    ensures (s == [] || (s[0] != '+' && s[0] != '-')) ==> r == RJust(s, n, '0')
    ensures |s| >= n ==> r == s
    ensures s != [] && !IsSpace(s[|s| - 1]) ==> !IsSpace(r[|r| - 1])
  {
    if s != [] && (s[0] == '+' || s[0] == '-') && |s| < n then
      [s[0]] + RJust(s[1..], n - 1, '0')
    else
      RJust(s, n, '0')
  }

  // ---------------------------------------------------------------------
  // Digits

  predicate IsDigit(c: char) {
    '0' <= c <= '9'
  }

  predicate AllDigits(s: string) {
    forall i :: 0 <= i < |s| ==> IsDigit(s[i])
  }

  /** Python's `str.isdigit()` on ASCII text: non-empty and all digits. */
  predicate IsDigitString(s: string) {
    |s| > 0 && AllDigits(s)
  }

  function Pow10(k: nat): (r: nat)
    ensures r >= 1
    ensures k > 0 ==> r >= 10
  {
    if k == 0 then 1 else 10 * Pow10(k - 1)
  }

  /** The powers of ten the record layouts use. */
  lemma Pow10Values()
    ensures Pow10(1) == 10 && Pow10(2) == 100 && Pow10(3) == 1000 && Pow10(4) == 10000
    ensures Pow10(5) == 100000 && Pow10(6) == 1000000
  {
  }

  lemma {:induction false} Pow10Add(a: nat, b: nat)
    ensures Pow10(a + b) == Pow10(a) * Pow10(b)
  {
    if a > 0 {
      Pow10Add(a - 1, b);
      var x := Pow10(a - 1);
      var y := Pow10(b);
      calc {
        Pow10(a + b);
        10 * Pow10(a - 1 + b);
        10 * (x * y);
        { MulAssoc(10, x, y); }
        (10 * x) * y;
      }
    }
  }

  lemma MulAssoc(a: int, b: int, c: int)
    ensures a * (b * c) == (a * b) * c
  {
  }

  lemma MulLe(a: int, b: int, c: nat)
    requires a <= b
    ensures a * c <= b * c
  {
  }

  /** Integer division and remainder written as functions, so that the
      digit functions are never unfolded on a division by a power of ten. */
  function Quot(a: nat, d: nat): nat
    requires d >= 1
  {
    a / d
  }

  function Rem(a: nat, d: nat): (r: nat)
    requires d >= 1
    ensures r < d
  {
    a % d
  }

  lemma QuotRem(a: nat, d: nat)
    requires d >= 1
    ensures a == Quot(a, d) * d + Rem(a, d)
  {
  }

  function DigitChar(d: nat): (c: char)
    requires d < 10
    ensures IsDigit(c) && c as int - '0' as int == d
  {
    ('0' as int + d) as char
  }

  function DigitValue(c: char): (d: nat)
    requires IsDigit(c)
    ensures d < 10 && DigitChar(d) == c
  {
    c as int - '0' as int
  }

  /** The number a string of decimal digits denotes (leading zeros allowed). */
  function DigitsValue(s: string): nat
    requires AllDigits(s)
  {
    if s == [] then 0 else 10 * DigitsValue(s[..|s| - 1]) + DigitValue(s[|s| - 1])
  }

  /** A string of k digits denotes a number below 10^k. */
  lemma {:induction false} DigitsValueBound(s: string)
    requires AllDigits(s)
    ensures DigitsValue(s) < Pow10(|s|)
  {
    if s != [] {
      DigitsValueBound(s[..|s| - 1]);
    }
  }

  /** `str(n)` for a natural number: its decimal digits, no leading zero. */
  function NatStr(n: nat): (r: string)
    ensures IsDigitString(r)
    ensures |r| == 1 || r[0] != '0'
  {
    if n < 10 then [DigitChar(n)] else NatStr(n / 10) + [DigitChar(n % 10)]
  }

  /** `str(i)` for any integer. */
  function IntStr(i: int): (r: string)
    ensures i >= 0 ==> r == NatStr(i)
    ensures i < 0 ==> r == "-" + NatStr(-i)
  {
    if i < 0 then "-" + NatStr(-i) else NatStr(i)
  }

  /** `str(n).rjust(w, "0")`, the same text as `f"{n:0{w}d}"` for n >= 0. */
  function ZeroPad(n: nat, w: nat): string {
    RJust(NatStr(n), w, '0')
  }

  /** A zero-padded number is a digit string denoting the number. */
  lemma ZeroPadValue(n: nat, w: nat)
    ensures AllDigits(ZeroPad(n, w)) && DigitsValue(ZeroPad(n, w)) == n
  {
    var s := NatStr(n);
    var r := RJust(s, w, '0');
    NatStrValue(n);
    LeadingZeros(s, |r| - |s|, r);
  }

  /** Zero padding to w >= 1 characters gives exactly w characters when,
      and only when, the number is below 10^w; it never gives fewer. */
  lemma ZeroPadLength(n: nat, w: nat)
    ensures |ZeroPad(n, w)| >= w
    ensures w > 0 ==> (|ZeroPad(n, w)| == w <==> n < Pow10(w))
  {
    NatStrLength(n, w);
  }

  lemma {:induction false} NatStrValue(n: nat)
    ensures DigitsValue(NatStr(n)) == n
  {
    if n >= 10 {
      var s := NatStr(n);
      assert s[..|s| - 1] == NatStr(n / 10);
      NatStrValue(n / 10);
    }
  }

  /** The number of digits of n is at most w (w >= 1) exactly when n < 10^w. */
  lemma {:induction false} NatStrLength(n: nat, w: nat)
    ensures w > 0 ==> (|NatStr(n)| <= w <==> n < Pow10(w))
    decreases w
  {
    if w > 1 && n >= 10 {
      NatStrLength(n / 10, w - 1);
    } else if w > 1 {
      assert Pow10(w) >= 10;
    } else if w == 1 && n >= 10 {
      assert |NatStr(n)| == |NatStr(n / 10)| + 1;
    }
  }

  lemma {:induction false} DigitsValueConcat(a: string, b: string)
    requires AllDigits(a) && AllDigits(b)
    ensures AllDigits(a + b)
    ensures DigitsValue(a + b) == DigitsValue(a) * Pow10(|b|) + DigitsValue(b)
    decreases |b|
  {
    var ab := a + b;
    if b != [] {
      var b' := b[..|b| - 1];
      assert ab[..|ab| - 1] == a + b';
      assert ab[|ab| - 1] == b[|b| - 1];
      DigitsValueConcat(a, b');
      ShiftStep(DigitsValue(a), Pow10(|b'|), DigitsValue(b'), DigitValue(b[|b| - 1]));
    } else {
      assert ab == a;
    }
  }

  lemma ShiftStep(x: nat, p: nat, y: nat, d: nat)
    ensures 10 * (x * p + y) + d == x * (10 * p) + (10 * y + d)
  {
  }

  lemma {:induction false} ZerosValue(k: nat)
    ensures AllDigits(Repeat('0', k)) && DigitsValue(Repeat('0', k)) == 0
    decreases k
  {
    if k > 0 {
      assert Repeat('0', k)[..k - 1] == Repeat('0', k - 1);
      ZerosValue(k - 1);
    }
  }

  /** Leading zeros do not change the value of a digit string. */
  lemma LeadingZeros(s: string, k: nat, r: string)
    requires AllDigits(s) && r == Repeat('0', k) + s
    ensures AllDigits(r) && DigitsValue(r) == DigitsValue(s)
  {
    ZerosValue(k);
    DigitsValueConcat(Repeat('0', k), s);
  }

  lemma {:induction false} ZeroValueAllZeros(s: string)
    requires AllDigits(s) && DigitsValue(s) == 0
    ensures s == Repeat('0', |s|)
  {
    if s != [] {
      ZeroValueAllZeros(s[..|s| - 1]);
    }
  }

  /** Zero-padding the value of a digit string to its own width gives it back:
      the identity behind `_format_numeric(cnpj, 14)` for a digit-only CNPJ. */
  lemma {:induction false} ZeroPadDigits(s: string)
    requires IsDigitString(s)
    ensures ZeroPad(DigitsValue(s), |s|) == s
  {
    var t := s[..|s| - 1];
    var c := s[|s| - 1];
    assert s == t + [c];
    if DigitsValue(t) == 0 {
      ZeroPadOneDigit(t, c);
    } else {
      ZeroPadDigits(t);
      ZeroPadNextDigit(t, c);
    }
  }

  lemma ZeroPadOneDigit(t: string, c: char)
    requires AllDigits(t) && DigitsValue(t) == 0 && IsDigit(c)
    ensures AllDigits(t + [c]) && ZeroPad(DigitsValue(t + [c]), |t| + 1) == t + [c]
  {
    LastDigit(t, c);
    var d := DigitValue(c);
    SingleDigit(d);
    ZeroValueAllZeros(t);
    PadSingle(t, c);
  }

  lemma LastDigit(t: string, c: char)
    requires AllDigits(t) && IsDigit(c)
    ensures AllDigits(t + [c]) && DigitsValue(t + [c]) == 10 * DigitsValue(t) + DigitValue(c)
  {
    var s := t + [c];
    assert s[..|s| - 1] == t;
  }

  lemma SingleDigit(d: nat)
    requires d < 10
    ensures NatStr(d) == [DigitChar(d)]
  {
  }

  lemma PadSingle(t: string, c: char)
    requires t == Repeat('0', |t|)
    ensures RJust([c], |t| + 1, '0') == t + [c]
  {
  }

  lemma ZeroPadNextDigit(t: string, c: char)
    requires AllDigits(t) && DigitsValue(t) > 0 && IsDigit(c)
    requires ZeroPad(DigitsValue(t), |t|) == t
    ensures AllDigits(t + [c]) && ZeroPad(DigitsValue(t + [c]), |t| + 1) == t + [c]
  {
    LastDigit(t, c);
    var m := DigitsValue(t);
    NatStrStep(m, DigitValue(c));
    RJustAppend(NatStr(m), |t|, c);
  }

  /** Writing one more digit d after m >= 1 is `str(10 * m + d)`. */
  lemma NatStrStep(m: nat, d: nat)
    requires m >= 1 && d < 10
    ensures NatStr(10 * m + d) == NatStr(m) + [DigitChar(d)]
  {
    var n := 10 * m + d;
    assert n / 10 == m && n % 10 == d;
  }

  lemma RJustAppend(x: string, w: nat, c: char)
    requires |x| <= w
    ensures RJust(x + [c], w + 1, '0') == RJust(x, w, '0') + [c]
  {
    if |x| < w {
      var z := Repeat('0', w - |x|);
      assert z + (x + [c]) == (z + x) + [c];
    }
  }

  // ---------------------------------------------------------------------
  // int(s)

  /** Python's `int(s)` on a string: surrounding whitespace is ignored, one
      optional sign, then one or more digits. None where `int()` raises. */
  function PyInt(s: string): (r: Option<int>)
    ensures IsDigitString(s) ==> r == Some(DigitsValue(s))
  {
    var t := Strip(s);
    if t != [] && (t[0] == '+' || t[0] == '-') then
      var body := t[1..];
      if IsDigitString(body) then
        var v: int := if t[0] == '-' then 0 - (DigitsValue(body) as int) else DigitsValue(body);
        Some(v)
      else None
    else if IsDigitString(t) then Some(DigitsValue(t))
    else None
  }

  // ---------------------------------------------------------------------
  // upper()

  /** `str.upper()` one character at a time: ASCII letters, and the two
      non-ASCII letters whose upper case is an ASCII letter (dotless i and
      long s). Every other character is kept; upper-casing it in Python never
      yields one of the ASCII state codes, so membership tests agree. */
  function UpperChar(c: char): char {
    if 'a' <= c <= 'z' then (c as int - 32) as char
    else if c == '\U{131}' then 'I'
    else if c == '\U{17f}' then 'S'
    else c
  }

  function Upper(s: string): (r: string)
    ensures |r| == |s|
    ensures forall i :: 0 <= i < |s| ==> r[i] == UpperChar(s[i])
  {
    if s == [] then [] else [UpperChar(s[0])] + Upper(s[1..])
  }

  // ---------------------------------------------------------------------
  // Slicing and splitting

  /** Python's `s[a:b]` for 0 <= a <= b: indices past the end are clipped. */
  function Slice(s: string, a: nat, b: nat): (r: string)
    requires a <= b
    ensures b <= |s| ==> r == s[a..b]
    ensures |r| <= b - a
  {
    if b <= |s| then s[a..b] else if a <= |s| then s[a..] else []
  }

  /** `s.split(sep)` for a one-character separator. */
  function Split(s: string, sep: char): (r: seq<string>)
    ensures |r| >= 1
    ensures forall i :: 0 <= i < |r| ==> sep !in r[i]
  {
    if s == [] then [""]
    else
      var rest := Split(s[1..], sep);
      if s[0] == sep then [""] + rest
      else [[s[0]] + rest[0]] + rest[1..]
  }

  /** A string without the separator splits into itself alone. */
  lemma {:induction false} SplitWhole(s: string, sep: char)
    requires sep !in s
    ensures Split(s, sep) == [s]
    decreases |s|
  {
    if s != [] {
      SplitWhole(s[1..], sep);
      assert [s[0]] + s[1..] == s;
    }
  }

  /** `split` of a string by its first character. */
  lemma SplitCons(c: char, t: string, sep: char)
    ensures Split([c] + t, sep) ==
      if c == sep then [""] + Split(t, sep) else [[c] + Split(t, sep)[0]] + Split(t, sep)[1..]
  {
    assert ([c] + t)[1..] == t;
  }

  /** Extending the first piece of a list of pieces commutes with
      appending more pieces. */
  lemma ExtendFirst(c: string, r: seq<string>, more: seq<string>)
    requires |r| >= 1
    ensures [c + (r + more)[0]] + (r + more)[1..] == ([c + r[0]] + r[1..]) + more
  {
    assert (r + more)[0] == r[0];
    assert (r + more)[1..] == r[1..] + more;
  }

  /** One step of `SplitAround`: a first character that is not the
      separator joins the first piece on both sides. */
  lemma SplitAroundStep(c: char, t: string, sep: char, b: string)
    requires c != sep
    requires Split(t + [sep] + b, sep) == Split(t, sep) + Split(b, sep)
    ensures Split([c] + (t + [sep] + b), sep) == Split([c] + t, sep) + Split(b, sep)
  {
    SplitCons(c, t + [sep] + b, sep);
    SplitCons(c, t, sep);
    ExtendFirst([c], Split(t, sep), Split(b, sep));
  }

  /** Splitting at one separator first and then splitting each side gives
      the same pieces. */
  lemma {:induction false} SplitAround(a: string, sep: char, b: string)
    ensures Split(a + [sep] + b, sep) == Split(a, sep) + Split(b, sep)
    decreases |a|
  {
    if a == [] {
      assert a + [sep] + b == [sep] + b;
      SplitCons(sep, b, sep);
    } else {
      var t := a[1..];
      assert a == [a[0]] + t;
      assert a + [sep] + b == [a[0]] + (t + [sep] + b);
      SplitAround(t, sep, b);
      if a[0] == sep {
        SplitCons(sep, t + [sep] + b, sep);
        SplitCons(sep, t, sep);
      } else {
        SplitAroundStep(a[0], t, sep, b);
      }
    }
  }

  /** `strip()` of a stripped line followed by CR LF gives the line back. */
  lemma StripLineEnd(s: string)
    requires s != [] && IsStripped(s)
    ensures Strip(s + "\r\n") == s
  {
    var t := s + "\r\n";
    assert t[0] == s[0];
    assert LStrip(t) == t;
    assert t[..|t| - 1] == s + "\r";
    assert (s + "\r")[..|s|] == s;
    assert RStrip(t) == RStrip(s + "\r") == RStrip(s) == s;
  }
}
