/**
 * The string operations the console uses — `trim`, `toLowerCase`,
 * `toUpperCase`, `includes`, `startsWith`, `padStart`, `Number(...)` and
 * `toString()` on whole numbers — over `seq<char>`. Case mapping is ASCII only.
 */
module Text {
  import opened Wrappers

  /**
   * The characters that `trim()` strips and that `\s` matches: the WhiteSpace
   * and LineTerminator code points of the language (TAB, LF, VT, FF, CR,
   * space, NBSP, the Zs separators, LS, PS and the byte-order mark).
   */
  predicate IsSpace(c: char) {
    var n := c as int;
    || n == 0x09 || n == 0x0A || n == 0x0B || n == 0x0C || n == 0x0D || n == 0x20
    || n == 0xA0 || n == 0x1680 || (0x2000 <= n <= 0x200A) || n == 0x2028 || n == 0x2029
    || n == 0x202F || n == 0x205F || n == 0x3000 || n == 0xFEFF
  }

  predicate IsDigit(c: char) {
    '0' <= c <= '9'
  }

  predicate AllDigits(s: string) {
    forall i :: 0 <= i < |s| ==> IsDigit(s[i])
  }

  function ToLowerChar(c: char): char {
    if 'A' <= c <= 'Z' then (c as int + 32) as char else c
  }

  function ToUpperChar(c: char): char {
    if 'a' <= c <= 'z' then (c as int - 32) as char else c
  }

  /** `toLowerCase()` on ASCII letters; every other character is kept. */
  function ToLower(s: string): (r: string)
    ensures |r| == |s|
    ensures forall i :: 0 <= i < |s| ==> r[i] == ToLowerChar(s[i])
  {
    seq(|s|, i requires 0 <= i < |s| => ToLowerChar(s[i]))
  }

  /** `s.startsWith(prefix)`. */
  predicate StartsWith(s: string, prefix: string) {
    |prefix| <= |s| && s[..|prefix|] == prefix
  }

  /** `s.includes(sub)`: `sub` occurs somewhere in `s` (the empty string occurs everywhere). */
  predicate Includes(s: string, sub: string)
    decreases |s|
  {
    StartsWith(s, sub) || (|s| > 0 && Includes(s[1..], sub))
  }

  /** How many white-space characters `s` starts with. */
  function LeadingSpaces(s: string): (n: nat)
    ensures n <= |s|
    ensures forall k :: 0 <= k < n ==> IsSpace(s[k])
    ensures n < |s| ==> !IsSpace(s[n])
    decreases |s|
  {
    if |s| > 0 && IsSpace(s[0]) then 1 + LeadingSpaces(s[1..]) else 0
  }

  /** How many white-space characters `s` ends with. */
  function TrailingSpaces(s: string): (n: nat)
    ensures n <= |s|
    ensures forall k :: |s| - n <= k < |s| ==> IsSpace(s[k])
    ensures n < |s| ==> !IsSpace(s[|s| - 1 - n])
    decreases |s|
  {
    if |s| > 0 && IsSpace(s[|s| - 1]) then 1 + TrailingSpaces(s[..|s| - 1]) else 0
  }

  /**
   * `trim()`: the slice of `s` starting at its first non-space character and
   * ending at its last one; only white space was removed on either side.
   */
  function Trim(s: string): (r: string)
    ensures |r| <= |s| - LeadingSpaces(s)
    ensures r == s[LeadingSpaces(s)..LeadingSpaces(s) + |r|]
    ensures forall k :: LeadingSpaces(s) + |r| <= k < |s| ==> IsSpace(s[k])
    ensures |r| > 0 ==> !IsSpace(r[0]) && !IsSpace(r[|r| - 1])
  {
    var rest := s[LeadingSpaces(s)..];
    var r := rest[..|rest| - TrailingSpaces(rest)];
    assert |r| > 0 ==> r[0] == rest[0];
    r
  }

  /** A string of white space only trims to the empty string. */
  lemma TrimAllSpace(s: string)
    requires forall i :: 0 <= i < |s| ==> IsSpace(s[i])
    ensures Trim(s) == ""
  {
  }

  /** A string without white space at either end is its own trim. */
  lemma TrimUntouched(s: string)
    requires |s| > 0 ==> !IsSpace(s[0]) && !IsSpace(s[|s| - 1])
    ensures Trim(s) == s
  {
  }

  function DigitValue(c: char): nat
    requires IsDigit(c)
  {
    c as int - '0' as int
  }

  function DigitChar(d: nat): (c: char)
    requires d < 10
    ensures IsDigit(c) && DigitValue(c) == d
  {
    ('0' as int + d) as char
  }

  /** The value of a string of decimal digits, read left to right. */
  function DigitsValue(s: string): nat
    requires AllDigits(s)
  {
    if |s| == 0 then 0 else DigitsValue(s[..|s| - 1]) * 10 + DigitValue(s[|s| - 1])
  }

  /** `n.toString()` for a whole number `n >= 0`: its shortest decimal digits. */
  function Decimal(n: nat): (r: string)
    ensures |r| > 0 && AllDigits(r)
    ensures |r| > 1 ==> r[0] != '0'
  {
    if n < 10 then [DigitChar(n)] else Decimal(n / 10) + [DigitChar(n % 10)]
  }

  /** Reading back the decimal digits of `n` gives `n`. */
  lemma {:induction false} DecimalValue(n: nat)
    ensures DigitsValue(Decimal(n)) == n
  {
    if n >= 10 {
      DecimalValue(n / 10);
      var r := Decimal(n);
      assert r[..|r| - 1] == Decimal(n / 10);
    }
  }

  /** A leading zero does not change the value of a digit string. */
  lemma {:induction false} LeadingZeroValue(s: string)
    requires AllDigits(s)
    ensures AllDigits(['0'] + s) && DigitsValue(['0'] + s) == DigitsValue(s)
  {
    if |s| > 0 {
      LeadingZeroValue(s[..|s| - 1]);
      assert (['0'] + s)[..|s|] == ['0'] + s[..|s| - 1];
    }
  }

  /** `n` zero digits. */
  function Zeros(n: nat): (r: string)
    ensures |r| == n && forall i :: 0 <= i < n ==> r[i] == '0'
  {
    seq(n, _ => '0')
  }

  /** `s.padStart(width, '0')`. */
  function PadZeros(s: string, width: nat): (r: string)
    ensures |r| == if |s| < width then width else |s|
    ensures r[|r| - |s|..] == s
    ensures forall i :: 0 <= i < |r| - |s| ==> r[i] == '0'
  {
    if |s| < width then Zeros(width - |s|) + s else s
  }

  /** Leading zeros do not change the value of a digit string. */
  lemma {:induction false} ZerosValue(n: nat, s: string)
    requires AllDigits(s)
    ensures AllDigits(Zeros(n) + s) && DigitsValue(Zeros(n) + s) == DigitsValue(s)
  {
    if n > 0 {
      ZerosValue(n - 1, s);
      LeadingZeroValue(Zeros(n - 1) + s);
      assert Zeros(n) + s == ['0'] + (Zeros(n - 1) + s);
    } else {
      assert Zeros(n) + s == s;
    }
  }

  /** Zero padding does not change the value of a digit string. */
  lemma PadZerosValue(s: string, width: nat)
    requires AllDigits(s)
    ensures AllDigits(PadZeros(s, width)) && DigitsValue(PadZeros(s, width)) == DigitsValue(s)
  {
    if |s| < width {
      ZerosValue(width - |s|, s);
    }
  }

  /** The position of the first `c` in `s`, or `|s|` when there is none. */
  function IndexOf(s: string, c: char): (r: nat)
    ensures r <= |s|
    ensures forall k :: 0 <= k < r ==> s[k] != c
    ensures r < |s| ==> s[r] == c
  {
    if |s| == 0 || s[0] == c then 0 else 1 + IndexOf(s[1..], c)
  }

  function Pow10(n: nat): (r: nat)
    ensures r >= 1
  {
    if n == 0 then 1 else 10 * Pow10(n - 1)
  }

  /** The value of a whole part and a fraction part written in decimal digits. */
  function PointValue(whole: string, frac: string): (r: real)
    requires AllDigits(whole) && AllDigits(frac)
    ensures r >= 0.0
  {
    DigitsValue(whole) as real + DigitsValue(frac) as real / Pow10(|frac|) as real
  }

  /**
   * Unsigned decimal text: digits, optionally followed by `.` and more
   * digits, with at least one digit in all (`5`, `5.`, `.5`, `1.25`).
   */
  function UnsignedDecimal(t: string): (r: Option<real>)
    ensures r.Some? ==> r.value >= 0.0
    ensures r.Some? ==> exists k :: 0 <= k < |t| && IsDigit(t[k])
  {
    var k := IndexOf(t, '.');
    var whole := t[..k];
    var frac := if k < |t| then t[k + 1..] else "";
    if AllDigits(whole) && AllDigits(frac) && |whole| + |frac| > 0 then
      assert |whole| > 0 ==> t[0] == whole[0];
      assert |whole| == 0 ==> t[k + 1] == frac[0];
      Some(PointValue(whole, frac))
    else None
  }

  /**
   * `Number(s)` on decimal text: after trimming, the empty string is 0, and an
   * optionally signed unsigned decimal is its value; anything else is `NaN`
   * (written `None`). Exponents, `0x` forms and `Infinity` are not modelled.
   */
  function ParseNumber(s: string): (r: Option<real>)
    ensures Trim(s) == "" ==> r == Some(0.0)
    ensures r.Some? && Trim(s) != "" ==> exists k :: 0 <= k < |Trim(s)| && IsDigit(Trim(s)[k])
    ensures r.Some? && r.value < 0.0 ==> Trim(s)[0] == '-'
  {
    var t := Trim(s);
    if |t| == 0 then Some(0.0)
    else if t[0] == '-' || t[0] == '+' then
      match UnsignedDecimal(t[1..])
      case None => None
      case Some(v) =>
        assert forall k :: 0 <= k < |t[1..]| ==> t[1..][k] == t[k + 1];
        Some(if t[0] == '-' then -v else v)
    else UnsignedDecimal(t)
  }

  /** Digits and the decimal point are not white space. */
  lemma DecimalCharNotSpace(c: char)
    requires IsDigit(c) || c == '.'
    ensures !IsSpace(c)
  {
  }

  /** Behind a run of digits, the first `.` is the one that ends the run. */
  lemma {:induction false} IndexOfDotAfterDigits(w: string, rest: string)
    requires AllDigits(w) && |rest| > 0 && rest[0] == '.'
    ensures IndexOf(w + rest, '.') == |w|
    decreases |w|
  {
    if |w| > 0 {
      assert (w + rest)[1..] == w[1..] + rest;
      IndexOfDotAfterDigits(w[1..], rest);
    }
  }

  /** Text of digits, one `.` and digits has no white space at either end. */
  lemma DecimalTextTrimmed(w: string, f: string)
    requires AllDigits(w) && AllDigits(f)
    ensures Trim(w + "." + f) == w + "." + f
  {
    var t := w + "." + f;
    var first, last := t[0], t[|t| - 1];
    assert IsDigit(first) || first == '.';
    assert IsDigit(last) || last == '.';
    DecimalCharNotSpace(first);
    DecimalCharNotSpace(last);
    TrimUntouched(t);
  }

  /** In text of digits, one `.` and digits, the first `.` is that one. */
  lemma DecimalTextDot(w: string, f: string)
    requires AllDigits(w) && AllDigits(f)
    ensures IndexOf(w + "." + f, '.') == |w|
  {
    assert w + "." + f == w + ("." + f);
    IndexOfDotAfterDigits(w, "." + f);
  }

  /** Trimmed text that starts with a digit or `.` carries no sign, so `Number` reads it unsigned. */
  lemma ParseUnsigned(t: string)
    requires |t| > 0 && Trim(t) == t && (IsDigit(t[0]) || t[0] == '.')
    ensures ParseNumber(t) == UnsignedDecimal(t)
  {
  }

  /** The unsigned value of digits, a dot and digits. */
  lemma UnsignedOfParts(w: string, f: string)
    requires AllDigits(w) && AllDigits(f) && |w| + |f| > 0
    requires IndexOf(w + "." + f, '.') == |w|
    ensures UnsignedDecimal(w + "." + f) == Some(PointValue(w, f))
  {
    var t := w + "." + f;
    assert t[..|w|] == w && t[|w| + 1..] == f;
  }

  /**
   * `Number` of digits, a dot and digits (either run may be empty, not both)
   * is the whole part plus the fraction: `Number("5.")` is 5 and
   * `Number("1.5")` is 1.5.
   */
  lemma ParseFraction(w: string, f: string)
    requires AllDigits(w) && AllDigits(f) && |w| + |f| > 0
    ensures ParseNumber(w + "." + f) == Some(PointValue(w, f))
  {
    var t := w + "." + f;
    DecimalTextTrimmed(w, f);
    DecimalTextDot(w, f);
    assert IsDigit(t[0]) || t[0] == '.';
    ParseUnsigned(t);
    UnsignedOfParts(w, f);
  }

  /** `Number` of a non-empty digit string is its decimal value. */
  lemma ParseDigits(d: string)
    requires |d| > 0 && AllDigits(d)
    ensures ParseNumber(d) == Some(DigitsValue(d) as real)
  {
    DecimalCharNotSpace(d[0]);
    DecimalCharNotSpace(d[|d| - 1]);
    TrimUntouched(d);
    ParseUnsigned(d);
    assert IndexOf(d, '.') < |d| ==> IsDigit(d[IndexOf(d, '.')]);
    assert d[..|d|] == d;
  }

  /** `Number` reads back what `toString()` wrote, also after zero padding. */
  lemma ParsePaddedDecimal(n: nat, width: nat)
    ensures ParseNumber(PadZeros(Decimal(n), width)) == Some(n as real)
  {
    DecimalValue(n);
    PadZerosValue(Decimal(n), width);
    ParseDigits(PadZeros(Decimal(n), width));
  }

  /** ASCII upper case of the first character, or "" for the empty string: `s[0]?.toUpperCase() ?? ''`. */
  function FirstUpper(s: string): (r: string)
    ensures |r| == if |s| == 0 then 0 else 1
    ensures |s| > 0 ==> r[0] == ToUpperChar(s[0])
  {
    if |s| == 0 then "" else [ToUpperChar(s[0])]
  }
}
