/**
 * The few JavaScript built-ins the modelled code leans on: truthiness,
 * the `<` operator on strings (by UTF-16 code units), `Number.prototype.toString` and `parseFloat`
 * on integers, and `Date` construction with its time-value clipping.
 */
module JsBuiltins {
  import opened Wrappers

  // ---------------------------------------------------------------------
  // Truthiness
  // ---------------------------------------------------------------------

  /** A string-or-null value is truthy exactly when it is present and not empty. */
  predicate Truthy(s: Option<string>) {
    s.Some? && s.value != ""
  }

  /** A number-or-undefined value is truthy exactly when it is present and non-zero. */
  predicate TruthyNumber(n: Option<int>) {
    n.Some? && n.value != 0
  }

  // ---------------------------------------------------------------------
  // String comparison: `a < b` compares the strings' UTF-16 code units
  // one by one, so a character above U+FFFF sorts by its high surrogate
  // ---------------------------------------------------------------------

  /** The UTF-16 code units of one character: itself below U+10000, a surrogate pair above. */
  function CodeUnits(c: char): (u: seq<int>)
    ensures |u| == 1 <==> c as int < 0x1_0000
    ensures |u| == 1 ==> u[0] == c as int && !(0xD800 <= u[0] < 0xE000)
    ensures |u| != 1 ==> |u| == 2 && 0xD800 <= u[0] < 0xDC00 && 0xDC00 <= u[1] < 0xE000
  {
    var v := c as int;
    if v < 0x1_0000 then [v]
    else [0xD800 + (v - 0x1_0000) / 0x400, 0xDC00 + (v - 0x1_0000) % 0x400]
  }

  /** Distinct characters have distinct code units. */
  lemma CodeUnitsInjective(c: char, d: char)
    requires CodeUnits(c) == CodeUnits(d)
    ensures c == d
  {
    var v, w := c as int, d as int;
    if v >= 0x1_0000 {
      assert w >= 0x1_0000;
      var q, r := (v - 0x1_0000) / 0x400, (v - 0x1_0000) % 0x400;
      var q', r' := (w - 0x1_0000) / 0x400, (w - 0x1_0000) % 0x400;
      assert q == q' && r == r';
      assert v == 0x1_0000 + q * 0x400 + r && w == 0x1_0000 + q' * 0x400 + r';
    }
  }

  /** The UTF-16 encoding of a string, as JavaScript holds it. */
  function Utf16(s: string): (u: seq<int>)
    ensures s != [] ==> u != [] && u[0] == CodeUnits(s[0])[0]
    decreases |s|
  {
    if s == [] then [] else CodeUnits(s[0]) + Utf16(s[1..])
  }

  /** Different strings have different encodings. */
  lemma {:induction false} Utf16Injective(a: string, b: string)
    requires Utf16(a) == Utf16(b)
    ensures a == b
    decreases |a|
  {
    if a != [] {
      assert b != [];
      var ua, ub := CodeUnits(a[0]), CodeUnits(b[0]);
      assert |ua| == |ub| by {
        assert ua[0] == ub[0];
      }
      var k := |ua|;
      assert Utf16(a)[..k] == ua && Utf16(b)[..k] == ub;
      CodeUnitsInjective(a[0], b[0]);
      assert Utf16(a)[k..] == Utf16(a[1..]) && Utf16(b)[k..] == Utf16(b[1..]);
      Utf16Injective(a[1..], b[1..]);
      assert a == [a[0]] + a[1..] && b == [b[0]] + b[1..];
    }
  }

  /** Lexicographic order on code-unit sequences: a proper prefix comes first. */
  predicate UnitsLess(a: seq<int>, b: seq<int>)
    decreases |a|
  {
    if a == [] then b != []
    else if b == [] then false
    else if a[0] != b[0] then a[0] < b[0]
    else UnitsLess(a[1..], b[1..])
  }

  lemma {:induction false} UnitsLessIrreflexive(a: seq<int>)
    ensures !UnitsLess(a, a)
    decreases |a|
  {
    if a != [] {
      UnitsLessIrreflexive(a[1..]);
    }
  }

  lemma {:induction false} UnitsLessAsymmetric(a: seq<int>, b: seq<int>)
    requires UnitsLess(a, b)
    ensures !UnitsLess(b, a)
    decreases |a|
  {
    if a != [] && b != [] && a[0] == b[0] {
      UnitsLessAsymmetric(a[1..], b[1..]);
    }
  }

  lemma {:induction false} UnitsLessTransitive(a: seq<int>, b: seq<int>, c: seq<int>)
    requires UnitsLess(a, b) && UnitsLess(b, c)
    ensures UnitsLess(a, c)
    decreases |a|
  {
    if a != [] && a[0] == b[0] && b[0] == c[0] {
      UnitsLessTransitive(a[1..], b[1..], c[1..]);
    }
  }

  lemma {:induction false} UnitsLessTotal(a: seq<int>, b: seq<int>)
    ensures a == b || UnitsLess(a, b) || UnitsLess(b, a)
    decreases |a|
  {
    if a != [] && b != [] && a[0] == b[0] {
      UnitsLessTotal(a[1..], b[1..]);
      if a[1..] == b[1..] {
        assert a == [a[0]] + a[1..] && b == [b[0]] + b[1..];
      }
    }
  }

  /** JavaScript's `a < b` on strings. */
  predicate StringLess(a: string, b: string) {
    UnitsLess(Utf16(a), Utf16(b))
  }

  lemma StringLessIrreflexive(a: string)
    ensures !StringLess(a, a)
  {
    UnitsLessIrreflexive(Utf16(a));
  }

  lemma StringLessAsymmetric(a: string, b: string)
    requires StringLess(a, b)
    ensures !StringLess(b, a)
  {
    UnitsLessAsymmetric(Utf16(a), Utf16(b));
  }

  lemma StringLessTransitive(a: string, b: string, c: string)
    requires StringLess(a, b) && StringLess(b, c)
    ensures StringLess(a, c)
  {
    UnitsLessTransitive(Utf16(a), Utf16(b), Utf16(c));
  }

  /** Two strings are equal or one is less than the other. */
  lemma StringLessTotal(a: string, b: string)
    ensures a == b || StringLess(a, b) || StringLess(b, a)
  {
    UnitsLessTotal(Utf16(a), Utf16(b));
    if Utf16(a) == Utf16(b) {
      Utf16Injective(a, b);
    }
  }

  /**
   * Code units, not code points: U+1F600 (high surrogate 0xD83D) sorts
   * before U+FF21 although its code point is larger.
   */
  lemma AstralCharSortsBySurrogate()
    ensures StringLess("\U{1F600}", "\U{FF21}") && !StringLess("\U{FF21}", "\U{1F600}")
  {
    assert Utf16("\U{1F600}") == [0xD83D, 0xDE00];
    assert Utf16("\U{FF21}") == [0xFF21];
  }

  // ---------------------------------------------------------------------
  // Decimal notation of integers
  // ---------------------------------------------------------------------

  predicate IsDigit(c: char) {
    '0' <= c <= '9'
  }

  predicate AllDigits(s: string) {
    forall i :: 0 <= i < |s| ==> IsDigit(s[i])
  }

  function DigitValue(c: char): (d: nat)
    requires IsDigit(c)
    ensures d < 10
  {
    c as int - '0' as int
  }

  function DigitChar(d: nat): (c: char)
    requires d < 10
    ensures IsDigit(c) && DigitValue(c) == d
  {
    ('0' as int + d) as char
  }

  /** The decimal digits of `n`, most significant first, without leading zeros. */
  function NatToString(n: nat): (s: string)
    ensures s != [] && AllDigits(s)
    decreases n
  {
    if n < 10 then [DigitChar(n)] else NatToString(n / 10) + [DigitChar(n % 10)]
  }

  /** The number a string of decimal digits denotes. */
  function DigitsValue(s: string): nat
    requires AllDigits(s)
    decreases |s|
  {
    if s == [] then 0 else DigitsValue(s[..|s| - 1]) * 10 + DigitValue(s[|s| - 1])
  }

  lemma {:induction false} DigitsValueOfNatToString(n: nat)
    ensures DigitsValue(NatToString(n)) == n
    decreases n
  {
    if n >= 10 {
      var s := NatToString(n);
      assert s[..|s| - 1] == NatToString(n / 10);
      DigitsValueOfNatToString(n / 10);
    }
  }

  /** `n.toString()` for an integral number (no exponent below 10^21). */
  function NumberToString(n: int): string {
    if n < 0 then "-" + NatToString(-n) else NatToString(n)
  }

  /** The longest prefix of `s` made of decimal digits. */
  function LeadingDigits(s: string): (d: string)
    ensures d <= s && AllDigits(d)
    ensures |d| < |s| ==> !IsDigit(s[|d|])
    decreases |s|
  {
    if s != [] && IsDigit(s[0]) then [s[0]] + LeadingDigits(s[1..]) else []
  }

  lemma {:induction false} LeadingDigitsOfDigits(s: string)
    requires AllDigits(s)
    ensures LeadingDigits(s) == s
    decreases |s|
  {
    if s != [] {
      LeadingDigitsOfDigits(s[1..]);
    }
  }

  /**
   * `parseFloat(s)` on the integer part of a decimal numeral: an optional
   * sign followed by digits, read up to the first non-digit (a fraction is
   * dropped, which is also what `new Date` does to it). `None` is NaN.
   */
  function ParseFloat(s: string): Option<int> {
    var negative := s != [] && s[0] == '-';
    var body := if s != [] && (s[0] == '-' || s[0] == '+') then s[1..] else s;
    var digits := LeadingDigits(body);
    if digits == [] then None
    else
      var magnitude: int := DigitsValue(digits);
      Some(if negative then -magnitude else magnitude)
  }

  /** `parseFloat(n.toString())` gives back the integer `n`. */
  lemma NumberStringRoundTrip(n: int)
    ensures ParseFloat(NumberToString(n)) == Some(n)
  {
    var m: nat := if n < 0 then -n else n;
    var digits := NatToString(m);
    LeadingDigitsOfDigits(digits);
    DigitsValueOfNatToString(m);
    if n < 0 {
      assert NumberToString(n)[1..] == digits;
    } else {
      assert NumberToString(n)[0] != '-' by {
        assert IsDigit(digits[0]);
      }
    }
  }

  /**
   * `Number(s)` on a string, for integral decimal numerals: the empty
   * string is 0, an optional sign followed by digits is their value, and
   * anything else is NaN (`None`).
   */
  function StringToNumber(s: string): (n: Option<int>)
    ensures s == "" ==> n == Some(0)
    ensures s != "" && !IsDigit(s[0]) && s[0] != '-' && s[0] != '+' ==> n == None
  {
    if s == [] then Some(0)
    else
      var negative := s[0] == '-';
      var body := if s[0] == '-' || s[0] == '+' then s[1..] else s;
      if body != [] && AllDigits(body) then
        var magnitude: int := DigitsValue(body);
        Some(if negative then -magnitude else magnitude)
      else None
  }

  /** `Number(n.toString())` gives back the integer `n`. */
  lemma NumberOfNumberString(n: int)
    ensures StringToNumber(NumberToString(n)) == Some(n)
  {
    var m: nat := if n < 0 then -n else n;
    DigitsValueOfNatToString(m);
    if n < 0 {
      assert NumberToString(n)[1..] == NatToString(m);
    } else {
      assert IsDigit(NatToString(m)[0]);
    }
  }

  // ---------------------------------------------------------------------
  // Date
  // ---------------------------------------------------------------------

  /** The largest magnitude of a valid time value, in milliseconds (8.64e15). */
  const MaxTimeMs: int := 8_640_000_000_000_000

  type TimeValue = t: int | -MaxTimeMs <= t <= MaxTimeMs

  /** A `Date` object: a valid time value in milliseconds, or an Invalid Date (NaN). */
  datatype JsDate = DateAt(ms: TimeValue) | InvalidDate

  /** `new Date(x)` for a number `x` (`None` is NaN): out-of-range values give an Invalid Date. */
  function NewDate(x: Option<int>): JsDate {
    if x.Some? && -MaxTimeMs <= x.value <= MaxTimeMs then DateAt(x.value) else InvalidDate
  }

  /** `d.getTime().toString()`: the decimal time value, or "NaN". */
  function DateToString(d: JsDate): string {
    match d
    case DateAt(ms) => NumberToString(ms)
    case InvalidDate => "NaN"
  }

  /** `new Date(parseFloat(d.getTime().toString()))` is `d` again, and the string is never empty. */
  lemma DateStringRoundTrip(d: JsDate)
    ensures DateToString(d) != ""
    ensures NewDate(ParseFloat(DateToString(d))) == d
  {
    if d.DateAt? {
      NumberStringRoundTrip(d.ms);
    }
  }
}
