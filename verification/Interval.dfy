/** Interval strings such as "5s" or "24h" (util/time.go). */
module Interval {
  import opened Basics
  import opened Text

  const SECOND: int := 1_000_000_000
  const MINUTE: int := 60 * SECOND
  const HOUR: int := 60 * MINUTE

  /** The table of unit names, in lower case. */
  function UnitOf(name: string): (r: Option<int>)
    ensures r.Some? ==> name != "" && AllLetters(name)
  {
    if name == "s" || name == "sec" || name == "seconds" then Some(SECOND)
    else if name == "m" || name == "min" || name == "minutes" then Some(MINUTE)
    else if name == "h" || name == "hours" then Some(HOUR)
    else None
  }

  predicate AllLetters(s: string) { forall i :: 0 <= i < |s| ==> 'a' <= s[i] <= 'z' }

  predicate IsDigit(c: char) { '0' <= c <= '9' }

  function DigitValue(c: char): nat
    requires IsDigit(c)
  {
    c as int - '0' as int
  }

  predicate AllDigits(s: string) { forall i :: 0 <= i < |s| ==> IsDigit(s[i]) }

  function DigitPrefix(s: string): (n: nat)
    ensures n <= |s| && AllDigits(s[..n]) && (n < |s| ==> !IsDigit(s[n]))
  {
    if s == "" || !IsDigit(s[0]) then 0
    else
      var n := 1 + DigitPrefix(s[1..]);
      assert s[..n] == [s[0]] + s[1..][..n - 1];
      n
  }

  function SignLength(s: string): (n: nat)
    ensures n <= |s|
  {
    if s != "" && (s[0] == '+' || s[0] == '-') then 1 else 0
  }

  /** The number a digit string denotes. */
  function Decimal(digits: string): nat
    requires AllDigits(digits)
  {
    if digits == "" then 0
    else Decimal(digits[..|digits| - 1]) * 10 + DigitValue(digits[|digits| - 1])
  }

  /** strconv.ParseInt(_, 10, 32) with its error ignored: out-of-range numbers
      come back as the nearest 32-bit bound. */
  function ParseInt32(sign: string, digits: string): (v: int)
    requires AllDigits(digits)
    ensures INT32_MIN <= v <= INT32_MAX
  {
    var n: int := Decimal(digits);
    var v := if sign == "-" then -n else n;
    if v < INT32_MIN then INT32_MIN else if v > INT32_MAX then INT32_MAX else v
  }

  /** ParseInterval; None stands for errInvalidIntervalFormat. */
  function ParseInterval(text: string): Option<int> {
    var s := TrimSpace(text);
    var i := SignLength(s);
    var n := DigitPrefix(s[i..]);
    var unit := UnitOf(Lower(s[i + n..]));
    if n == 0 || unit.None? then None
    else Some(Wrap64(unit.value * ParseInt32(s[..i], s[i..][..n])))
  }

  /** The shape the regular expression asks for. */
  ghost predicate Shape(s: string, sign: string, digits: string, unit: string) {
    && s == sign + digits + unit
    && (sign == "" || sign == "+" || sign == "-")
    && digits != "" && AllDigits(digits)
    && UnitOf(Lower(unit)).Some?
  }

  lemma UnitStartsWithLetter(unit: string)
    requires UnitOf(Lower(unit)).Some?
    ensures unit != "" && !IsDigit(unit[0])
  {
    assert Lower(unit)[0] == LowerChar(unit[0]);
  }

  lemma DigitPrefixIs(s: string, n: nat)
    requires n < |s| && AllDigits(s[..n]) && !IsDigit(s[n])
    ensures DigitPrefix(s) == n
  {
    if n > 0 {
      assert s[..n][0] == s[0];
      DigitPrefixIs(s[1..], n - 1);
    }
  }

  lemma SplitAtLetter(digits: string, unit: string)
    requires AllDigits(digits) && unit != "" && !IsDigit(unit[0])
    ensures DigitPrefix(digits + unit) == |digits|
  {
    var s := digits + unit;
    assert s[..|digits|] == digits && s[|digits|] == unit[0];
    DigitPrefixIs(s, |digits|);
  }

  /** A string has at most one decomposition of that shape, and the scanner
      finds it. */
  lemma ScanShape(s: string, sign: string, digits: string, unit: string)
    requires Shape(s, sign, digits, unit)
    ensures SignLength(s) == |sign|
    ensures DigitPrefix(s[|sign|..]) == |digits|
    ensures s[..|sign|] == sign && s[|sign|..][..|digits|] == digits && s[|sign| + |digits|..] == unit
  {
    UnitStartsWithLetter(unit);
    ScanParts(s, sign, digits, unit);
  }

  lemma ScanParts(s: string, sign: string, digits: string, unit: string)
    requires s == sign + digits + unit
    requires sign == "" || sign == "+" || sign == "-"
    requires digits != "" && AllDigits(digits) && unit != "" && !IsDigit(unit[0])
    ensures SignLength(s) == |sign|
    ensures DigitPrefix(s[|sign|..]) == |digits|
    ensures s[..|sign|] == sign && s[|sign|..][..|digits|] == digits && s[|sign| + |digits|..] == unit
  {
    assert s[|sign|..] == digits + unit;
    SplitAtLetter(digits, unit);
    assert IsDigit(digits[0]) && s[|sign|] == digits[0];
    assert sign != "" ==> s[0] == sign[0];
  }

  lemma ParseShape(text: string, sign: string, digits: string, unit: string)
    requires Shape(TrimSpace(text), sign, digits, unit)
    ensures ParseInterval(text) == Some(Wrap64(UnitOf(Lower(unit)).value * ParseInt32(sign, digits)))
  {
    ScanShape(TrimSpace(text), sign, digits, unit);
  }

  /** Which strings are intervals, and which duration each denotes: the unit
      times the number saturated to 32 bits, wrapped to 64 bits. */
  lemma ParseIntervalMeaning(text: string)
    ensures ParseInterval(text).Some? <==>
            exists sign, digits, unit :: Shape(TrimSpace(text), sign, digits, unit)
    ensures forall sign, digits, unit :: Shape(TrimSpace(text), sign, digits, unit) ==>
              ParseInterval(text) == Some(Wrap64(UnitOf(Lower(unit)).value * ParseInt32(sign, digits)))
  {
    var s := TrimSpace(text);
    forall sign, digits, unit | Shape(s, sign, digits, unit)
      ensures ParseInterval(text) == Some(Wrap64(UnitOf(Lower(unit)).value * ParseInt32(sign, digits)))
    {
      ParseShape(text, sign, digits, unit);
    }
    if ParseInterval(text).Some? {
      var i := SignLength(s);
      var n := DigitPrefix(s[i..]);
      assert s == s[..i] + s[i..][..n] + s[i + n..];
      assert s[..i] == "" || s[..i] == [s[0]];
      assert Shape(s, s[..i], s[i..][..n], s[i + n..]);
    }
  }

  /** The largest number of units whose duration an int64 can hold. */
  function ExactBound(unit: int): int {
    if unit == HOUR then 2_562_047 else if unit == MINUTE then 153_722_867 else -INT32_MIN
  }

  /** The 64-bit product is exact precisely up to that bound. */
  lemma ProductExact(name: string, v: int)
    requires UnitOf(name).Some?
    requires INT32_MIN <= v <= INT32_MAX
    ensures Wrap64(UnitOf(name).value * v) == UnitOf(name).value * v
            <==> -ExactBound(UnitOf(name).value) <= v <= ExactBound(UnitOf(name).value)
  {}

  /** The decimal numeral of n. */
  function Render(n: nat): (s: string)
    ensures s != "" && AllDigits(s)
  {
    if n < 10 then ['0' + n as char] else Render(n / 10) + ['0' + (n % 10) as char]
  }

  lemma {:induction false} DecimalRender(n: nat)
    ensures Decimal(Render(n)) == n
  {
    if n >= 10 {
      DecimalRender(n / 10);
      var s := Render(n);
      assert s[..|s| - 1] == Render(n / 10);
    } else {
      assert Render(n)[..0] == "";
    }
  }

  lemma TrimKeepsCompact(s: string)
    requires s != "" && !IsSpace(s[0]) && !IsSpace(s[|s| - 1])
    ensures TrimSpace(s) == s
  {}

  lemma LastLetterOfUnit(unit: string)
    requires UnitOf(unit).Some?
    ensures unit != "" && !IsSpace(unit[|unit| - 1]) && Lower(unit) == unit
  {
    forall i | 0 <= i < |unit| ensures LowerChar(unit[i]) == unit[i] {}
  }

  /** The number as parsed: saturated at 32 bits. */
  function Saturated(sign: string, n: nat): int {
    var signed := (if sign == "-" then -1 else 1) * n;
    if signed > 2147483647 then 2147483647 else if signed < -2147483648 then -2147483648 else signed
  }

  /** A numeral of any size, signed or not: the number saturates at 32 bits, the
      product wraps at 64. */
  lemma ParseSigned(sign: string, n: nat, unit: string, text: string)
    requires UnitOf(unit).Some? && sign in {"", "+", "-"} && text == sign + Render(n) + unit
    ensures ParseInterval(text) == Some(Wrap64(UnitOf(unit).value * Saturated(sign, n)))
  {
    SignedText(sign, n, unit, text);
    ParseShape(text, sign, Render(n), unit);
    SignedValue(sign, n);
  }

  lemma SignedValue(sign: string, n: nat)
    requires sign in {"", "+", "-"}
    ensures ParseInt32(sign, Render(n)) == Saturated(sign, n)
  {
    DecimalRender(n);
  }

  lemma SignedText(sign: string, n: nat, unit: string, text: string)
    requires UnitOf(unit).Some? && sign in {"", "+", "-"} && text == sign + Render(n) + unit
    ensures TrimSpace(text) == text && Shape(text, sign, Render(n), unit) && Lower(unit) == unit
  {
    LastLetterOfUnit(unit);
    assert text[0] == if sign == "" then Render(n)[0] else sign[0];
    assert text[|text| - 1] == unit[|unit| - 1];
    TrimKeepsCompact(text);
  }

  lemma ParseNumeral(n: nat, unit: string)
    requires UnitOf(unit).Some? && n <= INT32_MAX
    ensures ParseInterval(Render(n) + unit) == Some(Wrap64(UnitOf(unit).value * n))
  {
    ParseSigned("", n, unit, Render(n) + unit);
  }

  /** Writing n units down and parsing the result gives the duration back
      exactly up to the bound. */
  lemma ParseRender(n: nat, unit: string)
    requires UnitOf(unit).Some? && n <= INT32_MAX
    ensures ParseInterval(Render(n) + unit) == Some(UnitOf(unit).value * n)
            <==> n <= ExactBound(UnitOf(unit).value)
  {
    ParseNumeral(n, unit);
    ProductExact(unit, n);
  }

  /** The duration of every unit name, in nanoseconds; there are no others. */
  lemma UnitsExactly(name: string)
    ensures UnitOf(name) == Some(1_000_000_000) <==> name in {"s", "sec", "seconds"}
    ensures UnitOf(name) == Some(60_000_000_000) <==> name in {"m", "min", "minutes"}
    ensures UnitOf(name) == Some(3_600_000_000_000) <==> name in {"h", "hours"}
    ensures UnitOf(name).Some? <==> name in {"s", "sec", "seconds", "m", "min", "minutes", "h", "hours"}
  {}
}
