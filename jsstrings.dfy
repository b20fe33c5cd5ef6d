/**
 * JavaScript strings as sequences of UTF-16 code units, and the two number/string
 * conversions the generator relies on: `String(n)` (and template interpolation of a
 * number) for integers, and reading such a decimal back.
 */
module JsStrings {
  import opened Wrappers

  /** One UTF-16 code unit, the element `split("")` and `charCodeAt` work on. */
  newtype CodeUnit = x: int | 0 <= x < 0x1_0000

  type JsString = seq<CodeUnit>

  const Underscore: CodeUnit := 95
  const Minus: CodeUnit := 45

  /** The code units of a literal written in the model (all literals here are ASCII). */
  function Js(s: string): (r: JsString)
    ensures |r| == |s|
    ensures forall i :: 0 <= i < |s| && s[i] as int < 0x1_0000 ==> r[i] as int == s[i] as int
  {
    seq(|s|, i requires 0 <= i < |s| =>
      if s[i] as int < 0x1_0000 then s[i] as int as CodeUnit else 0xFFFD)
  }

  predicate IsDigit(u: CodeUnit) {
    48 <= u <= 57
  }

  function Digit(d: nat): (u: CodeUnit)
    requires d < 10
    ensures IsDigit(u) && DigitValue(u) == d
  {
    (48 + d) as CodeUnit
  }

  function DigitValue(u: CodeUnit): nat
    requires IsDigit(u)
  {
    (u - 48) as int
  }

  /** The decimal digits of `n`, most significant first, without leading zeros. */
  function NatDigits(n: nat): (s: JsString)
    ensures |s| > 0
    ensures forall i :: 0 <= i < |s| ==> IsDigit(s[i])
    ensures |s| > 1 ==> s[0] != Digit(0)
    decreases n
  {
    if n < 10 then [Digit(n)] else NatDigits(n / 10) + [Digit(n % 10)]
  }

  /** `String(i)` for an integer `i`: an optional minus sign followed by its digits. */
  function DecimalString(i: int): (s: JsString)
    ensures |s| > 0 && Underscore !in s && IsDigit(s[|s| - 1])
  {
    if i < 0 then [Minus] + NatDigits(-i) else NatDigits(i)
  }

  function DigitsValue(s: JsString): nat
    requires forall i :: 0 <= i < |s| ==> IsDigit(s[i])
  {
    if |s| == 0 then 0 else DigitsValue(s[..|s| - 1]) * 10 + DigitValue(s[|s| - 1])
  }

  /** Reads back a non-empty run of digits, optionally preceded by a minus sign. */
  function ParseDecimal(s: JsString): (r: Option<int>)
    ensures r.Some? ==> |s| > 0
  {
    if |s| > 0 && s[0] == Minus then
      var d := s[1..];
      if |d| > 0 && forall i :: 0 <= i < |d| ==> IsDigit(d[i]) then Some(-(DigitsValue(d) as int)) else None
    else if |s| > 0 && forall i :: 0 <= i < |s| ==> IsDigit(s[i]) then Some(DigitsValue(s) as int)
    else None
  }

  lemma {:induction false} NatDigitsRoundTrip(n: nat)
    ensures DigitsValue(NatDigits(n)) == n
    decreases n
  {
    if n >= 10 {
      var s := NatDigits(n);
      NatDigitsRoundTrip(n / 10);
      assert s[..|s| - 1] == NatDigits(n / 10);
    }
  }

  /** Reading back `String(i)` gives `i`: the decimal form loses nothing. */
  lemma DecimalRoundTrip(i: int)
    ensures ParseDecimal(DecimalString(i)) == Some(i)
  {
    if i < 0 {
      NatDigitsRoundTrip(-i);
      assert DecimalString(i)[1..] == NatDigits(-i);
    } else {
      NatDigitsRoundTrip(i);
      assert DecimalString(i)[0] != Minus;
    }
  }

  /** The part of `s` after its last `sep`, or all of `s` when `sep` does not occur. */
  function AfterLast(s: JsString, sep: CodeUnit): (r: JsString)
    ensures |r| <= |s| && sep !in r
  {
    if |s| == 0 then []
    else if s[|s| - 1] == sep then []
    else AfterLast(s[..|s| - 1], sep) + [s[|s| - 1]]
  }

  lemma {:induction false} AfterLastOfSuffix(p: JsString, sep: CodeUnit, d: JsString)
    requires sep !in d
    ensures AfterLast(p + [sep] + d, sep) == d
    decreases |d|
  {
    var s := p + [sep] + d;
    if |d| > 0 {
      assert s[..|s| - 1] == p + [sep] + d[..|d| - 1];
      AfterLastOfSuffix(p, sep, d[..|d| - 1]);
      assert d == d[..|d| - 1] + [d[|d| - 1]];
    } else {
      assert s[|s| - 1] == sep;
    }
  }
}
