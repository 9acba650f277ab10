/**
 * Character classes, str.strip(), and Python's int() and float() applied to a str.
 * The feeds only ever hand these functions runs of ASCII digits and dots, so int()
 * and float() are modelled on signed ASCII decimal numerals (no exponent, no
 * underscores, no inf/nan, no non-ASCII digits).
 */
module Strings {
  import opened Wrappers

  /** Python's str.isspace(), which is also what `\s` matches in a str pattern. */
  predicate IsSpace(c: char) {
    c == ' ' || ('\t' <= c <= '\r') || ('\U{1C}' <= c <= '\U{1F}') || c == '\U{85}'
    || c == '\U{A0}' || c == '\U{1680}' || ('\U{2000}' <= c <= '\U{200A}')
    || c == '\U{2028}' || c == '\U{2029}' || c == '\U{202F}' || c == '\U{205F}'
    || c == '\U{3000}'
  }

  predicate IsDigit(c: char) {
    '0' <= c <= '9'
  }

  predicate AllDigits(s: string) {
    forall i :: 0 <= i < |s| ==> IsDigit(s[i])
  }

  function DigitValue(c: char): (d: nat)
    requires IsDigit(c)
    ensures d < 10
  {
    (c as int) - ('0' as int)
  }

  function DigitChar(d: nat): (c: char)
    requires d < 10
    ensures IsDigit(c) && DigitValue(c) == d
  {
    (('0' as int) + d) as char
  }

  /** The index of the first non-space at or after `i` (|s| if there is none). */
  function SpaceEnd(s: string, i: nat): (k: nat)
    requires i <= |s|
    ensures i <= k <= |s| && (k < |s| ==> !IsSpace(s[k]))
    ensures forall j :: i <= j < k ==> IsSpace(s[j])
    decreases |s| - i
  {
    if i < |s| && IsSpace(s[i]) then SpaceEnd(s, i + 1) else i
  }

  /** The index just past the last non-space before `j` (0 if there is none). */
  function SpaceStart(s: string, j: nat): (k: nat)
    requires j <= |s|
    ensures k <= j && (k > 0 ==> !IsSpace(s[k - 1]))
    ensures forall i :: k <= i < j ==> IsSpace(s[i])
  {
    if j > 0 && IsSpace(s[j - 1]) then SpaceStart(s, j - 1) else j
  }

  /** str.strip() with no argument: the text between the leading and trailing whitespace. */
  function Strip(s: string): string {
    var a := SpaceEnd(s, 0);
    var b := SpaceStart(s, |s|);
    s[a..if a <= b then b else a]
  }

  /**
   * What Strip removes is whitespace, and what it keeps is bounded by non-spaces:
   * Strip(s) is a slice of `s` that starts and ends with non-spaces, all outside is space.
   */
  lemma StripShape(s: string)
    ensures exists a, b ::
      (0 <= a <= b <= |s| && Strip(s) == s[a..b]
      && (forall i :: 0 <= i < a ==> IsSpace(s[i]))
      && (forall i :: b <= i < |s| ==> IsSpace(s[i]))
      && (a < b ==> !IsSpace(s[a]) && !IsSpace(s[b - 1])))
  {
    var a := SpaceEnd(s, 0);
    var b := SpaceStart(s, |s|);
    if a <= b {
      assert Strip(s) == s[a..b];
      if a < b {
        assert !IsSpace(s[a]) && !IsSpace(s[b - 1]);
      }
    } else {
      assert Strip(s) == s[a..a];
    }
  }

  /** A string that neither starts nor ends with whitespace is its own strip. */
  lemma StripWithoutOuterSpaces(s: string)
    requires s != [] ==> !IsSpace(s[0]) && !IsSpace(s[|s| - 1])
    ensures Strip(s) == s
  {
    assert SpaceEnd(s, 0) == 0;
    assert SpaceStart(s, |s|) == |s|;
  }

  function Pow10(n: nat): (r: nat)
    ensures r >= 1
  {
    if n == 0 then 1 else 10 * Pow10(n - 1)
  }

  /** The value of a run of decimal digits, most significant first. */
  function NatValue(ds: string): nat
    requires AllDigits(ds)
    decreases |ds|
  {
    if ds == [] then 0 else NatValue(ds[..|ds| - 1]) * 10 + DigitValue(ds[|ds| - 1])
  }

  lemma NatValueOfTwo(s: string)
    requires |s| == 2 && AllDigits(s)
    ensures NatValue(s) == DigitValue(s[0]) * 10 + DigitValue(s[1])
  {
    var head := s[..1];
    assert head[..0] == [] && head[0] == s[0];
    assert NatValue(head) == DigitValue(s[0]);
  }

  /** `n` written with exactly `width` digits, zero-padded (as `%02d`, `%04d` do). */
  function PadDigits(n: nat, width: nat): (s: string)
    requires n < Pow10(width)
    ensures |s| == width && AllDigits(s) && NatValue(s) == n
  {
    if width == 0 then []
    else
      var head := PadDigits(n / 10, width - 1);
      var s := head + [DigitChar(n % 10)];
      assert s[..|s| - 1] == head;
      s
  }

  /** Zero-padding a run of digits' value to the run's own width writes the run again. */
  lemma {:induction false} PadOfDigits(s: string)
    requires AllDigits(s)
    ensures NatValue(s) < Pow10(|s|) && PadDigits(NatValue(s), |s|) == s
    decreases |s|
  {
    if s != [] {
      var init, last := s[..|s| - 1], s[|s| - 1];
      assert AllDigits(init);
      assert s == init + [last];
      assert NatValue(s) == NatValue(init) * 10 + DigitValue(last);
      PadOfDigits(init);
      PadAppend(NatValue(init), DigitValue(last), |init|);
      assert DigitChar(DigitValue(last)) == last;
    }
  }

  /** One more digit on the right: ten times the value plus the digit. */
  lemma PadAppend(a: nat, d: nat, width: nat)
    requires a < Pow10(width) && d < 10
    ensures a * 10 + d < Pow10(width + 1)
    ensures PadDigits(a * 10 + d, width + 1) == PadDigits(a, width) + [DigitChar(d)]
  {
    assert (a * 10 + d) / 10 == a && (a * 10 + d) % 10 == d;
  }

  /** Index of the first '.' in `s`, or |s| if there is none. */
  function DotIndex(s: string): (k: nat)
    ensures k <= |s| && (k < |s| ==> s[k] == '.')
    ensures forall i :: 0 <= i < k ==> s[i] != '.'
  {
    if s == [] then 0 else if s[0] == '.' then 0 else 1 + DotIndex(s[1..])
  }

  /** The exact ratio of two naturals. */
  function Quotient(n: nat, d: nat): real
    requires d > 0
  {
    n as real / d as real
  }

  /** An unsigned decimal numeral: digits, optionally one '.', at least one digit. */
  function DecimalValue(body: string): Option<real> {
    var k := DotIndex(body);
    var whole := body[..k];
    var frac := if k < |body| then body[k + 1..] else [];
    if AllDigits(whole) && AllDigits(frac) && |whole| + |frac| > 0 then
      Some(NatValue(whole) as real + Quotient(NatValue(frac), Pow10(|frac|)))
    else
      None
  }

  /** Python's int(s) for a str argument; None stands for the ValueError it raises. */
  function PyInt(s: string): Option<int> {
    var t := Strip(s);
    if |t| > 1 && (t[0] == '+' || t[0] == '-') && AllDigits(t[1..]) then
      Some(if t[0] == '-' then -(NatValue(t[1..]) as int) else NatValue(t[1..]))
    else if |t| > 0 && AllDigits(t) then
      Some(NatValue(t))
    else
      None
  }

  /** Python's float(s) for a str argument; None stands for the ValueError it raises. */
  function PyFloat(s: string): Option<real> {
    var t := Strip(s);
    if |t| > 0 && (t[0] == '+' || t[0] == '-') then
      match DecimalValue(t[1..])
      case Some(v) => Some(if t[0] == '-' then -v else v)
      case None => None
    else
      DecimalValue(t)
  }

  /** The digits of a numeral with the dot taken out: the whole part, then the fraction. */
  function DigitsOf(body: string): string {
    var k := DotIndex(body);
    body[..k] + (if k < |body| then body[k + 1..] else [])
  }

  /** The digits of the fractional part. */
  function FractionOf(body: string): string {
    var k := DotIndex(body);
    if k < |body| then body[k + 1..] else []
  }

  /** Digits written after others: the first run's value is shifted by the second's width. */
  lemma {:induction false} NatValueConcat(a: string, b: string)
    requires AllDigits(a) && AllDigits(b)
    ensures AllDigits(a + b) && NatValue(a + b) == NatValue(a) * Pow10(|b|) + NatValue(b)
    decreases |b|
  {
    if b == [] {
      assert a + b == a;
    } else {
      var init, last := b[..|b| - 1], b[|b| - 1];
      assert AllDigits(init);
      assert (a + b)[..|a + b| - 1] == a + init && (a + b)[|a + b| - 1] == last;
      NatValueConcat(a, init);
      ShiftStep(NatValue(a), Pow10(|init|), NatValue(init), DigitValue(last));
    }
  }

  lemma ShiftStep(x: nat, p: nat, y: nat, d: nat)
    ensures (x * p + y) * 10 + d == x * (10 * p) + (y * 10 + d)
  {
  }

  lemma CastShift(x: nat, p: nat, y: nat)
    ensures (x * p + y) as real == x as real * p as real + y as real
  {
  }

  lemma QuotientShift(x: nat, y: nat, p: nat)
    requires p > 0
    ensures x as real + Quotient(y, p) == Quotient(x * p + y, p)
  {
    CastShift(x, p, y);
  }

  /**
   * The value of a decimal numeral is the number its digits spell with the dot left
   * out, divided by ten to the length of its fraction (`12.5` is 125 / 10).
   */
  lemma DecimalValueScaled(body: string)
    requires DecimalValue(body).Some?
    ensures AllDigits(DigitsOf(body))
    ensures DecimalValue(body) == Some(Quotient(NatValue(DigitsOf(body)), Pow10(|FractionOf(body)|)))
  {
    var k := DotIndex(body);
    var whole, frac := body[..k], FractionOf(body);
    assert DigitsOf(body) == whole + frac;
    NatValueConcat(whole, frac);
    QuotientShift(NatValue(whole), NatValue(frac), Pow10(|frac|));
  }

  predicate IsDigitOrDot(c: char) {
    IsDigit(c) || c == '.'
  }

  /** What `[\d.]+` captures: a non-empty run of digits and dots. */
  predicate IsDigitRun(s: string) {
    |s| > 0 && forall i :: 0 <= i < |s| ==> IsDigitOrDot(s[i])
  }

  lemma DigitRunStrips(s: string)
    requires IsDigitRun(s)
    ensures Strip(s) == s
  {
    assert IsDigitOrDot(s[0]) && IsDigitOrDot(s[|s| - 1]);
    StripWithoutOuterSpaces(s);
  }

  /** int() accepts a digits-and-dots run exactly when it holds no dot. */
  lemma PyIntOfDigitRun(s: string)
    requires IsDigitRun(s)
    ensures PyInt(s).Some? <==> forall i :: 0 <= i < |s| ==> s[i] != '.'
    ensures PyInt(s).Some? ==> AllDigits(s) && PyInt(s).value == NatValue(s)
  {
    DigitRunStrips(s);
    assert IsDigitOrDot(s[0]);
    assert PyInt(s) == if AllDigits(s) then Some(NatValue(s) as int) else None;
    if !AllDigits(s) {
      var i :| 0 <= i < |s| && !IsDigit(s[i]);
      assert IsDigitOrDot(s[i]);
    } else {
      forall i | 0 <= i < |s| ensures s[i] != '.' {
        assert IsDigit(s[i]);
      }
    }
  }

  /**
   * float() accepts a digits-and-dots run exactly when it holds at most one dot and a digit,
   * and then reads its decimal value.
   */
  lemma PyFloatOfDigitRun(s: string)
    requires IsDigitRun(s)
    ensures PyFloat(s).Some? <==>
      (exists i :: 0 <= i < |s| && IsDigit(s[i])) &&
      (forall i, j :: 0 <= i < j < |s| && s[i] == '.' ==> s[j] != '.')
    ensures PyFloat(s) == DecimalValue(s)
  {
    DigitRunStrips(s);
    assert IsDigitOrDot(s[0]);
    assert PyFloat(s) == DecimalValue(s);
    DecimalOfDigitRun(s);
  }

  /** A digits-and-dots run is a decimal numeral exactly when it holds at most one dot and a digit. */
  lemma DecimalOfDigitRun(s: string)
    requires IsDigitRun(s)
    ensures DecimalValue(s).Some? <==>
      (exists i :: 0 <= i < |s| && IsDigit(s[i])) &&
      (forall i, j :: 0 <= i < j < |s| && s[i] == '.' ==> s[j] != '.')
  {
    var k := DotIndex(s);
    var whole := s[..k];
    var frac := if k < |s| then s[k + 1..] else [];
    if DecimalValue(s).Some? {
      assert AllDigits(whole) && AllDigits(frac) && |whole| + |frac| > 0;
      if |whole| > 0 {
        assert IsDigit(s[0]);
      } else {
        assert k < |s| && IsDigit(s[k + 1]);
      }
      forall i, j | 0 <= i < j < |s| && s[i] == '.'
        ensures s[j] != '.'
      {
        assert i == k;
        assert frac[j - k - 1] == s[j];
      }
    } else {
      if !AllDigits(frac) {
        var j :| 0 <= j < |frac| && !IsDigit(frac[j]);
        assert s[k] == '.' && s[k + 1 + j] == '.';
      } else if |whole| + |frac| == 0 {
        assert |s| == 1 && s[0] == '.';
      }
    }
  }
}
