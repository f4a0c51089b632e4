/**
 * Python's `int()` and `float()` on ASCII decimal text, and `str()` of an integer.
 * A float is kept exactly, as a mantissa and a count of decimal places.
 */
module Numbers {
  import opened Text
  import opened Wrappers

  /** Every character is a decimal digit (the empty string included). */
  predicate DigitsOnly(s: string) {
    forall i :: 0 <= i < |s| ==> IsDigit(s[i])
  }

  function DigitValue(c: char): nat
    requires IsDigit(c)
  {
    c as int - '0' as int
  }

  function DigitChar(d: nat): (c: char)
    requires d < 10
    ensures IsDigit(c) && DigitValue(c) == d
  {
    ('0' as int + d) as char
  }

  /** The value of a run of decimal digits, most significant first. */
  function DigitsValue(s: string): nat
    requires DigitsOnly(s)
  {
    if s == [] then 0 else DigitsValue(s[..|s| - 1]) * 10 + DigitValue(s[|s| - 1])
  }

  function Pow10(k: nat): (p: nat)
    ensures p >= 1
  {
    if k == 0 then 1 else 10 * Pow10(k - 1)
  }

  /** A run of `k` digits has a value below `10^k`. */
  lemma {:induction false} DigitsValueBound(s: string)
    requires DigitsOnly(s)
    ensures DigitsValue(s) < Pow10(|s|)
  {
    if s != [] {
      DigitsValueBound(s[..|s| - 1]);
    }
  }

  /** Digits written after others scale the earlier ones by a power of ten. */
  lemma {:induction false} DigitsValueAppend(a: string, b: string)
    requires DigitsOnly(a) && DigitsOnly(b)
    ensures DigitsOnly(a + b)
    ensures DigitsValue(a + b) == DigitsValue(a) * Pow10(|b|) + DigitsValue(b)
  {
    if b == [] {
      assert a + b == a;
    } else {
      var b' := b[..|b| - 1];
      DigitsValueAppend(a, b');
      assert (a + b)[..|a + b| - 1] == a + b';
      assert (a + b)[|a + b| - 1] == b[|b| - 1];
      var x, p, y, d := DigitsValue(a), Pow10(|b'|), DigitsValue(b'), DigitValue(b[|b| - 1]);
      assert DigitsValue(a + b) == (x * p + y) * 10 + d;
      ShiftDigit(x, p, y, d);
      assert DigitsValue(b) == y * 10 + d;
    }
  }

  lemma ShiftDigit(x: int, p: int, y: int, d: int)
    ensures (x * p + y) * 10 + d == x * (10 * p) + (y * 10 + d)
  {
  }

  /** `str(n)` for a natural number. */
  function NatToString(n: nat): (s: string)
    ensures AllDigits(s)
    ensures s[0] == '0' ==> n == 0
    decreases n
  {
    if n < 10 then [DigitChar(n)] else NatToString(n / 10) + [DigitChar(n % 10)]
  }

  /** `str(n)` for an integer. */
  function IntToString(n: int): string
  {
    if n < 0 then "-" + NatToString(-n) else NatToString(n)
  }

  /** Reading back the digits written by `str()` gives the number. */
  lemma {:induction false} NatToStringValue(n: nat)
    ensures DigitsValue(NatToString(n)) == n
    decreases n
  {
    if n >= 10 {
      NatToStringValue(n / 10);
      var s := NatToString(n);
      assert s[..|s| - 1] == NatToString(n / 10);
    }
  }

  /** The digits only, after an optional leading sign. */
  function SignedBody(t: string): string
  {
    if |t| > 0 && (t[0] == '+' || t[0] == '-') then t[1..] else t
  }

  function ApplySign(t: string, v: int): int
  {
    if |t| > 0 && t[0] == '-' then -v else v
  }

  /**
   * `int(s)`: surrounding whitespace, an optional sign, then at least one digit.
   * `None` stands for the `ValueError` Python raises.
   */
  function ParseInt(s: string): (r: Option<int>)
    ensures r.Some? ==> exists i :: 0 <= i < |s| && IsDigit(s[i])
  {
    var t := Strip(s);
    var body := SignedBody(t);
    if AllDigits(body) then
      assert body[0] == t[|t| - |body|];
      Some(ApplySign(t, DigitsValue(body)))
    else None
  }

  lemma StripDigits(s: string)
    requires AllDigits(s)
    ensures Strip(s) == s
  {
    assert !IsSpace(s[0]);
    assert StripStart(s) == s;
    assert !IsSpace(s[|s| - 1]);
  }

  /** `int(str(n)) == n` for every integer. */
  lemma ParseIntRoundTrip(n: int)
    ensures ParseInt(IntToString(n)) == Some(n)
  {
    if n < 0 {
      NatToStringValue(-n);
      NegativeReads(n, NatToString(-n));
    } else {
      NatToStringValue(n);
      DigitsRead(IntToString(n));
    }
  }

  /** A '-' followed by the digits of `-n` reads as `n`. */
  lemma NegativeReads(n: int, d: string)
    requires n < 0 && AllDigits(d) && DigitsValue(d) == -n
    ensures ParseInt("-" + d) == Some(n)
  {
    var s := "-" + d;
    assert s[1..] == d;
    assert !IsSpace(s[0]) && !IsSpace(s[|s| - 1]) by {
      assert s[|s| - 1] == d[|d| - 1];
    }
    StripTrimmed(s);
  }

  /** Plain digits read as their value. */
  lemma DigitsRead(d: string)
    requires AllDigits(d)
    ensures ParseInt(d) == Some(DigitsValue(d) as int)
  {
    StripDigits(d);
  }

  /** An exact decimal number: `mantissa / 10^scale`. */
  datatype Decimal = Decimal(mantissa: int, scale: nat)
  {
    /** `k <= self`. */
    predicate AtLeast(k: int) { k * Pow10(scale) <= mantissa }

    /** `self <= k`. */
    predicate AtMost(k: int) { mantissa <= k * Pow10(scale) }

    /** `lo <= self <= hi`. */
    predicate Within(lo: int, hi: int) { AtLeast(lo) && AtMost(hi) }
  }

  /** The unsigned part of a float literal: digits with at most one '.', at least one digit. */
  function ParseUnsignedDecimal(b: string): (r: Option<Decimal>)
    ensures r.Some? ==> r.value.mantissa >= 0
  {
    var i := Find(b, '.');
    if i == -1 then
      if AllDigits(b) then Some(Decimal(DigitsValue(b), 0)) else None
    else
      var whole := b[..i];
      var frac := b[i + 1..];
      if DigitsOnly(whole) && DigitsOnly(frac) && |whole| + |frac| > 0 then
        Some(FromParts(whole, frac))
      else None
  }

  /** A body with two points is refused. */
  lemma TwoPointsRejected(b: string, i: nat, j: nat)
    requires i < j < |b| && b[i] == '.' && b[j] == '.'
    ensures ParseUnsignedDecimal(b).None?
  {
    var k := Find(b, '.');
    FindAtMost(b, '.', i);
    var frac := b[k + 1..];
    assert frac[j - k - 1] == '.';
  }

  /** The value of `whole.frac`. */
  function FromParts(whole: string, frac: string): (d: Decimal)
    requires DigitsOnly(whole) && DigitsOnly(frac)
    ensures d.scale == |frac| && d.mantissa >= 0
  {
    Decimal(DigitsValue(whole) * Pow10(|frac|) + DigitsValue(frac), |frac|)
  }

  /**
   * `float(s)` for plain decimal notation: surrounding whitespace, an optional sign,
   * digits with at most one '.', at least one digit.
   */
  function ParseFloat(s: string): (r: Option<Decimal>)
  {
    var t := Strip(s);
    match ParseUnsignedDecimal(SignedBody(t))
    case None => None
    case Some(d) => Some(Decimal(ApplySign(t, d.mantissa), d.scale))
  }

  /** `float` reads digits around one point as whole part and fraction. */
  lemma ParseFloatOfPoint(whole: string, frac: string)
    requires DigitsOnly(whole) && DigitsOnly(frac) && |whole| > 0 && |frac| > 0
    ensures ParseFloat(whole + "." + frac) == Some(FromParts(whole, frac))
  {
    var s := whole + "." + frac;
    assert s[0] == whole[0] && IsDigit(whole[0]);
    assert s[|s| - 1] == frac[|frac| - 1] && IsDigit(frac[|frac| - 1]);
    assert SignedBody(s) == s;
    ParseFloatPoint(whole, frac);
    StripTrimmed(s);
    var d := FromParts(whole, frac);
    assert ParseUnsignedDecimal(SignedBody(Strip(s))) == Some(d);
    assert ApplySign(s, d.mantissa) == d.mantissa;
  }

  /** `float` refuses a text that starts and ends with a digit and holds two points. */
  lemma TwoPointsRaise(s: string, i: nat, j: nat)
    requires i < j < |s| && s[i] == '.' && s[j] == '.'
    requires IsDigit(s[0]) && IsDigit(s[|s| - 1])
    ensures Strip(s) == s
    ensures ParseFloat(s).None?
  {
    StripTrimmed(s);
    assert SignedBody(s) == s;
    TwoPointsRejected(s, i, j);
  }

  /** Every text `int()` accepts, `float()` accepts with the same value. */
  lemma ParseFloatExtendsParseInt(s: string, n: int)
    requires ParseInt(s) == Some(n)
    ensures ParseFloat(s).Some? && ParseFloat(s).value.Within(n, n)
  {
    var t := Strip(s);
    var body := SignedBody(t);
    assert AllDigits(body);
    assert '.' !in body by {
      forall k | 0 <= k < |body| ensures body[k] != '.' {
        assert IsDigit(body[k]);
      }
    }
    assert Find(body, '.') == -1;
    assert ParseUnsignedDecimal(body) == Some(Decimal(DigitsValue(body), 0));
    assert Pow10(0) == 1;
  }

  /** A digit string with one '.' inside reads as whole part and fraction. */
  lemma ParseFloatPoint(whole: string, frac: string)
    requires DigitsOnly(whole) && DigitsOnly(frac) && |whole| + |frac| > 0
    ensures ParseUnsignedDecimal(whole + "." + frac) == Some(FromParts(whole, frac))
  {
    var b := whole + "." + frac;
    assert b[..|whole|] == whole;
    assert '.' !in whole by {
      forall k | 0 <= k < |whole| ensures whole[k] != '.' {
        assert IsDigit(whole[k]);
      }
    }
    FindFirst(b, '.', |whole|);
    assert b[|whole| + 1..] == frac;
  }
}
