/**
 * Exact decimal arithmetic as Python's `decimal.Decimal` performs it on the
 * values the invoice code handles: reading a decimal numeral, absolute value,
 * and `round(x, 2)` (quantize to hundredths, ties to even).
 */
module Decimals {
  import opened Common
  import opened Text

  function Abs(x: real): (r: real)
    ensures r >= 0.0 && (r == x || r == -x)
  {
    if x < 0.0 then -x else x
  }

  /**
   * A numeral without sign or exponent: digits with at most one decimal
   * point, and at least one digit (`1`, `1.`, `.5`, `1.50`).
   */
  function ParseUnsigned(s: string): (r: Option<real>)
    ensures r.Some? ==> r.value >= 0.0
    ensures r.Some? ==> s != [] && forall i :: 0 <= i < |s| ==> IsDigit(s[i]) || s[i] == '.'
  {
    match IndexOf(s, '.')
    case None =>
      if s != [] && IsDigits(s) then Some(DigitsValue(s) as real) else None
    case Some(k) =>
      var whole, fraction := s[..k], s[k + 1..];
      if IsDigits(whole) && IsDigits(fraction) && |whole| + |fraction| > 0
      then
        assert s == whole + "." + fraction;
        Some(Shift(DigitsValue(whole + fraction) as real, |fraction|))
      else None
  }

  /** `x` with the decimal point moved `places` digits to the left. */
  function Shift(x: real, places: nat): (r: real)
    ensures x >= 0.0 ==> r >= 0.0
  {
    if places == 0 then x else Shift(x, places - 1) / 10.0
  }

  /**
   * `float(s)` on the amount texts the extractor normalises: an optional
   * sign, then digits with at most one decimal point. `None` stands for the
   * `ValueError`.
   */
  function ParseDecimal(s: string): (r: Option<real>)
    ensures r.Some? ==> s != []
    ensures r.Some? ==> forall i :: 0 <= i < |s| ==> IsDigit(s[i]) || s[i] == '.' || (i == 0 && (s[0] == '-' || s[0] == '+'))
  {
    if s != [] && (s[0] == '-' || s[0] == '+') then
      match ParseUnsigned(s[1..])
      case Some(v) => Some(if s[0] == '-' then -v else v)
      case None => None
    else ParseUnsigned(s)
  }

  /** `10 ** e` applied to `m`, for an exponent of either sign. */
  function Scale(m: real, e: int): (r: real)
    ensures m >= 0.0 ==> r >= 0.0
  {
    if e >= 0 then m * Pow10(e) as real else m / Pow10(-e) as real
  }

  /** The exponent after `E`: an optional sign, then at least one digit. */
  function ParseExponent(s: string): (r: Option<int>)
    ensures r.Some? ==> s != []
  {
    if s != [] && (s[0] == '-' || s[0] == '+') then
      if |s| > 1 && IsDigits(s[1..]) then Some(if s[0] == '-' then -(DigitsValue(s[1..]) as int) else DigitsValue(s[1..])) else None
    else if s != [] && IsDigits(s) then Some(DigitsValue(s))
    else None
  }

  /** A numeral without sign in `Decimal`'s syntax: a mantissa, then optionally `E` (either case) and an exponent. */
  function ParseScientific(s: string): (r: Option<real>)
    ensures r.Some? ==> r.value >= 0.0
    ensures r.Some? ==> s != [] && (IsDigit(s[0]) || s[0] == '.')
  {
    match IndexOf(Replace(s, 'E', 'e'), 'e')
    case None => ParseUnsigned(s)
    case Some(k) =>
      match (ParseUnsigned(s[..k]), ParseExponent(s[k + 1..]))
      case (Some(m), Some(e)) => Some(Scale(m, e))
      case _ => None
  }

  /** ASCII upper case, the only case folding `Decimal` applies to the names of special values. */
  function AsciiUpper(s: string): (r: string)
    ensures |r| == |s|
  {
    seq(|s|, i requires 0 <= i < |s| => if 'a' <= s[i] <= 'z' then (s[i] as int - 32) as char else s[i])
  }

  /** `Inf`, `Infinity`, `NaN` or `sNaN` (in any case), a NaN optionally followed by diagnostic digits. */
  predicate IsSpecialName(s: string) {
    var u := AsciiUpper(s);
    || u == "INF" || u == "INFINITY"
    || (|u| >= 3 && u[..3] == "NAN" && IsDigits(u[3..]))
    || (|u| >= 4 && u[..4] == "SNAN" && IsDigits(u[4..]))
  }

  /** What `Decimal(s)` makes of a string: a finite value, an infinity or NaN, or `InvalidOperation`. */
  datatype DecimalReading = Finite(value: real) | NonFinite | Invalid

  /**
   * `Decimal(s)` for a string: white space around the numeral is stripped
   * (one character at a time, from the left first) and every underscore is
   * dropped; what is left is an optional sign and either a numeral with an
   * optional exponent or the name of a special value. Anything else raises
   * `InvalidOperation`. `ReadStripped` states it with `Strip`.
   */
  function ReadDecimal(s: string): DecimalReading
    decreases |s|
  {
    if s != [] && IsSpace(s[0]) then ReadDecimal(s[1..])
    else if s != [] && IsSpace(s[|s| - 1]) then ReadDecimal(s[..|s| - 1])
    else ReadSigned(Remove(s, '_'))
  }

  /**
   * The syntax `Decimal` accepts once white space and underscores are gone.
   * A numeral starts with a digit or a point and a special name with a
   * letter, so trying the numeral first decides the same cases.
   */
  function ReadSigned(t: string): DecimalReading {
    var negative := t != [] && t[0] == '-';
    var body := if t != [] && (t[0] == '-' || t[0] == '+') then t[1..] else t;
    match ParseScientific(body)
    case Some(v) => Finite(if negative then -v else v)
    case None => if IsSpecialName(body) then NonFinite else Invalid
  }

  /** `Decimal` reads the text with white space stripped and underscores dropped, as `str.strip()` strips it. */
  lemma {:induction false} ReadStripped(s: string)
    ensures ReadDecimal(s) == ReadSigned(Remove(Strip(s), '_'))
    decreases |s|
  {
    if s != [] && IsSpace(s[0]) {
      assert TrimLeft(s) == TrimLeft(s[1..]);
      ReadStripped(s[1..]);
    } else if s != [] && IsSpace(s[|s| - 1]) {
      var init := s[..|s| - 1];
      assert TrimLeft(s) == s;
      assert TrimRight(s) == TrimRight(init);
      assert TrimLeft(init) == init by {
        if init != [] { assert init[0] == s[0]; }
      }
      ReadStripped(init);
    } else if s != [] {
      assert TrimLeft(s) == s && TrimRight(s) == s;
    }
  }

  /** A text without white space at its ends is read with only its underscores dropped. */
  lemma ReadTrimmed(s: string)
    requires s != [] && !IsSpace(s[0]) && !IsSpace(s[|s| - 1])
    ensures ReadDecimal(s) == ReadSigned(Remove(s, '_'))
  {
  }

  lemma {:induction false} ReadLeftBlank(a: string, x: string)
    requires IsBlank(a) && x != [] && !IsSpace(x[0])
    ensures ReadDecimal(a + x) == ReadDecimal(x)
    decreases |a|
  {
    if a != [] {
      var s := a + x;
      assert s[0] == a[0] && IsSpace(s[0]);
      assert s[1..] == a[1..] + x;
      ReadLeftBlank(a[1..], x);
    } else {
      assert a + x == x;
    }
  }

  lemma {:induction false} ReadRightBlank(x: string, b: string)
    requires IsBlank(b) && x != [] && !IsSpace(x[0])
    ensures ReadDecimal(x + b) == ReadDecimal(x)
    decreases |b|
  {
    if b != [] {
      var s := x + b;
      assert s[0] == x[0] && s[|s| - 1] == b[|b| - 1] && IsSpace(s[|s| - 1]);
      assert s[..|s| - 1] == x + b[..|b| - 1];
      ReadRightBlank(x, b[..|b| - 1]);
    } else {
      assert x + b == x;
    }
  }

  /** A text that starts with a digit, a point or a sign names no special value. */
  lemma NotSpecialName(s: string)
    requires s != [] && (IsDigit(s[0]) || s[0] == '.' || s[0] == '-' || s[0] == '+')
    ensures !IsSpecialName(s)
  {
    var u := AsciiUpper(s);
    assert u[0] == s[0];
    if |u| >= 3 { assert u[..3][0] == u[0]; }
    if |u| >= 4 { assert u[..4][0] == u[0]; }
  }

  /** Without an `e` or `E`, a numeral has no exponent. */
  lemma NoMark(s: string)
    requires 'e' !in s && 'E' !in s
    ensures ParseScientific(s) == ParseUnsigned(s)
  {
    assert 'e' !in Replace(s, 'E', 'e');
  }

  /** Digits and points carry no exponent. */
  lemma NoExponent(s: string)
    requires forall i :: 0 <= i < |s| ==> IsDigit(s[i]) || s[i] == '.'
    ensures ParseScientific(s) == ParseUnsigned(s)
  {
    NoMark(s);
  }

  /**
   * `Decimal` reads every plain numeral as `float` does: a numeral with an
   * optional sign and at most one point is the finite value it denotes.
   */
  lemma {:induction false} ReadPlainNumeral(s: string)
    requires ParseDecimal(s).Some?
    ensures ReadDecimal(s) == Finite(ParseDecimal(s).value)
  {
    assert !IsSpace(s[0]) && !IsSpace(s[|s| - 1]);
    ReadTrimmed(s);
    assert '_' !in s;
    SignedPlain(s);
  }

  /** Once stripped, a plain numeral reads as its value. */
  lemma {:induction false} SignedPlain(t: string)
    requires ParseDecimal(t).Some?
    ensures ReadSigned(t) == Finite(ParseDecimal(t).value)
  {
    var body := if t[0] == '-' || t[0] == '+' then t[1..] else t;
    assert ParseUnsigned(body).Some?;
    NoExponent(body);
  }

  /** White space around a numeral does not change what `Decimal` reads. */
  lemma ReadPadded(a: string, s: string, b: string)
    requires IsBlank(a) && IsBlank(b)
    requires s != [] && !IsSpace(s[0]) && !IsSpace(s[|s| - 1])
    ensures ReadDecimal(a + s + b) == ReadDecimal(s)
  {
    ReadLeftBlank(a, s + b);
    assert a + s + b == a + (s + b);
    ReadRightBlank(s, b);
  }

  /** A plain numeral with white space around it: `Decimal(" 100.00")` is 100 and `Decimal(" -5")` is -5. */
  lemma {:induction false} ReadPaddedNumeral(a: string, s: string, b: string)
    requires IsBlank(a) && IsBlank(b) && ParseDecimal(s).Some?
    ensures ReadDecimal(a + s + b) == Finite(ParseDecimal(s).value)
  {
    assert !IsSpace(s[0]) && !IsSpace(s[|s| - 1]);
    ReadPadded(a, s, b);
    ReadPlainNumeral(s);
  }

  /** A string of digits is the integer it denotes. */
  lemma {:induction false} UnsignedDigits(m: string)
    requires m != [] && IsDigits(m)
    ensures ParseUnsigned(m) == Some(DigitsValue(m) as real)
  {
    assert '.' !in m;
  }

  /** A signed exponent: its digits, negated after `-`. */
  lemma {:induction false} SignedExponent(sign: char, e: string)
    requires e != [] && IsDigits(e) && (sign == '+' || sign == '-')
    ensures ParseExponent([sign] + e) == Some(if sign == '+' then DigitsValue(e) else -(DigitsValue(e) as int))
  {
    assert ([sign] + e)[1..] == e;
  }

  /** The first `e` or `E` splits a numeral into mantissa and exponent. */
  lemma {:induction false} ExponentMark(m: string, rest: string, mantissa: real, exponent: int)
    requires forall i :: 0 <= i < |m| ==> m[i] != 'e' && m[i] != 'E'
    requires ParseUnsigned(m) == Some(mantissa) && ParseExponent(rest) == Some(exponent)
    ensures ParseScientific(m + "E" + rest) == Some(Scale(mantissa, exponent))
  {
    var s := m + "E" + rest;
    var t := Replace(s, 'E', 'e');
    assert t[|m|] == 'e';
    assert 'e' !in t[..|m|] by {
      forall i | 0 <= i < |m| ensures t[..|m|][i] != 'e' { assert t[i] == s[i] == m[i]; }
    }
    assert s[..|m|] == m && s[|m| + 1..] == rest;
  }

  /** A numeral with an exponent: the mantissa scaled by ten to the exponent. */
  lemma {:induction false} ScientificOf(m: string, sign: char, e: string)
    requires m != [] && IsDigits(m) && e != [] && IsDigits(e)
    requires sign == '+' || sign == '-'
    ensures ParseScientific(m + "E" + [sign] + e) ==
      Some(Scale(DigitsValue(m) as real, if sign == '+' then DigitsValue(e) else -(DigitsValue(e) as int)))
  {
    assert m + "E" + [sign] + e == m + "E" + ([sign] + e);
    UnsignedDigits(m);
    SignedExponent(sign, e);
    ExponentMark(m, [sign] + e, DigitsValue(m) as real, if sign == '+' then DigitsValue(e) else -(DigitsValue(e) as int));
  }

  /** A numeral made of digits, points, `E` and signs has no underscore and no white space at its ends. */
  lemma PlainEnds(s: string)
    requires s != [] && IsDigit(s[0]) && IsDigit(s[|s| - 1])
    requires forall i :: 0 <= i < |s| ==> s[i] != '_'
    ensures ReadDecimal(s) == ReadSigned(s)
  {
    ReadTrimmed(s);
    assert '_' !in s;
  }

  /** `Decimal(m + "E+" + e)` and `Decimal(m + "E-" + e)` for digit strings `m` and `e`: `m` times ten to the `±e`. */
  lemma {:induction false} ReadExponent(m: string, sign: char, e: string)
    requires m != [] && IsDigits(m) && e != [] && IsDigits(e)
    requires sign == '+' || sign == '-'
    ensures ReadDecimal(m + "E" + [sign] + e) ==
      Finite(Scale(DigitsValue(m) as real, if sign == '+' then DigitsValue(e) else -(DigitsValue(e) as int)))
  {
    var s := m + "E" + [sign] + e;
    assert s[0] == m[0] && s[|s| - 1] == e[|e| - 1];
    assert forall i :: 0 <= i < |s| ==> s[i] != '_' by {
      forall i | 0 <= i < |s|
        ensures s[i] != '_'
      {
        if i < |m| { assert s[i] == m[i]; }
        else if i > |m| + 1 { assert s[i] == e[i - |m| - 2]; }
      }
    }
    PlainEnds(s);
    ScientificOf(m, sign, e);
    assert !(s[0] == '-' || s[0] == '+');
  }

  /** Once white space is stripped, `Decimal` reads a text without underscores as it stands. */
  lemma {:induction false} ReadUnstripped(s: string)
    requires s != [] && !IsSpace(s[0]) && !IsSpace(s[|s| - 1]) && '_' !in s
    ensures ReadDecimal(s) == ReadSigned(s)
  {
    ReadTrimmed(s);
  }

  lemma {:induction false} RemoveGap(a: string, b: string)
    ensures Remove(a + ['_'] + b, '_') == Remove(a + b, '_')
  {
    RemoveAppend(a + ['_'], b, '_');
    RemoveAppend(a, ['_'], '_');
    RemoveAppend(a, b, '_');
    assert Remove(['_'], '_') == [];
  }

  /** Underscores between digit groups are dropped: `Decimal("1_000")` reads as `Decimal("1000")`. */
  lemma {:induction false} ReadGrouped(a: string, b: string)
    requires a != [] && b != [] && !IsSpace(a[0]) && !IsSpace(b[|b| - 1])
    ensures ReadDecimal(a + "_" + b) == ReadDecimal(a + b)
  {
    var x := a + ['_'] + b;
    var y := a + b;
    assert x[0] == a[0] && x[|x| - 1] == b[|b| - 1];
    assert y[0] == a[0] && y[|y| - 1] == b[|b| - 1];
    ReadTrimmed(x);
    ReadTrimmed(y);
    RemoveGap(a, b);
  }

  /** A text that starts with a digit, has no exponent mark and is no plain numeral raises. */
  lemma {:induction false} SignedInvalid(s: string)
    requires s != [] && IsDigit(s[0]) && 'e' !in s && 'E' !in s && ParseUnsigned(s).None?
    ensures ReadSigned(s) == Invalid
  {
    NoMark(s);
    NotSpecialName(s);
  }

  /** Digits around a space: no underscore, no exponent mark, and no plain numeral. */
  lemma {:induction false} InnerSpaceText(a: string, b: string)
    requires a != [] && IsDigits(a) && b != [] && IsDigits(b)
    ensures var s := a + [' '] + b;
      && IsDigit(s[0]) && IsDigit(s[|s| - 1])
      && '_' !in s && 'e' !in s && 'E' !in s && ParseUnsigned(s).None?
  {
    var s := a + [' '] + b;
    assert s[0] == a[0] && s[|s| - 1] == b[|b| - 1] && s[|a|] == ' ';
    assert forall i :: 0 <= i < |s| ==> s[i] == ' ' || IsDigit(s[i]) by {
      forall i | 0 <= i < |s| ensures s[i] == ' ' || IsDigit(s[i]) {
        if i < |a| { assert s[i] == a[i]; }
        else if i > |a| { assert s[i] == b[i - |a| - 1]; }
      }
    }
  }

  /** A space inside a numeral raises: `Decimal("1 000")` is `InvalidOperation`. */
  lemma {:induction false} ReadInnerSpace(a: string, b: string)
    requires a != [] && IsDigits(a) && b != [] && IsDigits(b)
    ensures ReadDecimal(a + " " + b) == Invalid
  {
    InnerSpaceText(a, b);
    var s := a + [' '] + b;
    ReadUnstripped(s);
    SignedInvalid(s);
  }

  /** The names of special values read, with or without a sign, as values that are not finite. */
  lemma {:induction false} ReadSpecial(name: string)
    requires IsSpecialName(name) && '_' !in name
    requires name != [] && !IsSpace(name[0]) && !IsSpace(name[|name| - 1])
    ensures ReadDecimal(name) == NonFinite
    ensures ReadDecimal(['-'] + name) == NonFinite
  {
    assert !(IsDigit(name[0]) || name[0] == '.' || name[0] == '-' || name[0] == '+') by {
      if IsDigit(name[0]) || name[0] == '.' || name[0] == '-' || name[0] == '+' { NotSpecialName(name); }
    }
    ReadUnstripped(name);
    var signed := ['-'] + name;
    assert signed[|signed| - 1] == name[|name| - 1] && signed[1..] == name;
    assert '_' !in signed;
    ReadUnstripped(signed);
  }

  /** A value with at most two decimal places. */
  predicate IsCents(x: real) {
    (x * 100.0).Floor as real == x * 100.0
  }

  /**
   * `round(x, 2)` on a `Decimal`: the nearest multiple of 0.01, ties to the
   * even multiple (the default rounding of Python's decimal context).
   */
  function Round2(x: real): (r: real)
    ensures IsCents(r)
    ensures Abs(r - x) <= 0.005
  {
    var y := x * 100.0;
    var f := y.Floor;
    var frac := y - f as real;
    var n := if frac < 0.5 then f else if frac > 0.5 then f + 1 else if f % 2 == 0 then f else f + 1;
    assert n as real / 100.0 * 100.0 == n as real;
    n as real / 100.0
  }

  /** Rounding a value that already has two places changes nothing. */
  lemma Round2OfCents(x: real)
    requires IsCents(x)
    ensures Round2(x) == x
  {
    var y := x * 100.0;
    assert y - y.Floor as real == 0.0;
  }

  /** A whole quantity times an amount in cents is an amount in cents. */
  lemma CentsTimesWhole(q: int, p: real)
    requires IsCents(p)
    ensures IsCents(q as real * p)
  {
    var k := (p * 100.0).Floor;
    assert q as real * p * 100.0 == (q * k) as real;
  }
}
