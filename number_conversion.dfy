/**
 * `std::stoi` and `std::stof` as numeric-prefix lexers.
 *
 * Both skip leading C white space, then read the longest numeric prefix of
 * their argument and report the value together with the number of characters
 * consumed (the `idx` out-parameter), or throw when no conversion is possible.
 * A C `int` is `Int32`; a C `float` is modelled by the exact decimal value of
 * the prefix read, as a `real` (rounding to binary32 is not modelled).
 */
module NumberConversion {
  import opened Wrappers

  newtype Int32 = x: int | -0x8000_0000 <= x < 0x8000_0000

  /** The exceptions `stoi` and `stof` throw: `std::invalid_argument` and `std::out_of_range`. */
  datatype ConversionError = InvalidArgument | OutOfRange

  /** `isspace` in the C locale: space, `\t`, `\n`, `\v`, `\f`, `\r`. */
  predicate IsSpace(c: char)
  {
    c == ' ' || '\t' <= c <= '\r'
  }

  predicate IsDigit(c: char)
  {
    '0' <= c <= '9'
  }

  predicate IsSign(c: char)
  {
    c == '+' || c == '-'
  }

  predicate AllDigits(d: string)
  {
    forall k | 0 <= k < |d| :: IsDigit(d[k])
  }

  /** The first index at or after `i` that does not hold white space. */
  function SpaceEnd(s: string, i: nat): (r: nat)
    requires i <= |s|
    ensures i <= r <= |s|
    ensures forall k | i <= k < r :: IsSpace(s[k])
    ensures r < |s| ==> !IsSpace(s[r])
    decreases |s| - i
  {
    if i < |s| && IsSpace(s[i]) then SpaceEnd(s, i + 1) else i
  }

  /** The first index at or after `i` that does not hold a decimal digit. */
  function DigitEnd(s: string, i: nat): (r: nat)
    requires i <= |s|
    ensures i <= r <= |s|
    ensures AllDigits(s[i..r])
    ensures r < |s| ==> !IsDigit(s[r])
    decreases |s| - i
  {
    if i < |s| && IsDigit(s[i]) then
      var r := DigitEnd(s, i + 1);
      assert s[i..r] == [s[i]] + s[i + 1..r];
      r
    else i
  }

  /** DigitEnd is determined by where the run of digits stops. */
  lemma {:induction false} DigitEndAt(s: string, i: nat, e: nat)
    requires i <= e <= |s|
    requires AllDigits(s[i..e])
    requires e < |s| ==> !IsDigit(s[e])
    ensures DigitEnd(s, i) == e
    decreases e - i
  {
    if i < e {
      assert s[i] == s[i..e][0];
      assert s[i + 1..e] == s[i..e][1..];
      DigitEndAt(s, i + 1, e);
    }
  }

  function DigitValue(c: char): (v: nat)
    requires IsDigit(c)
    ensures v < 10
  {
    (c as int) - ('0' as int)
  }

  /** The value of a run of decimal digits, most significant digit first. */
  function DigitsValue(d: string): nat
    requires AllDigits(d)
  {
    if d == [] then 0 else 10 * DigitsValue(d[..|d| - 1]) + DigitValue(d[|d| - 1])
  }

  function Pow10(e: nat): (r: nat)
    ensures r > 0
  {
    if e == 0 then 1 else 10 * Pow10(e - 1)
  }

  /** m * 10^e, exactly. */
  function Scale(m: nat, e: int): real
  {
    if e >= 0 then (m * Pow10(e)) as real else m as real / Pow10(-e) as real
  }

  // ---------------------------------------------------------------- stoi

  /** The text at hand starts with an optional sign followed by a digit. */
  predicate BeginsInteger(t: string)
  {
    var k := if t != [] && IsSign(t[0]) then 1 else 0;
    k < |t| && IsDigit(t[k])
  }

  /**
   * What `strtol(s, &end, 10)` reads: white space, an optional sign and the
   * longest run of digits after it; the value and the length read, or `None`
   * when there is no digit to read.
   */
  function IntegerPrefix(s: string): (r: Option<(int, nat)>)
    ensures r.None? <==> !BeginsInteger(s[SpaceEnd(s, 0)..])
    ensures r.Some? ==> SpaceEnd(s, 0) < r.value.1 <= |s|
    ensures r.Some? && r.value.1 < |s| ==> !IsDigit(s[r.value.1])
  {
    var w := SpaceEnd(s, 0);
    var d0 := if w < |s| && IsSign(s[w]) then w + 1 else w;
    var d1 := DigitEnd(s, d0);
    if d1 == d0 then None
    else
      var mag: int := DigitsValue(s[d0..d1]);
      Some((if d0 > w && s[w] == '-' then -mag else mag, d1))
  }

  /**
   * `std::stoi(s, &idx)`: `invalid_argument` when nothing converts,
   * `out_of_range` when the value does not fit an `int`; otherwise the value
   * and `idx`, the number of characters consumed.
   */
  function Stoi(s: string): (r: Result<(Int32, nat), ConversionError>)
    ensures r == Err(InvalidArgument) <==> !BeginsInteger(s[SpaceEnd(s, 0)..])
    ensures r.Ok? ==> 0 < r.value.1 <= |s| && (r.value.1 < |s| ==> !IsDigit(s[r.value.1]))
    ensures r.Ok? ==> r.value.0 as int == IntegerPrefix(s).value.0 && r.value.1 == IntegerPrefix(s).value.1
    ensures r == Err(OutOfRange) ==> IntegerPrefix(s).Some? && !(-0x8000_0000 <= IntegerPrefix(s).value.0 < 0x8000_0000)
  {
    match IntegerPrefix(s)
    case None => Err(InvalidArgument)
    case Some((v, n)) =>
      if -0x8000_0000 <= v < 0x8000_0000 then Ok((v as Int32, n)) else Err(OutOfRange)
  }

  /** Decimal rendering of a natural number, without leading zeros. */
  function NatToDecimal(n: nat): (d: string)
    ensures d != [] && AllDigits(d)
  {
    if n < 10 then ['0' + n as char]
    else NatToDecimal(n / 10) + ['0' + (n % 10) as char]
  }

  /** Decimal rendering of an integer, as `std::to_string` writes it. */
  function IntToDecimal(n: int): (d: string)
  {
    if n < 0 then "-" + NatToDecimal(-n) else NatToDecimal(n)
  }

  lemma {:induction false} DigitsValueOfDecimal(n: nat)
    ensures DigitsValue(NatToDecimal(n)) == n
  {
    if n >= 10 {
      var d := NatToDecimal(n);
      assert d[..|d| - 1] == NatToDecimal(n / 10);
      DigitsValueOfDecimal(n / 10);
    }
  }

  /**
   * Round trip: `stoi` reads back the decimal rendering of every `int`,
   * consuming exactly that rendering, whatever non-digit text follows it.
   */
  lemma StoiReadsDecimal(n: Int32, rest: string)
    requires rest == [] || !IsDigit(rest[0])
    ensures Stoi(IntToDecimal(n as int) + rest) == Ok((n, |IntToDecimal(n as int)|))
  {
    var s := IntToDecimal(n as int) + rest;
    var mag: nat := if n < 0 then -(n as int) else n as int;
    var d := NatToDecimal(mag);
    var d0 := if n < 0 then 1 else 0;
    assert s[d0..d0 + |d|] == d;
    assert !IsSpace(s[0]);
    assert SpaceEnd(s, 0) == 0;
    assert d0 == 1 <==> IsSign(s[0]);
    DigitEndAt(s, d0, d0 + |d|);
    DigitsValueOfDecimal(mag);
  }

  // ---------------------------------------------------------------- stof

  /** The text at hand starts with an optional sign, then a digit or a point and a digit. */
  predicate BeginsDecimal(t: string)
  {
    var k := if t != [] && IsSign(t[0]) then 1 else 0;
    (k < |t| && IsDigit(t[k])) || (k + 1 < |t| && t[k] == '.' && IsDigit(t[k + 1]))
  }

  /** Where the digits of an exponent marker at `i` start: after the `e` or `E` and an optional sign. */
  function ExponentDigitsStart(s: string, i: nat): (d0: nat)
    requires i < |s|
    ensures i + 1 <= d0 <= i + 2 && d0 <= |s| + 1
  {
    if i + 1 < |s| && IsSign(s[i + 1]) then i + 2 else i + 1
  }

  /** A complete exponent starts at `i`: `e` or `E`, an optional sign and a digit. */
  predicate BeginsExponent(s: string, i: nat)
  {
    i < |s| && (s[i] == 'e' || s[i] == 'E') &&
    ExponentDigitsStart(s, i) < |s| && IsDigit(s[ExponentDigitsStart(s, i)])
  }

  /**
   * The exponent part strtof reads at `i`: `e` or `E`, an optional sign and at
   * least one digit; the exponent and the index after it, or `(0, i)` when no
   * complete exponent is there.
   */
  function ExponentPart(s: string, i: nat): (r: (int, nat))
    requires i <= |s|
    ensures i <= r.1 <= |s|
    ensures r.1 > i <==> BeginsExponent(s, i)
    ensures !BeginsExponent(s, i) ==> r == (0, i)
    ensures BeginsExponent(s, i) ==>
      var d0 := ExponentDigitsStart(s, i);
      d0 < r.1 && AllDigits(s[d0..r.1]) && (r.1 == |s| || !IsDigit(s[r.1])) &&
      r.0 == (if s[d0 - 1] == '-' then -(DigitsValue(s[d0..r.1]) as int) else DigitsValue(s[d0..r.1]))
  {
    if i < |s| && (s[i] == 'e' || s[i] == 'E') then
      var d0 := ExponentDigitsStart(s, i);
      var d1 := DigitEnd(s, d0);
      if d1 == d0 then (0, i)
      else
        var mag: int := DigitsValue(s[d0..d1]);
        (if d0 == i + 2 && s[i + 1] == '-' then -mag else mag, d1)
    else (0, i)
  }

  /**
   * What `strtof(s, &end)` reads in decimal notation: white space, an optional
   * sign, digits with at most one decimal point (at least one digit in all), and
   * an optional exponent. The exact value and the length read, or `None` when
   * there is no number to read.
   */
  function DecimalPrefix(s: string): (r: Option<(real, nat)>)
    ensures r.None? <==> !BeginsDecimal(s[SpaceEnd(s, 0)..])
    ensures r.Some? ==> SpaceEnd(s, 0) < r.value.1 <= |s|
    ensures r.Some? && r.value.1 < |s| ==> !IsDigit(s[r.value.1])
  {
    var w := SpaceEnd(s, 0);
    var m0 := if w < |s| && IsSign(s[w]) then w + 1 else w;
    var i1 := DigitEnd(s, m0);
    var hasPoint := i1 < |s| && s[i1] == '.';
    var f1 := if hasPoint then DigitEnd(s, i1 + 1) else i1;
    var fracLen := if hasPoint then f1 - (i1 + 1) else 0;
    if i1 - m0 + fracLen == 0 then None
    else
      var exp := ExponentPart(s, f1);
      var digits := s[m0..i1] + (if hasPoint then s[i1 + 1..f1] else "");
      var mag := Scale(DigitsValue(digits), exp.0 - fracLen);
      Some((if m0 > w && s[w] == '-' then -mag else mag, exp.1))
  }

  /**
   * `std::stof(s, &idx)`: `invalid_argument` when nothing converts, otherwise
   * the value and `idx`, the number of characters consumed.
   */
  function Stof(s: string): (r: Result<(real, nat), ConversionError>)
    ensures r.Err? <==> !BeginsDecimal(s[SpaceEnd(s, 0)..])
    ensures r.Err? ==> r.error == InvalidArgument
    ensures r.Ok? ==> 0 < r.value.1 <= |s| && (r.value.1 < |s| ==> !IsDigit(s[r.value.1]))
  {
    match DecimalPrefix(s)
    case None => Err(InvalidArgument)
    case Some(p) => Ok(p)
  }

  /** `stof` rejects a text whose first character is none of a space, a sign, a digit or a point. */
  lemma StofRejectsWord(t: string)
    requires t != [] && !IsSpace(t[0]) && !IsSign(t[0]) && !IsDigit(t[0]) && t[0] != '.'
    ensures Stof(t).Err?
  {
    assert SpaceEnd(t, 0) == 0;
    assert t[0..] == t;
  }

  /** `stof` rejects a sign followed by a character that is neither a digit nor a point. */
  lemma StofRejectsSignedWord(t: string)
    requires |t| >= 2 && IsSign(t[0]) && !IsDigit(t[1]) && t[1] != '.'
    ensures Stof(t).Err?
  {
    assert SpaceEnd(t, 0) == 0;
    assert t[0..] == t;
  }

  /** `strtof` on fixed-point notation laid out in `s`: digits up to `i1`, a point, digits up to `f1`. */
  lemma DecimalPrefixFixedPointAt(s: string, i1: nat, f1: nat)
    requires 0 < i1 < f1 <= |s| && s[i1] == '.'
    requires AllDigits(s[0..i1]) && AllDigits(s[i1 + 1..f1])
    requires f1 < |s| ==> !IsDigit(s[f1]) && s[f1] != 'e' && s[f1] != 'E'
    ensures DecimalPrefix(s).Some?
    ensures DecimalPrefix(s).value.0 == Scale(DigitsValue(s[0..i1] + s[i1 + 1..f1]), 0 - (f1 - (i1 + 1)))
    ensures DecimalPrefix(s).value.1 == f1
  {
    assert IsDigit(s[0]) by {
      assert s[0] == s[0..i1][0];
    }
    assert SpaceEnd(s, 0) == 0;
    DigitEndAt(s, 0, i1);
    DigitEndAt(s, i1 + 1, f1);
    assert ExponentPart(s, f1) == (0, f1);
  }

  /** `stof` on fixed-point notation laid out in `s`, as `DecimalPrefixFixedPointAt` reads it. */
  lemma StofReadsFixedPointAt(s: string, i1: nat, f1: nat)
    requires 0 < i1 < f1 <= |s| && s[i1] == '.'
    requires AllDigits(s[0..i1]) && AllDigits(s[i1 + 1..f1])
    requires f1 < |s| ==> !IsDigit(s[f1]) && s[f1] != 'e' && s[f1] != 'E'
    ensures Stof(s).Ok?
    ensures Stof(s).value.0 == Scale(DigitsValue(s[0..i1] + s[i1 + 1..f1]), 0 - (f1 - (i1 + 1)))
    ensures Stof(s).value.1 == f1
  {
    DecimalPrefixFixedPointAt(s, i1, f1);
  }

  /** The value of fixed-point digits `ip` and `fp`, as `StofReadsFixedPointAt` scales them. */
  lemma FixedPointValue(ip: string, fp: string)
    requires AllDigits(ip) && AllDigits(fp)
    ensures AllDigits(ip + fp)
    ensures Scale(DigitsValue(ip + fp), 0 - |fp|) == DigitsValue(ip + fp) as real / Pow10(|fp|) as real
  {
  }

  /** `strtof` on integer notation laid out in `s`: digits up to `i1`, then nothing that continues a number. */
  lemma DecimalPrefixIntegerAt(s: string, i1: nat)
    requires 0 < i1 <= |s| && AllDigits(s[0..i1])
    requires i1 < |s| ==> !IsDigit(s[i1]) && s[i1] != '.' && s[i1] != 'e' && s[i1] != 'E'
    ensures DecimalPrefix(s) == Some((DigitsValue(s[0..i1]) as real, i1))
  {
    assert IsDigit(s[0]) by {
      assert s[0] == s[0..i1][0];
    }
    assert SpaceEnd(s, 0) == 0;
    DigitEndAt(s, 0, i1);
    assert ExponentPart(s, i1) == (0, i1);
    assert s[0..i1] + "" == s[0..i1];
  }

  /** `stof` on digits followed by anything that cannot continue the number: their integer value, all of them consumed. */
  lemma StofReadsInteger(ip: string, rest: string)
    requires ip != [] && AllDigits(ip)
    requires rest == [] || (!IsDigit(rest[0]) && rest[0] != '.' && rest[0] != 'e' && rest[0] != 'E')
    ensures Stof(ip + rest) == Ok((DigitsValue(ip) as real, |ip|))
  {
    var s := ip + rest;
    assert s[0..|ip|] == ip;
    assert |ip| < |s| ==> s[|ip|] == rest[0];
    DecimalPrefixIntegerAt(s, |ip|);
  }

  /** An optional sign written out: nothing, `+` or `-`. */
  predicate IsSignText(sign: string)
  {
    |sign| <= 1 && (sign != [] ==> IsSign(sign[0]))
  }

  /** A magnitude with the optional sign `sign` in front of it. */
  function ApplySign(sign: string, v: nat): int
  {
    if sign != [] && sign[0] == '-' then -(v as int) else v
  }

  /** An exponent laid out at `f1`: the marker, the optional sign `sign`, digits up to `e1`, then no digit. */
  predicate ExponentLaidOut(s: string, f1: nat, sign: string, e1: nat)
  {
    f1 + 1 + |sign| < e1 <= |s| && (s[f1] == 'e' || s[f1] == 'E') &&
    IsSignText(sign) && s[f1 + 1..f1 + 1 + |sign|] == sign &&
    AllDigits(s[f1 + 1 + |sign|..e1]) && (e1 < |s| ==> !IsDigit(s[e1]))
  }

  /** `strtof` reads a laid-out exponent up to `e1`, with its sign. */
  lemma ExponentAt(s: string, f1: nat, sign: string, ep: string, e1: nat)
    requires ExponentLaidOut(s, f1, sign, e1) && s[f1 + 1 + |sign|..e1] == ep
    ensures AllDigits(ep)
    ensures ExponentPart(s, f1) == (ApplySign(sign, DigitsValue(ep)), e1)
  {
    var d0 := f1 + 1 + |sign|;
    assert IsDigit(s[d0]) by {
      assert s[d0] == s[d0..e1][0];
    }
    if sign != [] {
      assert s[f1 + 1] == s[f1 + 1..d0][0];
    }
    assert ExponentDigitsStart(s, f1) == d0;
    DigitEndAt(s, d0, e1);
  }

  /** `strtof` on scientific notation laid out in `s`: digits up to `i1`, a point, digits up to `f1`, an exponent. */
  lemma DecimalPrefixScientificAt(s: string, i1: nat, f1: nat)
    requires 0 < i1 < f1 <= |s| && s[i1] == '.'
    requires AllDigits(s[0..i1]) && AllDigits(s[i1 + 1..f1]) && (f1 < |s| ==> !IsDigit(s[f1]))
    ensures DecimalPrefix(s) ==
      Some((Scale(DigitsValue(s[0..i1] + s[i1 + 1..f1]), ExponentPart(s, f1).0 - (f1 - (i1 + 1))), ExponentPart(s, f1).1))
  {
    assert IsDigit(s[0]) by {
      assert s[0] == s[0..i1][0];
    }
    assert SpaceEnd(s, 0) == 0;
    DigitEndAt(s, 0, i1);
    DigitEndAt(s, i1 + 1, f1);
  }

  /**
   * `stof` on a token in scientific notation: digits, a point, digits, `e` or
   * `E`, an optional sign and digits, read as the mantissa times ten to the
   * exponent, and consumed whole.
   */
  lemma {:induction false} StofReadsScientific(ip: string, fp: string, e: char, sign: string, ep: string)
    requires ip != [] && AllDigits(ip) && AllDigits(fp) && ep != [] && AllDigits(ep)
    requires (e == 'e' || e == 'E') && IsSignText(sign)
    ensures Stof(ip + "." + fp + ([e] + sign + ep)).Ok?
    ensures Stof(ip + "." + fp + ([e] + sign + ep)).value.0 ==
      Scale(DigitsValue(ip + fp), ApplySign(sign, DigitsValue(ep)) - |fp|)
    ensures Stof(ip + "." + fp + ([e] + sign + ep)).value.1 == |ip| + 1 + |fp| + 1 + |sign| + |ep|
  {
    DecimalPrefixPoint(ip, fp, [e] + sign + ep);
    ExponentFollows(ip + "." + fp, e, sign, ep);
  }

  /** `strtof` on digits, a point and digits followed by no digit: the exponent that follows scales them. */
  lemma {:induction false} DecimalPrefixPoint(ip: string, fp: string, rest: string)
    requires ip != [] && AllDigits(ip) && AllDigits(fp)
    requires rest == [] || !IsDigit(rest[0])
    ensures DecimalPrefix(ip + "." + fp + rest) == Some((
      Scale(DigitsValue(ip + fp), ExponentPart(ip + "." + fp + rest, |ip + "." + fp|).0 - |fp|),
      ExponentPart(ip + "." + fp + rest, |ip + "." + fp|).1))
  {
    MantissaLayout(ip, fp, rest);
    DecimalPrefixScientificAt(ip + "." + fp + rest, |ip|, |ip + "." + fp|);
  }

  /** The layout of digits, a point and digits followed by no digit, with the point at `|ip|` and the fraction ending at `|ip + "." + fp|`. */
  lemma {:induction false} MantissaLayout(ip: string, fp: string, rest: string)
    requires ip != [] && AllDigits(ip) && AllDigits(fp)
    requires rest == [] || !IsDigit(rest[0])
    ensures var s := ip + "." + fp + rest;
      var f1 := |ip + "." + fp|;
      0 < |ip| < f1 <= |s| && s[|ip|] == '.' && f1 - (|ip| + 1) == |fp| &&
      AllDigits(s[0..|ip|]) && AllDigits(s[|ip| + 1..f1]) && (f1 < |s| ==> !IsDigit(s[f1])) &&
      s[0..|ip|] + s[|ip| + 1..f1] == ip + fp
  {
    var s := ip + "." + fp + rest;
    var f1 := |ip + "." + fp|;
    assert s[0..|ip|] == ip && s[|ip|] == '.' && s[|ip| + 1..f1] == fp;
    assert f1 < |s| ==> s[f1] == rest[0];
  }

  /** An exponent at the end of a token, after the text `m`: its signed value, and the token's end. */
  lemma {:induction false} ExponentFollows(m: string, e: char, sign: string, ep: string)
    requires (e == 'e' || e == 'E') && IsSignText(sign) && ep != [] && AllDigits(ep)
    ensures ExponentPart(m + ([e] + sign + ep), |m|) == (ApplySign(sign, DigitsValue(ep)), |m| + 1 + |sign| + |ep|)
  {
    var s := m + ([e] + sign + ep);
    ExponentTail(m, e, sign, ep);
    ExponentAt(s, |m|, sign, ep, |s|);
  }

  /** The layout of an exponent at the end of a token, after the text `m`. */
  lemma {:induction false} ExponentTail(m: string, e: char, sign: string, ep: string)
    requires (e == 'e' || e == 'E') && IsSignText(sign) && ep != [] && AllDigits(ep)
    ensures var s := m + ([e] + sign + ep);
      ExponentLaidOut(s, |m|, sign, |s|) && s[|m| + 1 + |sign|..|s|] == ep
  {
    var s := m + ([e] + sign + ep);
    var d0 := |m| + 1 + |sign|;
    assert s[|m|] == e && s[|m| + 1..d0] == sign && s[d0..|s|] == ep;
  }

  /**
   * `stof` on fixed-point notation: digits, a point and digits, followed by
   * anything that cannot continue the number, read as the exact decimal value.
   */
  lemma StofReadsFixedPoint(ip: string, fp: string, rest: string)
    requires ip != [] && AllDigits(ip) && AllDigits(fp)
    requires rest == [] || (!IsDigit(rest[0]) && rest[0] != 'e' && rest[0] != 'E')
    ensures Stof(ip + "." + fp + rest).Ok?
    ensures Stof(ip + "." + fp + rest).value.0 == DigitsValue(ip + fp) as real / Pow10(|fp|) as real
    ensures Stof(ip + "." + fp + rest).value.1 == |ip| + 1 + |fp|
  {
    var s := ip + "." + fp + rest;
    var i1 := |ip|;
    var f1 := i1 + 1 + |fp|;
    assert s[0..i1] == ip && s[i1] == '.' && s[i1 + 1..f1] == fp;
    assert f1 < |s| ==> s[f1] == rest[0];
    StofReadsFixedPointAt(s, i1, f1);
    FixedPointValue(ip, fp);
  }
}
