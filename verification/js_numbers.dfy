/** The number conversions of the JavaScript runtime that the components apply
    to form strings (`parseFloat`, `Number`, `x || 0`, `Math.round`,
    `toString`), over exact reals. Only plain decimal numerals are read:
    an optional sign, digits, an optional point and fraction digits. */
module JsNumbers {
  import opened Wrappers
  import Text

  /** A JavaScript number as far as the components use it: a finite value or NaN. */
  datatype Num = Finite(v: real) | NaN

  predicate IsDigit(c: char)
  {
    '0' <= c <= '9'
  }

  predicate IsDigits(s: string)
  {
    forall i :: 0 <= i < |s| ==> IsDigit(s[i])
  }

  /** The value of a string of decimal digits, most significant first. */
  function DigitsValue(s: string): nat
    requires IsDigits(s)
  {
    if s == "" then 0 else 10 * DigitsValue(s[..|s| - 1]) + (s[|s| - 1] as int - '0' as int)
  }

  /** The value of the digits after a decimal point: each digit is worth a
      tenth of the one before it, so "25" is 0.25. */
  function FractionValue(s: string): (r: real)
    requires IsDigits(s)
    ensures 0.0 <= r < 1.0
  {
    if s == "" then 0.0 else ((s[0] as int - '0' as int) as real + FractionValue(s[1..])) / 10.0
  }

  function Pow10(n: nat): (p: nat)
    ensures p >= 1
  {
    if n == 0 then 1 else 10 * Pow10(n - 1)
  }

  /** Read from the front, the first digit is worth its place value. */
  lemma {:induction false} DigitsValueFront(s: string)
    requires s != "" && IsDigits(s)
    ensures DigitsValue(s) == (s[0] as int - '0' as int) * Pow10(|s| - 1) + DigitsValue(s[1..])
  {
    if |s| == 1 {
      assert s[..0] == "" && s[1..] == "";
    } else {
      var t := s[..|s| - 1];
      DigitsValueFront(t);
      assert t[0] == s[0];
      assert s[1..][..|s| - 2] == t[1..];
      Regroup(s[0] as int - '0' as int, Pow10(|s| - 2), DigitsValue(t[1..]), s[|s| - 1] as int - '0' as int);
    }
  }

  lemma Regroup(d: int, p: int, x: int, y: int)
    ensures 10 * (d * p + x) + y == d * (10 * p) + (10 * x + y)
  {
  }

  /** `f` times `p` is `v`. */
  predicate ScaledTo(f: real, p: nat, v: nat)
  {
    f * p as real == v as real
  }

  /** Fraction digits of length n are worth their integer value over 10 to the n. */
  lemma {:induction false} FractionScaled(s: string)
    requires IsDigits(s)
    ensures ScaledTo(FractionValue(s), Pow10(|s|), DigitsValue(s))
  {
    if s != "" {
      FractionScaled(s[1..]);
      DigitsValueFront(s);
      ShiftTenth(FractionValue(s), Pow10(|s|), s[0] as int - '0' as int,
                 FractionValue(s[1..]), Pow10(|s| - 1), DigitsValue(s[1..]), DigitsValue(s));
    }
  }

  lemma ShiftTenth(fs: real, ps: nat, d: nat, f: real, p: nat, x: nat, v: nat)
    requires fs == (d as real + f) / 10.0 && ps == 10 * p
    requires ScaledTo(f, p, x) && v == d * p + x
    ensures ScaledTo(fs, ps, v)
  {
    assert fs * ps as real == (d as real + f) * p as real;
  }

  /** How many digits follow one another in `s` from position `i` on. */
  function DigitRun(s: string, i: nat): (n: nat)
    requires i <= |s|
    ensures i + n <= |s| && forall j :: i <= j < i + n ==> IsDigit(s[j])
    ensures i + n == |s| || !IsDigit(s[i + n])
    decreases |s| - i
  {
    if i == |s| || !IsDigit(s[i]) then 0 else 1 + DigitRun(s, i + 1)
  }

  /** `s` without its leading whitespace. */
  function TrimStart(s: string): (r: string)
    ensures |r| <= |s|
  {
    if s != "" && Text.IsWhitespace(s[0]) then TrimStart(s[1..]) else s
  }

  /** What `TrimStart` removes is whitespace, and all of it: the result is a
      suffix of `s` that does not start with whitespace. */
  lemma {:induction false} TrimStartSuffix(s: string)
    ensures TrimStart(s) == s[|s| - |TrimStart(s)|..]
    ensures TrimStart(s) == "" || !Text.IsWhitespace(TrimStart(s)[0])
    ensures forall i :: 0 <= i < |s| - |TrimStart(s)| ==> Text.IsWhitespace(s[i])
  {
    if s != "" && Text.IsWhitespace(s[0]) {
      TrimStartSuffix(s[1..]);
      var r := TrimStart(s);
      forall i | 0 < i < |s| - |r| ensures Text.IsWhitespace(s[i]) {
        assert s[i] == s[1..][i - 1];
      }
    }
  }

  /** `s` without its trailing whitespace. */
  function TrimEnd(s: string): (r: string)
    ensures |r| <= |s|
  {
    if s != "" && Text.IsWhitespace(s[|s| - 1]) then TrimEnd(s[..|s| - 1]) else s
  }

  /** What `TrimEnd` removes is whitespace, and all of it: the result is a
      prefix of `s` that does not end with whitespace. */
  lemma {:induction false} TrimEndPrefix(s: string)
    ensures TrimEnd(s) == s[..|TrimEnd(s)|]
    ensures TrimEnd(s) == "" || !Text.IsWhitespace(TrimEnd(s)[|TrimEnd(s)| - 1])
    ensures forall i :: |TrimEnd(s)| <= i < |s| ==> Text.IsWhitespace(s[i])
  {
    if s != "" && Text.IsWhitespace(s[|s| - 1]) {
      TrimEndPrefix(s[..|s| - 1]);
      var r := TrimEnd(s);
      forall i | |r| <= i < |s| - 1 ensures Text.IsWhitespace(s[i]) {
        assert s[i] == s[..|s| - 1][i];
      }
    }
  }

  /** `s.trim()`. */
  function Trim(s: string): string
  {
    TrimEnd(TrimStart(s))
  }

  /** The length of the sign a numeral may start with: 1 for '-' or '+', else 0. */
  function SignLength(s: string): (k: nat)
    ensures k <= |s|
  {
    if s != "" && (s[0] == '-' || s[0] == '+') then 1 else 0
  }

  /** The digits of an unsigned decimal numeral: the whole part, whether a
      point follows it, and the fraction digits after the point. */
  datatype Lexeme = Lexeme(whole: string, pointed: bool, fraction: string)
  {
    /** How many characters the numeral spans. */
    function Length(): nat
    {
      |whole| + (if pointed then 1 + |fraction| else 0)
    }
  }

  /** The unsigned decimal numeral that starts at position `k` of `s`: the
      longest run of digits, then optionally a point and the run of digits
      after it, with at least one digit in all; None when there is none. */
  function LexAt(s: string, k: nat): (r: Option<Lexeme>)
    requires k <= |s|
    ensures r.Some? ==> IsDigits(r.value.whole) && IsDigits(r.value.fraction)
    ensures r.Some? ==> (r.value.whole != "" || r.value.fraction != "") && 0 < r.value.Length() <= |s| - k
  {
    var w := DigitRun(s, k);
    RunIsDigits(s, k, w);
    if k + w < |s| && s[k + w] == '.' then
      var f := DigitRun(s, k + w + 1);
      RunIsDigits(s, k + w + 1, f);
      if w + f == 0 then None
      else Some(Lexeme(s[k..k + w], true, s[k + w + 1..k + w + 1 + f]))
    else if w == 0 then None
    else Some(Lexeme(s[k..k + w], false, ""))
  }

  lemma RunIsDigits(s: string, i: nat, n: nat)
    requires i + n <= |s| && forall j :: i <= j < i + n ==> IsDigit(s[j])
    ensures IsDigits(s[i..i + n])
  {
    var d := s[i..i + n];
    forall j | 0 <= j < n ensures IsDigit(d[j]) {
      assert d[j] == s[i + j];
    }
  }

  /** The value of an unsigned numeral: its whole part plus its fraction. */
  function Magnitude(l: Lexeme): (m: real)
    requires IsDigits(l.whole) && IsDigits(l.fraction)
    ensures DigitsValue(l.whole) as real <= m < DigitsValue(l.whole) as real + 1.0
  {
    DigitsValue(l.whole) as real + FractionValue(l.fraction)
  }

  /** The longest prefix of `s` that reads as an optionally signed decimal
      numeral: its value and its length, or None when it holds no digit. */
  function ScanDecimal(s: string): (r: Option<(real, nat)>)
    ensures r.Some? ==> 0 < r.value.1 <= |s|
  {
    var k := SignLength(s);
    match LexAt(s, k)
    case None => None
    case Some(l) => Some((if k == 1 && s[0] == '-' then -Magnitude(l) else Magnitude(l), k + l.Length()))
  }

  /** `parseFloat(s)`: the numeral at the start of `s` after leading whitespace;
      whatever follows it is ignored. */
  function ParseFloat(s: string): Num
  {
    match ScanDecimal(TrimStart(s))
    case None => NaN
    case Some((v, _)) => Finite(v)
  }

  /** `Number(s)`: the whole trimmed string must be a numeral; blank is 0. */
  function ToNumber(s: string): Num
  {
    var t := Trim(s);
    if t == "" then Finite(0.0)
    else match ScanDecimal(t)
      case Some((v, n)) => if n == |t| then Finite(v) else NaN
      case None => NaN
  }

  /** JavaScript truthiness of a number: neither 0 nor NaN. */
  predicate Truthy(n: Num)
  {
    n.Finite? && n.v != 0.0
  }

  /** `n || 0`. */
  function OrZero(n: Num): real
  {
    if Truthy(n) then n.v else 0.0
  }

  /** `Math.round(x)`: the nearest integer, halves rounded up. */
  function Round(x: real): int
  {
    (x + 0.5).Floor
  }

  function DigitChar(d: nat): (c: char)
    requires d < 10
    ensures IsDigit(c) && c as int - '0' as int == d
  {
    ('0' as int + d) as char
  }

  /** `n.toString()` for a non-negative integer. */
  function NatToString(n: nat): (s: string)
    ensures s != "" && IsDigits(s)
  {
    if n < 10 then [DigitChar(n)] else NatToString(n / 10) + [DigitChar(n % 10)]
  }

  /** Reading back the digits `toString` writes gives the integer again. */
  lemma {:induction false} NatToStringValue(n: nat)
    ensures DigitsValue(NatToString(n)) == n
  {
    var s := NatToString(n);
    if n < 10 {
      assert s[..|s| - 1] == "";
    } else {
      NatToStringValue(n / 10);
      assert s[..|s| - 1] == NatToString(n / 10);
    }
  }

  /** A string of digits is only digits after trimming, with nothing to skip. */
  lemma DigitsTrim(d: string)
    requires d != "" && IsDigits(d)
    ensures TrimStart(d) == d && Trim(d) == d
  {
    assert IsDigit(d[0]) && IsDigit(d[|d| - 1]);
  }

  /** `parseFloat` and `Number` both read a non-empty digit string as its value. */
  lemma DigitsParse(d: string)
    requires d != "" && IsDigits(d)
    ensures ParseFloat(d) == Finite(DigitsValue(d) as real)
    ensures ToNumber(d) == Finite(DigitsValue(d) as real)
  {
    DigitsTrim(d);
    ScanDigits(d);
  }

  /** The scan reads a whole digit string as one numeral. */
  lemma ScanDigits(d: string)
    requires d != "" && IsDigits(d)
    ensures ScanDecimal(d) == Some((DigitsValue(d) as real, |d|))
  {
    ScanWhole("", d, "");
    assert "" + d + "" == d;
  }

  /** Digits from position `i` up to position `i + m`, ended by the end of
      `s` or by a non-digit, form a run of length `m`. */
  lemma {:induction false} DigitRunStop(s: string, i: nat, m: nat)
    requires i + m <= |s| && forall j :: i <= j < i + m ==> IsDigit(s[j])
    requires i + m == |s| || !IsDigit(s[i + m])
    ensures DigitRun(s, i) == m
    decreases m
  {
    if m > 0 {
      DigitRunStop(s, i + 1, m - 1);
    }
  }

  /** The digits of `s[i..i + |d|] == d` form a run of length `|d|` when
      nothing but the end of `s` or a non-digit follows them. */
  lemma RunOf(s: string, i: nat, d: string)
    requires IsDigits(d) && i + |d| <= |s| && s[i..i + |d|] == d
    requires i + |d| == |s| || !IsDigit(s[i + |d|])
    ensures DigitRun(s, i) == |d|
  {
    forall j | i <= j < i + |d| ensures IsDigit(s[j]) {
      assert s[j] == s[i..i + |d|][j - i];
    }
    DigitRunStop(s, i, |d|);
  }

  /** The sign a numeral may start with. */
  predicate IsSign(sign: string)
  {
    sign == "" || sign == "-" || sign == "+"
  }

  function Signed(sign: string, magnitude: real): real
  {
    if sign == "-" then -magnitude else magnitude
  }

  /** A numeral's sign is read off before the digits: a sign followed by an
      unsigned numeral scans as that numeral, negated for '-'. */
  lemma ScanFromLexeme(s: string, sign: string, l: Lexeme)
    requires IsSign(sign) && |sign| < |s| && s[..|sign|] == sign
    requires IsDigit(s[|sign|]) || s[|sign|] == '.'
    requires LexAt(s, |sign|) == Some(l)
    ensures ScanDecimal(s) == Some((Signed(sign, Magnitude(l)), |sign| + l.Length()))
  {
    SignOf(s, sign);
  }

  /** Where the sign at the front of `s` ends and whether it negates. */
  lemma SignOf(s: string, sign: string)
    requires IsSign(sign) && |sign| < |s| && s[..|sign|] == sign
    requires IsDigit(s[|sign|]) || s[|sign|] == '.'
    ensures SignLength(s) == |sign|
    ensures (|sign| == 1 && s[0] == '-') == (sign == "-")
  {
    if sign != "" {
      assert s[0] == s[..|sign|][0];
    }
  }

  /** Where the parts of a sign, digits, a point, more digits and a rest lie. */
  lemma PointedLayout(sign: string, whole: string, fraction: string, rest: string)
    ensures var s := sign + whole + "." + fraction + rest;
            var p := |sign| + |whole|;
            && |s| == p + 1 + |fraction| + |rest|
            && s[..|sign|] == sign && s[|sign|..p] == whole && s[p] == '.'
            && s[p + 1..p + 1 + |fraction|] == fraction
            && (rest != "" ==> s[p + 1 + |fraction|] == rest[0])
  {
  }

  /** Where the parts of a sign, digits and a rest lie. */
  lemma WholeLayout(sign: string, whole: string, rest: string)
    ensures var s := sign + whole + rest;
            && |s| == |sign| + |whole| + |rest|
            && s[..|sign|] == sign && s[|sign|..|sign| + |whole|] == whole
            && (rest != "" ==> s[|sign| + |whole|] == rest[0])
  {
  }

  /** Digits, a point and more digits (at least one digit in all), then
      anything but a digit: exactly those digits form the numeral. */
  lemma LexPointed(sign: string, whole: string, fraction: string, rest: string)
    requires IsDigits(whole) && IsDigits(fraction) && (whole != "" || fraction != "")
    requires rest == "" || !IsDigit(rest[0])
    ensures LexAt(sign + whole + "." + fraction + rest, |sign|) == Some(Lexeme(whole, true, fraction))
  {
    var s := sign + whole + "." + fraction + rest;
    var p := |sign| + |whole|;
    PointedLayout(sign, whole, fraction, rest);
    RunOf(s, |sign|, whole);
    RunOf(s, p + 1, fraction);
  }

  /** Digits followed by neither a digit nor a point: exactly those digits
      form the numeral. */
  lemma LexWhole(sign: string, whole: string, rest: string)
    requires IsDigits(whole) && whole != ""
    requires rest == "" || (!IsDigit(rest[0]) && rest[0] != '.')
    ensures LexAt(sign + whole + rest, |sign|) == Some(Lexeme(whole, false, ""))
  {
    var s := sign + whole + rest;
    WholeLayout(sign, whole, rest);
    RunOf(s, |sign|, whole);
  }

  /** A sign, digits, a point and more digits (at least one digit in all), and
      then anything but a digit: the scan reads the signed whole part plus the
      fraction and stops right after the last fraction digit. */
  lemma ScanPointed(sign: string, whole: string, fraction: string, rest: string)
    requires IsSign(sign) && IsDigits(whole) && IsDigits(fraction) && (whole != "" || fraction != "")
    requires rest == "" || !IsDigit(rest[0])
    ensures ScanDecimal(sign + whole + "." + fraction + rest)
         == Some((Signed(sign, Magnitude(Lexeme(whole, true, fraction))), |sign| + |whole| + 1 + |fraction|))
    ensures Magnitude(Lexeme(whole, true, fraction)) == DigitsValue(whole) as real + FractionValue(fraction)
  {
    ScanPointedLexeme(sign, whole, fraction, rest);
    PointedLength(sign, Magnitude(Lexeme(whole, true, fraction)), whole, fraction);
  }

  lemma ScanPointedLexeme(sign: string, whole: string, fraction: string, rest: string)
    requires IsSign(sign) && IsDigits(whole) && IsDigits(fraction) && (whole != "" || fraction != "")
    requires rest == "" || !IsDigit(rest[0])
    ensures ScanDecimal(sign + whole + "." + fraction + rest)
         == Some((Signed(sign, Magnitude(Lexeme(whole, true, fraction))), |sign| + Lexeme(whole, true, fraction).Length()))
  {
    var s := sign + whole + "." + fraction + rest;
    PointedLayout(sign, whole, fraction, rest);
    assert IsDigit(s[|sign|]) || s[|sign|] == '.' by {
      if whole != "" {
        assert s[|sign|] == s[|sign|..|sign| + |whole|][0];
      }
    }
    LexPointed(sign, whole, fraction, rest);
    ScanFromLexeme(s, sign, Lexeme(whole, true, fraction));
  }

  /** The length a pointed lexeme adds after the sign, written out. */
  lemma PointedLength(sign: string, m: real, whole: string, fraction: string)
    ensures Some((Signed(sign, m), |sign| + Lexeme(whole, true, fraction).Length()))
         == Some((Signed(sign, m), |sign| + |whole| + 1 + |fraction|))
  {
  }

  /** A sign and digits followed by neither a digit nor a point: the scan
      reads the signed integer and stops right after its last digit. */
  lemma ScanWhole(sign: string, whole: string, rest: string)
    requires IsSign(sign) && IsDigits(whole) && whole != ""
    requires rest == "" || (!IsDigit(rest[0]) && rest[0] != '.')
    ensures ScanDecimal(sign + whole + rest) == Some((Signed(sign, DigitsValue(whole) as real), |sign| + |whole|))
  {
    ScanWholeLexeme(sign, whole, rest);
    WholeResult(sign, whole);
  }

  lemma ScanWholeLexeme(sign: string, whole: string, rest: string)
    requires IsSign(sign) && IsDigits(whole) && whole != ""
    requires rest == "" || (!IsDigit(rest[0]) && rest[0] != '.')
    ensures ScanDecimal(sign + whole + rest)
         == Some((Signed(sign, Magnitude(Lexeme(whole, false, ""))), |sign| + Lexeme(whole, false, "").Length()))
  {
    var s := sign + whole + rest;
    WholeLayout(sign, whole, rest);
    assert s[|sign|] == s[|sign|..|sign| + |whole|][0];
    LexWhole(sign, whole, rest);
    ScanFromLexeme(s, sign, Lexeme(whole, false, ""));
  }

  /** The scan result for a lexeme without a point, written out. */
  lemma WholeResult(sign: string, whole: string)
    requires IsDigits(whole)
    ensures Some((Signed(sign, Magnitude(Lexeme(whole, false, ""))), |sign| + Lexeme(whole, false, "").Length()))
         == Some((Signed(sign, DigitsValue(whole) as real), |sign| + |whole|))
  {
  }

  lemma TwelveValue()
    ensures DigitsValue("12") == 12
  {
    assert "12"[..1] == "1" && "1"[..0] == "";
  }

  lemma HalfValue()
    ensures FractionValue("5") == 0.5
  {
    assert "5"[1..] == "";
  }

  /** `parseFloat` reads "12.5" in front of a unit as 12.5; `Number` refuses the
      unit and gives NaN. */
  lemma ParseWithUnit()
    ensures ParseFloat("12.5kg") == Finite(12.5)
    ensures ToNumber("12.5kg") == NaN
  {
    assert "12.5kg" == "" + "12" + "." + "5" + "kg";
    ScanWithUnit();
    TrimWithUnit();
  }

  lemma ScanWithUnit()
    ensures ScanDecimal("" + "12" + "." + "5" + "kg") == Some((12.5, 4))
  {
    UnitScan();
    TwelveAndAHalf();
  }

  lemma UnitScan()
    ensures ScanDecimal("" + "12" + "." + "5" + "kg") == Some((Signed("", Magnitude(Lexeme("12", true, "5"))), 4))
  {
    ScanPointed("", "12", "5", "kg");
  }

  lemma TwelveAndAHalf()
    ensures Magnitude(Lexeme("12", true, "5")) == 12.5
  {
    assert Magnitude(Lexeme("12", true, "5")) == DigitsValue("12") as real + FractionValue("5");
    TwelveValue();
    HalfValue();
  }

  lemma TrimWithUnit()
    ensures TrimStart("12.5kg") == "12.5kg" && Trim("12.5kg") == "12.5kg"
  {
    var s := "12.5kg";
    assert TrimStart(s) == s by {
      assert !Text.IsWhitespace(s[0]);
    }
    assert TrimEnd(s) == s by {
      assert !Text.IsWhitespace(s[|s| - 1]);
    }
  }

  /** A leading minus sign negates: `parseFloat("-3 t")` is -3. */
  lemma ParseNegative()
    ensures ParseFloat("-3 t") == Finite(-3.0)
  {
    assert "-3 t" == "-" + "3" + " t";
    ScanNegative();
    TrimNegative();
  }

  lemma TrimNegative()
    ensures TrimStart("-3 t") == "-3 t"
  {
    assert !Text.IsWhitespace("-3 t"[0]);
  }

  lemma ScanNegative()
    ensures ScanDecimal("-" + "3" + " t") == Some((-3.0, 2))
  {
    NegativeScan();
    ThreeValue();
  }

  lemma NegativeScan()
    ensures ScanDecimal("-" + "3" + " t") == Some((Signed("-", DigitsValue("3") as real), 2))
  {
    ScanWhole("-", "3", " t");
  }

  lemma ThreeValue()
    ensures DigitsValue("3") == 3
  {
    assert "3"[..0] == "";
  }

  /** `Number("")` is 0. */
  lemma ToNumberEmpty()
    ensures ToNumber("") == Finite(0.0)
  {
  }

  predicate NoDigits(s: string)
  {
    forall i :: 0 <= i < |s| ==> !IsDigit(s[i])
  }

  lemma ScanWithoutDigits(t: string)
    requires NoDigits(t)
    ensures ScanDecimal(t) == None
  {
    var k := SignLength(t);
    DigitRunStop(t, k, 0);
    if k < |t| {
      DigitRunStop(t, k + 1, 0);
    }
  }

  /** A string with no digit at all is NaN to `parseFloat`. */
  lemma NoDigitIsNaN(s: string)
    requires NoDigits(s)
    ensures ParseFloat(s) == NaN
  {
    var t := TrimStart(s);
    TrimStartSuffix(s);
    assert NoDigits(t) by {
      forall k | 0 <= k < |t| ensures !IsDigit(t[k]) {
        assert t[k] == s[|s| - |t| + k];
      }
    }
    ScanWithoutDigits(t);
  }

  /** `toString` and `Number` round-trip every non-negative integer. */
  lemma NatToStringRoundTrip(n: nat)
    ensures ToNumber(NatToString(n)) == Finite(n as real)
  {
    NatToStringValue(n);
    DigitsParse(NatToString(n));
  }

  /** `Math.round` lands within half a unit of its argument. */
  lemma RoundNear(x: real)
    ensures x - 0.5 < Round(x) as real <= x + 0.5
  {
  }
}
