/** JavaScript numbers as the webhook uses them: values read from provider
    JSON, rounded to one decimal with `Math.round(x * 10) / 10`, and turned
    into text by template literals. A number is modelled as an exact decimal
    `scaled / 10^places`. */
module Numbers {
  import opened Strings

  function Pow10(n: nat): (r: nat)
    ensures r >= 1
  {
    if n == 0 then 1 else 10 * Pow10(n - 1)
  }

  function Abs(i: int): nat {
    if i < 0 then -i else i
  }

  predicate IsDigit(c: char) {
    '0' <= c <= '9'
  }

  predicate AllDigits(s: string) {
    forall i :: 0 <= i < |s| ==> IsDigit(s[i])
  }

  function DigitChar(d: nat): (c: char)
    requires d < 10
    ensures IsDigit(c) && c as int - '0' as int == d
  {
    ('0' as int + d) as char
  }

  function DigitValue(c: char): nat
    requires IsDigit(c)
  {
    c as int - '0' as int
  }

  /** `String(n)` for a non-negative integer: its decimal digits, most
      significant first, without leading zeros. */
  function NatToString(n: nat): (s: string)
    ensures |s| >= 1 && AllDigits(s)
    ensures s[0] == '0' ==> n == 0 && s == "0"
  {
    if n < 10 then [DigitChar(n)] else NatToString(n / 10) + [DigitChar(n % 10)]
  }

  /** The number a string of decimal digits denotes. */
  function DigitsValue(s: string): nat
    requires AllDigits(s)
  {
    if |s| == 0 then 0 else DigitsValue(s[..|s| - 1]) * 10 + DigitValue(s[|s| - 1])
  }

  /** Reading back the digits of `n` gives `n`. */
  lemma {:induction false} NatToStringRoundTrip(n: nat)
    ensures DigitsValue(NatToString(n)) == n
  {
    var s := NatToString(n);
    if n >= 10 {
      NatToStringRoundTrip(n / 10);
      assert s[..|s| - 1] == NatToString(n / 10);
    }
  }

  /** A number below `10^k` has at most `k` digits. */
  lemma {:induction false} NatToStringLength(n: nat, k: nat)
    requires 1 <= k && n < Pow10(k)
    ensures |NatToString(n)| <= k
  {
    if n >= 10 {
      assert Pow10(1) == 10;
      assert k >= 2;
      assert n / 10 < Pow10(k - 1);
      NatToStringLength(n / 10, k - 1);
    }
  }

  /** `String(i)` for an integer. */
  function IntToString(i: int): string {
    if i < 0 then "-" + NatToString(-i) else NatToString(i)
  }

  /** A finite JavaScript number, written as the exact decimal
      `scaled / 10^places`. */
  datatype Num = Num(scaled: int, places: nat)

  /** JavaScript falsiness of a number (NaN is not modelled). */
  predicate IsZero(x: Num) {
    x.scaled == 0
  }

  /** A multiple of a positive `b` other than zero is at least `b` away
      from zero. */
  lemma MulAwayFromZero(d: int, b: int)
    requires b > 0
    ensures d >= 1 ==> d * b >= b
    ensures d <= -1 ==> d * b <= -b
  {
    if d >= 1 {
      assert d * b == (d - 1) * b + b;
    } else if d <= -1 {
      assert d * b == (d + 1) * b - b;
    }
  }

  /** Euclidean division has exactly one quotient and remainder. */
  lemma DivModUnique(a: int, b: int, q: int, r: int)
    requires b > 0 && a == q * b + r && 0 <= r < b
    ensures a / b == q && a % b == r
  {
    var q', r' := a / b, a % b;
    assert a == q' * b + r';
    var d := q - q';
    assert d * b == q * b - q' * b;
    MulAwayFromZero(d, b);
  }

  /** `Math.round(x * 10) / 10`: the result has one decimal place and its
      tenths count is the integer nearest to `10 * x`, halves rounded up,
      that is the integer `t` with `t <= 10 * x + 1/2 < t + 1`. Both sides
      are multiplied by `2 * 10^places` to stay in the integers. */
  function RoundTenth(x: Num): (r: Num)
    ensures r.places == 1
    ensures var p := Pow10(x.places);
      r.scaled * (2 * p) <= 20 * x.scaled + p < (r.scaled + 1) * (2 * p)
  {
    var p := Pow10(x.places);
    Num((20 * x.scaled + p) / (2 * p), 1)
  }

  /** A number that already has at most one decimal place keeps its value
      under rounding, so rounding a rounded number changes nothing. */
  lemma RoundTenthExact(x: Num)
    requires x.places <= 1
    ensures RoundTenth(x).scaled * Pow10(x.places) == 10 * x.scaled
    ensures RoundTenth(RoundTenth(x)) == RoundTenth(x)
  {
    var r := RoundTenth(x);
    if x.places == 0 {
      DivModUnique(20 * x.scaled + 1, 2, 10 * x.scaled, 1);
    } else {
      assert Pow10(1) == 10;
      DivModUnique(20 * x.scaled + 10, 20, x.scaled, 10);
    }
    DivModUnique(20 * r.scaled + 10, 20, r.scaled, 10);
  }

  /** `s` without its trailing `'0'` characters. */
  function StripTrailingZeros(s: string): (r: string)
    ensures |r| <= |s| && r == s[..|r|]
    ensures |r| > 0 ==> r[|r| - 1] != '0'
  {
    if |s| > 0 && s[|s| - 1] == '0' then StripTrailingZeros(s[..|s| - 1]) else s
  }

  /** The digits after the decimal point of a fraction `frac / 10^places`. */
  function FractionDigits(frac: nat, places: nat): (s: string)
    ensures AllDigits(s)
  {
    var digits := NatToString(frac);
    var padded := PadStart(digits, places, '0');
    assert AllDigits(padded) by {
      forall i | 0 <= i < |padded| ensures IsDigit(padded[i]) {
        if i >= |padded| - |digits| {
          assert padded[i] == padded[|padded| - |digits|..][i - (|padded| - |digits|)];
        }
      }
    }
    StripTrailingZeros(padded)
  }

  /** The integer part of `|x|`. */
  function Whole(x: Num): nat {
    Quotient(Abs(x.scaled), Pow10(x.places))
  }

  function Quotient(m: nat, p: nat): nat
    requires p >= 1
  {
    m / p
  }

  /** The fractional part of `|x|`, in units of `10^-places`. */
  function Frac(x: Num): (f: nat)
    ensures f < Pow10(x.places)
    ensures Whole(x) * Pow10(x.places) + f == Abs(x.scaled)
  {
    Abs(x.scaled) % Pow10(x.places)
  }

  /** `${x}`: the shortest decimal text of the number's value: a minus sign
      for negative values, the integer part, and the fractional digits
      without trailing zeros after a point only when there are any. */
  function NumToString(x: Num): string {
    (if x.scaled < 0 then "-" else "") + NatToString(Whole(x))
    + (if Frac(x) == 0 then "" else "." + FractionDigits(Frac(x), x.places))
  }

  predicate NumeralChar(c: char) {
    IsDigit(c) || c == '-' || c == '.'
  }

  predicate Numeral(s: string) {
    forall i :: 0 <= i < |s| ==> NumeralChar(s[i])
  }

  lemma NumeralConcat(a: string, b: string)
    requires Numeral(a) && Numeral(b)
    ensures Numeral(a + b)
  {
    forall i | 0 <= i < |a + b| ensures NumeralChar((a + b)[i]) {
      if i >= |a| {
        assert (a + b)[i] == b[i - |a|];
      }
    }
  }

  /** The text is plain decimal notation: digits, at most a leading minus
      sign and a point, so never a line break. */
  lemma NumToStringChars(x: Num)
    ensures Numeral(NumToString(x))
  {
    var sign := if x.scaled < 0 then "-" else "";
    var whole := NatToString(Whole(x));
    NumeralConcat(sign, whole);
    if Frac(x) != 0 {
      var digits := FractionDigits(Frac(x), x.places);
      NumeralConcat(".", digits);
      NumeralConcat(sign + whole, "." + digits);
    } else {
      assert NumToString(x) == sign + whole + "";
    }
  }

  /** An integer value is one whose fractional part is zero, and its
      quotient by `10^places` carries the sign and the integer part. */
  lemma WholeOfIntegral(x: Num)
    ensures Frac(x) == 0 <==> x.scaled % Pow10(x.places) == 0
    ensures x.scaled % Pow10(x.places) == 0 ==>
      x.scaled / Pow10(x.places) == if x.scaled < 0 then -(Whole(x) as int) else Whole(x)
  {
    var p := Pow10(x.places);
    if x.scaled < 0 {
      if Frac(x) == 0 {
        DivModUnique(x.scaled, p, -(Whole(x) as int), 0);
      } else {
        DivModUnique(x.scaled, p, -(Whole(x) as int) - 1, p - Frac(x));
      }
    } else {
      DivModUnique(x.scaled, p, Whole(x), Frac(x));
    }
  }

  /** The text shows a decimal point exactly when the value is not an
      integer, and an integer value reads as that integer. */
  lemma NumToStringIntegral(x: Num)
    ensures '.' in NumToString(x) <==> x.scaled % Pow10(x.places) != 0
    ensures x.scaled % Pow10(x.places) == 0 ==> NumToString(x) == IntToString(x.scaled / Pow10(x.places))
  {
    WholeOfIntegral(x);
    var head := (if x.scaled < 0 then "-" else "") + NatToString(Whole(x));
    assert '.' !in head;
    if Frac(x) != 0 {
      assert NumToString(x)[|head|] == '.';
    }
  }

  /** Appending a zero digit multiplies by ten. */
  lemma NatToStringTimesTen(r: nat)
    requires r >= 1
    ensures NatToString(10 * r) == NatToString(r) + "0"
  {
    DivModUnique(10 * r, 10, r, 0);
    assert DigitChar(0) == '0';
  }

  /** The fraction digits of `10 * frac` over one more place are those of
      `frac`. */
  lemma FractionDigitsScale(frac: nat, places: nat)
    requires 1 <= frac < Pow10(places)
    ensures FractionDigits(10 * frac, places + 1) == FractionDigits(frac, places)
  {
    var t := NatToString(frac);
    NatToStringTimesTen(frac);
    NatToStringLength(frac, places);
    PadStartAppend(t, places, '0', '0');
    StripAppendZero(PadStart(t, places, '0'));
  }

  lemma PadStartAppend(s: string, width: nat, c: char, d: char)
    requires |s| <= width
    ensures PadStart(s + [d], width + 1, c) == PadStart(s, width, c) + [d]
  {
    if |s| < width {
      assert Repeat(c, width - |s|) + (s + [d]) == (Repeat(c, width - |s|) + s) + [d];
    }
  }

  lemma StripAppendZero(s: string)
    ensures StripTrailingZeros(s + "0") == StripTrailingZeros(s)
  {
    assert (s + "0")[..|s|] == s;
  }

  /** The text depends on the value only: appending a zero decimal (`30`
      and `30.0`) does not change it. */
  lemma NumToStringScale(x: Num)
    ensures NumToString(Num(10 * x.scaled, x.places + 1)) == NumToString(x)
  {
    var y := Num(10 * x.scaled, x.places + 1);
    var p := Pow10(x.places);
    assert Pow10(x.places + 1) == 10 * p;
    assert Abs(y.scaled) == 10 * Abs(x.scaled);
    assert Abs(y.scaled) == Whole(x) * (10 * p) + 10 * Frac(x);
    DivModUnique(Abs(y.scaled), 10 * p, Whole(x), 10 * Frac(x));
    assert Whole(y) == Whole(x) && Frac(y) == 10 * Frac(x);
    if Frac(x) != 0 {
      FractionDigitsScale(Frac(x), x.places);
    }
  }

  /** A number with one decimal place, such as a rounded temperature, reads
      as an integer when its tenths digit is zero and otherwise with exactly
      that one digit after the point. */
  lemma TenthsToString(x: Num)
    requires x.places == 1
    ensures x.scaled % 10 == 0 ==> NumToString(x) == IntToString(x.scaled / 10)
    ensures x.scaled % 10 != 0 ==>
      NumToString(x) == (if x.scaled < 0 then "-" else "") + NatToString(Abs(x.scaled) / 10)
        + "." + [DigitChar(Abs(x.scaled) % 10)]
  {
    assert Pow10(1) == 10;
    NumToStringIntegral(x);
    WholeOfIntegral(x);
    TenthsParts(x);
  }

  lemma TenthsParts(x: Num)
    requires x.places == 1
    ensures Whole(x) == Abs(x.scaled) / 10 && Frac(x) == Abs(x.scaled) % 10
    ensures Frac(x) != 0 ==> FractionDigits(Frac(x), 1) == [DigitChar(Frac(x))]
  {
    assert Pow10(1) == 10;
    var f := Frac(x);
    if f != 0 {
      assert NatToString(f) == [DigitChar(f)];
      assert PadStart(NatToString(f), 1, '0') == [DigitChar(f)];
    }
  }

  /** A positive number with one decimal place and a non-zero tenths digit
      reads as its whole part, a point and that digit. */
  lemma TenthsText(x: Num, whole: nat, digit: nat)
    requires x.places == 1 && 1 <= digit <= 9 && x.scaled == 10 * whole + digit
    ensures NumToString(x) == NatToString(whole) + "." + [DigitChar(digit)]
  {
    DivModUnique(x.scaled, 10, whole, digit);
    TenthsToString(x);
  }

  /** A non-negative whole number reads as its digits. */
  lemma WholeText(x: Num, n: nat)
    requires x.scaled == n * Pow10(x.places)
    ensures NumToString(x) == NatToString(n)
  {
    DivModUnique(x.scaled, Pow10(x.places), n, 0);
    NumToStringIntegral(x);
  }
}
