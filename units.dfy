/** Amounts as the user types them and as the chain counts them. A typed
    amount is a plain decimal string; the chain works in minor units, the
    amount times 10^decimals, where the native coin and the sale token use
    18 decimals and the stable coin 6. `parseUnits(amount, decimals)` (and
    `parseEther`, which is `parseUnits(amount, 18)`) converts the first into
    the second, exactly, and fails on a string it cannot read. */
module Units {
  import opened Common

  /** The currency a purchase or a quote is paid in. */
  datatype Currency = Eth | Usdt

  const EthDecimals: nat := 18
  const UsdtDecimals: nat := 6
  /** The sale token's own scale, used for token amounts. */
  const TokenDecimals: nat := 18

  /** The decimal scale of a payment currency. */
  function Decimals(c: Currency): nat
  {
    match c
    case Eth => EthDecimals
    case Usdt => UsdtDecimals
  }

  function Pow10(n: nat): (r: nat)
    ensures r >= 1
  {
    if n == 0 then 1 else 10 * Pow10(n - 1)
  }

  lemma {:induction false} Pow10Add(a: nat, b: nat)
    ensures Pow10(a + b) == Pow10(a) * Pow10(b)
  {
    if b > 0 {
      Pow10Add(a, b - 1);
      calc {
        Pow10(a + b);
        10 * Pow10(a + b - 1);
        10 * (Pow10(a) * Pow10(b - 1));
        Pow10(a) * (10 * Pow10(b - 1));
        Pow10(a) * Pow10(b);
      }
    }
  }

  predicate IsDigit(c: char)
  {
    '0' <= c <= '9'
  }

  predicate AllDigits(s: string)
  {
    forall k :: 0 <= k < |s| ==> IsDigit(s[k])
  }

  /** The number a string of decimal digits denotes. */
  function DigitsValue(s: string): (r: nat)
    requires AllDigits(s)
    ensures r < Pow10(|s|)
  {
    if s == [] then 0 else DigitsValue(s[..|s| - 1]) * 10 + (s[|s| - 1] - '0') as int
  }

  /** Appending digits shifts the number left by their count. */
  lemma {:induction false} DigitsValueAppend(a: string, b: string)
    requires AllDigits(a) && AllDigits(b)
    ensures AllDigits(a + b)
    ensures DigitsValue(a + b) == DigitsValue(a) * Pow10(|b|) + DigitsValue(b)
  {
    var ab := a + b;
    assert AllDigits(ab);
    if b != [] {
      var b' := b[..|b| - 1];
      assert ab[..|ab| - 1] == a + b';
      assert ab[|ab| - 1] == b[|b| - 1];
      DigitsValueAppend(a, b');
      ShiftDigit(DigitsValue(a), Pow10(|b'|), DigitsValue(b'), (b[|b| - 1] - '0') as int);
    } else {
      assert ab == a;
    }
  }

  /** The arithmetic step of appending one digit `c`. */
  lemma ShiftDigit(x: int, p: int, y: int, c: int)
    ensures (x * p + y) * 10 + c == x * (10 * p) + (y * 10 + c)
  {
  }

  /** A decimal amount as written: the digits before the point, whether
      there is a point, and the digits after it. */
  datatype Decimal = Decimal(whole: string, point: bool, fraction: string)

  /** What ethers' fixed-point parser reads, apart from a sign: at least one
      digit, at most one point, nothing else. */
  predicate WellFormed(d: Decimal)
  {
    && AllDigits(d.whole)
    && AllDigits(d.fraction)
    && |d.whole| + |d.fraction| > 0
    && (!d.point ==> d.fraction == "")
  }

  function Text(d: Decimal): string
  {
    d.whole + (if d.point then "." + d.fraction else "")
  }

  /** Read a typed amount as a decimal, splitting it at its first point. */
  function SplitDecimal(s: string): (r: Option<Decimal>)
    ensures r.Some? ==> WellFormed(r.value) && Text(r.value) == s
  {
    var p := IndexOf(s, '.', 0);
    var d := Decimal(s[..p], p < |s|, if p < |s| then s[p + 1..] else "");
    if WellFormed(d) then Some(d) else None
  }

  /** Printing a well-formed decimal and reading it back gives it back. */
  lemma SplitDecimalOfText(d: Decimal)
    requires WellFormed(d)
    ensures SplitDecimal(Text(d)) == Some(d)
  {
    var s := Text(d);
    var p := IndexOf(s, '.', 0);
    assert forall k :: 0 <= k < |d.whole| ==> s[k] == d.whole[k];
    if d.point {
      assert s[|d.whole|] == '.';
      assert p == |d.whole|;
      assert s[p + 1..] == d.fraction;
    } else {
      assert s == d.whole;
      assert p == |d.whole|;
    }
    assert s[..p] == d.whole;
  }

  /** The whole digit string of a decimal, the point removed. */
  function Digits(d: Decimal): string
  {
    d.whole + d.fraction
  }

  /** `parseUnits(s, decimals)`: the amount written in `s` counted in units
      of 10^-decimals, or a failure when `s` is not a plain decimal or has
      more fraction digits than the scale holds. */
  function ParseUnits(s: string, decimals: nat): (r: Option<nat>)
    ensures r.Some? <==> SplitDecimal(s).Some? && |SplitDecimal(s).value.fraction| <= decimals
  {
    var split := SplitDecimal(s);
    if split.None? || |split.value.fraction| > decimals then None
    else Some(Scale(split.value, decimals))
  }

  /** A decimal in minor units: the whole part times 10^decimals plus the
      fraction padded out to `decimals` digits. */
  function Scale(d: Decimal, decimals: nat): (r: nat)
    requires WellFormed(d) && |d.fraction| <= decimals
  {
    Shift(DigitsValue(d.whole), decimals) + Shift(DigitsValue(d.fraction), decimals - |d.fraction|)
  }

  /** `n` followed by `k` zeros. */
  function Shift(n: nat, k: nat): (r: nat)
  {
    if k == 0 then n else 10 * Shift(n, k - 1)
  }

  lemma {:induction false} ShiftIsMul(n: nat, k: nat)
    ensures Shift(n, k) == n * Pow10(k)
  {
    if k > 0 {
      ShiftIsMul(n, k - 1);
      MulAssoc(10, n, Pow10(k - 1));
    }
  }

  /** Shifting twice is shifting by the sum. */
  lemma {:induction false} ShiftAdd(n: nat, a: nat, b: nat)
    ensures Shift(Shift(n, a), b) == Shift(n, a + b)
  {
    if b > 0 {
      ShiftAdd(n, a, b - 1);
    }
  }

  lemma {:induction false} ShiftPositive(n: nat, k: nat)
    ensures Shift(n, k) > 0 <==> n > 0
  {
    if k > 0 {
      ShiftPositive(n, k - 1);
    }
  }

  /** What a parsed amount is worth: the digits with the point removed,
      shifted left by the decimals the fraction leaves unused. */
  lemma ParseUnitsValue(s: string, decimals: nat)
    requires ParseUnits(s, decimals).Some?
    ensures var d := SplitDecimal(s).value;
      && AllDigits(Digits(d))
      && ParseUnits(s, decimals).value == Shift(DigitsValue(Digits(d)), decimals - |d.fraction|)
      && ParseUnits(s, decimals).value == DigitsValue(Digits(d)) * Pow10(decimals - |d.fraction|)
  {
    var d := SplitDecimal(s).value;
    ScaledDigits(d, decimals);
    ShiftIsMul(DigitsValue(Digits(d)), decimals - |d.fraction|);
  }

  /** Scaling the whole part and the fraction separately is scaling the
      digits with the point removed. */
  lemma ScaledDigits(d: Decimal, decimals: nat)
    requires WellFormed(d) && |d.fraction| <= decimals
    ensures AllDigits(Digits(d))
    ensures Shift(DigitsValue(Digits(d)), decimals - |d.fraction|) == Scale(d, decimals)
  {
    var shift := decimals - |d.fraction|;
    DigitsValueAppend(d.whole, d.fraction);
    var w, f := DigitsValue(d.whole), DigitsValue(d.fraction);
    ShiftAdd(w, |d.fraction|, shift);
    ShiftLinear(w, Pow10(|d.fraction|), f, shift);
    ShiftIsMul(w, |d.fraction|);
  }

  /** Shifting distributes over a sum. */
  lemma {:induction false} ShiftLinear(w: nat, p: nat, f: nat, k: nat)
    ensures Shift(w * p + f, k) == Shift(w * p, k) + Shift(f, k)
  {
    if k > 0 {
      ShiftLinear(w, p, f, k - 1);
    }
  }

  /** The validity guard of the quote engine: a plain decimal denoting a
      number greater than zero. The empty text, and any text with a sign or
      a character other than digits and one point, fail it. */
  function IsPositiveAmount(s: string): (r: bool)
    ensures r ==> s != "" && forall k :: 0 <= k < |s| ==> IsDigit(s[k]) || s[k] == '.'
  {
    var d := SplitDecimal(s);
    if d.Some? then
      TextCharacters(d.value);
      AllDigits(Digits(d.value)) && DigitsValue(Digits(d.value)) > 0
    else false
  }

  /** The text of a decimal holds digits and points only, and is not empty. */
  lemma TextCharacters(d: Decimal)
    requires WellFormed(d)
    ensures Text(d) != ""
    ensures forall k :: 0 <= k < |Text(d)| ==> IsDigit(Text(d)[k]) || Text(d)[k] == '.'
  {
    var t := Text(d);
    forall k | 0 <= k < |t|
      ensures IsDigit(t[k]) || t[k] == '.'
    {
      if k < |d.whole| {
        assert t[k] == d.whole[k];
      } else if k > |d.whole| {
        assert t[k] == d.fraction[k - |d.whole| - 1];
      }
    }
  }

  /** Wherever the scale admits the amount, the guard accepts it exactly
      when its scaled value is positive. */
  lemma PositiveIffScaledPositive(s: string, decimals: nat)
    requires ParseUnits(s, decimals).Some?
    ensures IsPositiveAmount(s) <==> ParseUnits(s, decimals).value > 0
  {
    ParseUnitsValue(s, decimals);
    var d := SplitDecimal(s).value;
    ShiftPositive(DigitsValue(Digits(d)), decimals - |d.fraction|);
  }

  /** A finer scale multiplies the parsed amount by the extra power of ten;
      in particular the same text scaled to 18 decimals is 10^12 times its
      6-decimal value. */
  lemma ParseUnitsRescale(s: string, decimals: nat, extra: nat)
    requires ParseUnits(s, decimals).Some?
    ensures ParseUnits(s, decimals + extra) == Some(ParseUnits(s, decimals).value * Pow10(extra))
  {
    ParseUnitsValue(s, decimals);
    ParseUnitsValue(s, decimals + extra);
    var d := SplitDecimal(s).value;
    var n := DigitsValue(Digits(d));
    ShiftAdd(n, decimals - |d.fraction|, extra);
    ShiftIsMul(ParseUnits(s, decimals).value, extra);
  }

  lemma MulAssoc(x: int, y: int, z: int)
    ensures x * (y * z) == x * y * z
  {
  }

  function DigitChar(n: nat): (c: char)
    requires n < 10
  {
    ('0' as int + n) as char
  }

  /** The decimal text of a whole number, without leading zeros. */
  function IntegerText(n: nat): (s: string)
    ensures AllDigits(s) && |s| > 0
    ensures forall k :: 0 <= k < |s| ==> s[k] != '.'
  {
    if n < 10 then [DigitChar(n)] else IntegerText(n / 10) + [DigitChar(n % 10)]
  }

  lemma {:induction false} DigitsValueOfIntegerText(n: nat)
    ensures DigitsValue(IntegerText(n)) == n
  {
    var s := IntegerText(n);
    if n >= 10 {
      DigitsValueOfIntegerText(n / 10);
      assert s[..|s| - 1] == IntegerText(n / 10);
    }
  }

  /** A whole amount `n` typed as text parses to exactly n * 10^decimals. */
  lemma ParseUnitsOfInteger(n: nat, decimals: nat)
    ensures ParseUnits(IntegerText(n), decimals) == Some(n * Pow10(decimals))
  {
    var d := Decimal(IntegerText(n), false, "");
    assert Text(d) == IntegerText(n);
    SplitDecimalOfText(d);
    assert Digits(d) == IntegerText(n);
    DigitsValueOfIntegerText(n);
    ParseUnitsValue(IntegerText(n), decimals);
  }

  /** A stable-coin purchase of "50" is 50 * 10^6 minor units. */
  lemma FiftyStableCoins()
    ensures ParseUnits("50", UsdtDecimals) == Some(50_000_000)
  {
    assert IntegerText(50) == "50";
    ParseUnitsOfInteger(50, UsdtDecimals);
  }

  /** One native coin is 10^18 wei. */
  lemma OneEther()
    ensures ParseUnits("1", EthDecimals) == Some(Pow10(18))
  {
    assert IntegerText(1) == "1";
    ParseUnitsOfInteger(1, EthDecimals);
  }
}
