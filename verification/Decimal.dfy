/** Decimal text: integers as digit strings, and token amounts with a fraction. */
module Decimal {
  import opened Prelude
  import opened Arithmetic

  predicate IsDigit(c: char) { '0' <= c <= '9' }

  predicate AllDigits(s: string) { forall i :: 0 <= i < |s| ==> IsDigit(s[i]) }

  function DigitChar(d: nat): char
    requires d < 10
  {
    '0' + d as char
  }

  function DigitValue(c: char): nat
    requires IsDigit(c)
  {
    (c - '0') as nat
  }

  /** `bigint.toString()`. */
  function Digits(n: nat): string {
    if n < 10 then [DigitChar(n)] else Digits(n / 10) + [DigitChar(n % 10)]
  }

  /** `BigInt(text)` on digit strings. */
  function Value(s: string): nat
    requires AllDigits(s)
  {
    if s == [] then 0 else Value(s[..|s| - 1]) * 10 + DigitValue(s[|s| - 1])
  }

  lemma {:induction false} DigitsAreDigits(n: nat)
    ensures AllDigits(Digits(n)) && |Digits(n)| > 0 && Value(Digits(n)) == n
    ensures n > 0 ==> Digits(n)[0] != '0'
  {
    if n >= 10 {
      DigitsAreDigits(n / 10);
      assert Digits(n)[..|Digits(n)| - 1] == Digits(n / 10);
    } else {
      assert Value([DigitChar(n)][..0]) == 0;
    }
  }

  lemma {:induction false} DigitsLength(n: nat, width: nat)
    requires width > 0 && n < Pow(10, width)
    ensures |Digits(n)| <= width
  {
    if n >= 10 {
      assert n / 10 < Pow(10, width - 1);
      DigitsLength(n / 10, width - 1);
    }
  }

  lemma {:induction false} ValueOfConcat(a: string, b: string)
    requires AllDigits(a) && AllDigits(b)
    ensures AllDigits(a + b) && Value(a + b) == Value(a) * Pow(10, |b|) + Value(b)
  {
    if b == [] {
      assert a + b == a;
    } else {
      var n := |b| - 1;
      ValueOfConcat(a, b[..n]);
      assert (a + b)[..|a + b| - 1] == a + b[..n];
      ShiftOne(Value(a), Value(b[..n]), Pow(10, n), DigitValue(b[n]));
    }
  }

  lemma {:induction false} ShiftOne(a: nat, b: nat, p: nat, d: nat)
    ensures (a * p + b) * 10 + d == a * (10 * p) + (b * 10 + d)
  {
  }

  function Zeros(n: nat): string { seq(n, i => '0') }

  lemma {:induction false} ZerosValue(n: nat)
    ensures Value(Zeros(n)) == 0
  {
    if n > 0 {
      assert Zeros(n)[..n - 1] == Zeros(n - 1);
      ZerosValue(n - 1);
    }
  }

  function PadStart(s: string, width: nat): string {
    if |s| >= width then s else Zeros(width - |s|) + s
  }

  function PadEnd(s: string, width: nat): string {
    if |s| >= width then s else s + Zeros(width - |s|)
  }

  /** `replace(/0+$/, '')`. */
  function StripZeros(s: string): string {
    if s != [] && s[|s| - 1] == '0' then StripZeros(s[..|s| - 1]) else s
  }

  /** Stripping trailing zeros is undone by padding back to the same length. */
  lemma {:induction false} StripThenPad(s: string)
    ensures |StripZeros(s)| <= |s| && StripZeros(s) == s[..|StripZeros(s)|]
    ensures PadEnd(StripZeros(s), |s|) == s
  {
    if s != [] && s[|s| - 1] == '0' {
      var t := s[..|s| - 1];
      StripThenPad(t);
      var k := |StripZeros(t)|;
      assert t == StripZeros(t) + Zeros(|t| - k);
      assert s == t + ['0'];
      assert Zeros(|s| - k) == Zeros(|t| - k) + ['0'];
    }
  }

  // -------------------------------------------------------------- token amounts

  /** Position of the first '.', or the length. */
  function DotAt(s: string): (i: nat)
    ensures i <= |s|
  {
    if s == [] || s[0] == '.' then 0 else 1 + DotAt(s[1..])
  }

  /** Matches one or more digits, optionally followed by a dot and one or more digits. */
  predicate IsAmount(s: string) {
    var i := DotAt(s);
    && 0 < i && AllDigits(s[..i])
    && (i < |s| ==> i + 1 < |s| && AllDigits(s[i + 1..]))
  }

  function Fraction(s: string): string {
    var i := DotAt(s);
    if i < |s| then s[i + 1..] else ""
  }

  lemma {:induction false} PadEndDigits(s: string, width: nat)
    requires AllDigits(s)
    ensures AllDigits(PadEnd(s, width))
  {
  }

  /** Whole and fractional digit strings, scaled to base units. */
  function Scaled(whole: string, frac: string, decimals: nat): nat
    requires AllDigits(whole) && AllDigits(frac)
  {
    PadEndDigits(frac, decimals);
    var padded := PadEnd(frac, decimals);
    Value(whole) * Pow(10, decimals) + if padded == [] then Value("0") else Value(padded)
  }

  function TokensToBaseUnits(amount: string, decimals: nat): Option<nat> {
    if !IsAmount(amount) || |Fraction(amount)| > decimals then None
    else Some(Scaled(amount[..DotAt(amount)], Fraction(amount), decimals))
  }

  function Printed(whole: nat, remainder: nat, decimals: nat): string {
    var frac := StripZeros(PadStart(Digits(remainder), decimals));
    if frac != [] then Digits(whole) + ("." + frac) else Digits(whole)
  }

  function FormatBaseUnits(units: nat, decimals: nat): string {
    PowPositive(10, decimals);
    Printed(units / Pow(10, decimals), units % Pow(10, decimals), decimals)
  }

  lemma {:induction false} DotAfterDigits(w: string, rest: string)
    requires AllDigits(w) && (rest == [] || rest[0] == '.')
    ensures DotAt(w + rest) == |w|
  {
    if w == [] {
      assert w + rest == rest;
    } else {
      assert (w + rest)[1..] == w[1..] + rest;
      DotAfterDigits(w[1..], rest);
    }
  }

  /** The padded fraction has exactly `decimals` digits and the fraction's value. */
  lemma {:induction false} PadKeepsValue(s: string, width: nat)
    requires AllDigits(s)
    ensures var p := PadStart(s, width); AllDigits(p) && Value(p) == Value(s) && |p| == Max(width, |s|)
  {
    if |s| < width {
      var z := Zeros(width - |s|);
      ZerosValue(width - |s|);
      ValueOfConcat(z, s);
    }
  }

  lemma {:induction false} PaddedFraction(n: nat, decimals: nat)
    requires n < Pow(10, decimals)
    ensures var p := PadStart(Digits(n), decimals);
            && AllDigits(p) && Value(p) == n && (decimals > 0 ==> |p| == decimals)
  {
    DigitsAreDigits(n);
    if decimals > 0 {
      DigitsLength(n, decimals);
    }
    PadKeepsValue(Digits(n), decimals);
  }

  /** How the reader splits what the printer joined. */
  lemma {:induction false} ReadsParts(whole: string, frac: string)
    requires AllDigits(whole) && whole != [] && AllDigits(frac)
    ensures var text := if frac != [] then whole + ("." + frac) else whole;
            IsAmount(text) && text[..DotAt(text)] == whole && Fraction(text) == frac
  {
    if frac != [] {
      var text := whole + ("." + frac);
      DotAfterDigits(whole, "." + frac);
      assert text[..|whole|] == whole && text[|whole| + 1..] == frac;
    } else {
      assert whole + "" == whole;
      DotAfterDigits(whole, "");
      assert whole[..|whole|] == whole;
    }
  }

  lemma {:induction false} ScaledParts(whole: nat, remainder: nat, decimals: nat)
    requires remainder < Pow(10, decimals)
    ensures var frac := StripZeros(PadStart(Digits(remainder), decimals));
            && AllDigits(frac) && |frac| <= decimals && AllDigits(Digits(whole))
            && Scaled(Digits(whole), frac, decimals) == whole * Pow(10, decimals) + remainder
  {
    var padded := PadStart(Digits(remainder), decimals);
    DigitsAreDigits(whole);
    PaddedFraction(remainder, decimals);
    StripThenPad(padded);
    assert Value("0") == 0 by {
      ZerosValue(1);
      assert "0" == Zeros(1);
    }
    if decimals == 0 {
      assert padded == "0" && StripZeros("0") == StripZeros("0"[..0]);
    }
  }

  /** Printing an amount and reading it back gives the same number of base units, for every precision. */
  lemma {:induction false} AmountRoundTrip(units: nat, decimals: nat)
    ensures TokensToBaseUnits(FormatBaseUnits(units, decimals), decimals) == Some(units)
  {
    PowPositive(10, decimals);
    var d := Pow(10, decimals);
    var whole, remainder := Quotient(units, d);
    DigitsAreDigits(whole);
    ScaledParts(whole, remainder, decimals);
    ReadsParts(Digits(whole), StripZeros(PadStart(Digits(remainder), decimals)));
  }

  /** Amounts that print alike are equal. */
  lemma {:induction false} FormatIsInjective(a: nat, b: nat, decimals: nat)
    requires FormatBaseUnits(a, decimals) == FormatBaseUnits(b, decimals)
    ensures a == b
  {
    AmountRoundTrip(a, decimals);
    AmountRoundTrip(b, decimals);
  }

  // --------------------------------------------------------- what the reader accepts

  lemma {:induction false} PadEndScales(frac: string, width: nat)
    requires AllDigits(frac) && |frac| <= width
    ensures AllDigits(PadEnd(frac, width)) && Value(PadEnd(frac, width)) == Value(frac) * Pow(10, width - |frac|)
  {
    var k: nat := width - |frac|;
    ZerosValue(k);
    ValueOfConcat(frac, Zeros(k));
    if k == 0 {
      assert frac + Zeros(0) == frac && Pow(10, 0) == 1;
    }
  }

  /** Any digits are read, with leading or trailing zeros too; only a fraction that is too long is refused. */
  lemma {:induction false} ReadsExactly(whole: string, frac: string, decimals: nat)
    requires AllDigits(whole) && AllDigits(frac) && whole != "" && frac != ""
    ensures TokensToBaseUnits(whole, decimals) == Some(Value(whole) * Pow(10, decimals))
    ensures TokensToBaseUnits(whole + ("." + frac), decimals) ==
            if |frac| > decimals then None
            else Some(Value(whole) * Pow(10, decimals) + Value(frac) * Pow(10, decimals - |frac|))
  {
    ReadsParts(whole, frac);
    ReadsParts(whole, "");
    ZerosValue(1);
    assert "0" == Zeros(1);
    PadEndScales("", decimals);
    assert Value("") == 0;
    if |frac| <= decimals {
      PadEndScales(frac, decimals);
    }
  }

  /** Nothing but digits, or digits around one dot, is read. */
  lemma {:induction false} OnlyAmountsAreRead(text: string, decimals: nat) returns (whole: string, frac: string)
    requires TokensToBaseUnits(text, decimals).Some?
    ensures AllDigits(whole) && AllDigits(frac) && whole != "" && |frac| <= decimals
    ensures text == if frac == "" then whole else whole + ("." + frac)
  {
    var i := DotAt(text);
    whole, frac := text[..i], Fraction(text);
    DotIsADot(text);
    if i < |text| {
      assert text == text[..i] + ([text[i]] + text[i + 1..]);
    } else {
      assert text[..i] == text;
    }
  }

  lemma {:induction false} DotIsADot(s: string)
    ensures DotAt(s) < |s| ==> s[DotAt(s)] == '.'
  {
    if s != [] && s[0] != '.' {
      DotIsADot(s[1..]);
    }
  }

  lemma {:induction false} StripLeavesNoZero(s: string)
    ensures StripZeros(s) != [] ==> StripZeros(s)[|StripZeros(s)| - 1] != '0'
  {
    if s != [] && s[|s| - 1] == '0' {
      StripLeavesNoZero(s[..|s| - 1]);
    }
  }

  /** A printed amount has no superfluous digit: no zero or dot at the end of a fraction, none in front. */
  lemma {:induction false} FormatIsShort(units: nat, decimals: nat)
    ensures var text := FormatBaseUnits(units, decimals);
            && text != "" && (DotAt(text) < |text| ==> text[|text| - 1] != '0' && text[|text| - 1] != '.')
            && (text[0] == '0' ==> DotAt(text) == 1)
  {
    PowPositive(10, decimals);
    var whole, remainder := Quotient(units, Pow(10, decimals));
    var frac := StripZeros(PadStart(Digits(remainder), decimals));
    DigitsAreDigits(whole);
    ScaledParts(whole, remainder, decimals);
    ReadsParts(Digits(whole), frac);
    StripLeavesNoZero(PadStart(Digits(remainder), decimals));
    var text := FormatBaseUnits(units, decimals);
    if frac != [] {
      DotAfterDigits(Digits(whole), "." + frac);
      assert text[|text| - 1] == frac[|frac| - 1];
    } else {
      assert Digits(whole) + "" == Digits(whole);
      DotAfterDigits(Digits(whole), "");
    }
    assert text[0] == Digits(whole)[0];
  }
}
