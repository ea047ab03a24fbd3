/** Whole numbers as text: how `BigInt` reads a string and how it prints. */
module BigIntText {
  import opened Prelude
  import opened Decimal

  /** White space and line ends that are ignored around a number. */
  predicate IsSpace(c: char) {
    || '\t' <= c <= '\r' || c == ' ' || c == '\U{00A0}' || c == '\U{1680}' || '\U{2000}' <= c <= '\U{200A}'
    || c in {'\U{2028}', '\U{2029}', '\U{202F}', '\U{205F}', '\U{3000}', '\U{FEFF}'}
  }

  function TrimStart(s: string): string { if s != "" && IsSpace(s[0]) then TrimStart(s[1..]) else s }

  function TrimEnd(s: string): string {
    if s != "" && IsSpace(s[|s| - 1]) then TrimEnd(s[..|s| - 1]) else s
  }

  /** A digit of any base up to sixteen; other characters count as a digit of none. */
  function DigitOf(c: char): nat {
    if IsDigit(c) then DigitValue(c)
    else if 'a' <= c <= 'f' then (c - 'a') as nat + 10
    else if 'A' <= c <= 'F' then (c - 'A') as nat + 10
    else 16
  }

  predicate Numeral(s: string, base: nat) { forall i :: 0 <= i < |s| ==> DigitOf(s[i]) < base }

  function NumeralValue(s: string, base: nat): nat {
    if s == [] then 0 else NumeralValue(s[..|s| - 1], base) * base + DigitOf(s[|s| - 1])
  }

  function ReadRadix(s: string, base: nat): Option<int> {
    if s != "" && Numeral(s, base) then Some(NumeralValue(s, base)) else None
  }

  function ReadSigned(s: string, sign: int): Option<int> {
    if s != "" && AllDigits(s) then Some(sign * Value(s)) else None
  }

  /** `BigInt(text)`: blank is zero, only decimals take a sign, and anything else is refused. */
  function ParseBigInt(text: string): Option<int> {
    var s := TrimEnd(TrimStart(text));
    if s == "" then Some(0)
    else if "0x" <= s || "0X" <= s then ReadRadix(s[2..], 16)
    else if "0o" <= s || "0O" <= s then ReadRadix(s[2..], 8)
    else if "0b" <= s || "0B" <= s then ReadRadix(s[2..], 2)
    else if s[0] == '-' then ReadSigned(s[1..], -1)
    else if s[0] == '+' then ReadSigned(s[1..], 1)
    else ReadSigned(s, 1)
  }

  /** `bigint.toString()`. */
  function PrintBigInt(n: int): string { if n < 0 then "-" + Digits(-n) else Digits(n) }

  lemma {:induction false} NothingToTrim(s: string)
    requires s != "" && !IsSpace(s[0]) && !IsSpace(s[|s| - 1])
    ensures TrimEnd(TrimStart(s)) == s
  {
  }

  lemma {:induction false} DecimalIsRead(d: string)
    requires AllDigits(d) && d != ""
    ensures ParseBigInt(d) == ReadSigned(d, 1) && ParseBigInt("-" + d) == ReadSigned(d, -1)
  {
    var s := "-" + d;
    assert s[1..] == d && s[|s| - 1] == d[|d| - 1];
    NothingToTrim(d);
    NothingToTrim(s);
    if |d| >= 2 {
      assert IsDigit(d[1]);
    }
  }

  /** Every number is read back from its own print. */
  lemma {:induction false} PrintedIsRead(n: int)
    ensures ParseBigInt(PrintBigInt(n)) == Some(n)
  {
    var m := if n < 0 then -n else n;
    DigitsAreDigits(m);
    DecimalIsRead(Digits(m));
  }

  /** Spaces around a number change nothing. */
  lemma {:induction false} SpacesAreIgnored(text: string, c: char)
    requires IsSpace(c)
    ensures ParseBigInt([c] + text) == ParseBigInt(text)
  {
    assert ([c] + text)[1..] == text;
  }

  /** The other spellings that are read: blank, with a plus sign, and numerals of base sixteen, eight and two. */
  lemma {:induction false} PlusIsRead(d: string)
    requires AllDigits(d) && d != ""
    ensures ParseBigInt("") == Some(0) && ParseBigInt("+" + d) == Some(Value(d))
  {
    var s := "+" + d;
    assert s[1..] == d && s[|s| - 1] == d[|d| - 1];
    NothingToTrim(s);
  }

  lemma {:induction false} HexIsRead(d: string)
    requires d != "" && Numeral(d, 16)
    ensures ParseBigInt("0x" + d) == Some(NumeralValue(d, 16))
  {
    PrefixedIsRead("0x", d);
  }

  lemma {:induction false} OctalIsRead(d: string)
    requires d != "" && Numeral(d, 8)
    ensures ParseBigInt("0o" + d) == Some(NumeralValue(d, 8))
  {
    PrefixedIsRead("0o", d);
    assert ("0o" + d)[1] == 'o';
  }

  lemma {:induction false} BinaryIsRead(d: string)
    requires d != "" && Numeral(d, 2)
    ensures ParseBigInt("0b" + d) == Some(NumeralValue(d, 2))
  {
    PrefixedIsRead("0b", d);
    assert ("0b" + d)[1] == 'b';
  }

  lemma {:induction false} PrefixedIsRead(prefix: string, d: string)
    requires |prefix| == 2 && prefix[0] == '0' && d != "" && Numeral(d, 16)
    ensures TrimEnd(TrimStart(prefix + d)) == prefix + d && (prefix + d)[2..] == d
    ensures prefix <= prefix + d
  {
    var s := prefix + d;
    assert s[2..] == d && s[|s| - 1] == d[|d| - 1];
    NothingToTrim(s);
  }
}
