/** The executor quote: a restructured price conversion against the formula it was derived from. */
module Quote {
  import opened Prelude
  import opened Arithmetic

  const E9: nat := 1_000_000_000
  const E18: nat := 1_000_000_000_000_000_000
  const E27: nat := 1_000_000_000_000_000_000_000_000_000

  const DECIMALS_QUOTE: nat := 10
  const DECIMALS_MAX: nat := 18
  const DECIMALS_NATIVE: nat := 9      // Solana and Fogo
  const DECIMALS_GAS_PRICE: nat := 15  // Solana

  datatype SignedQuote = SignedQuote(baseFee: u64, gasPrice: u64, sourcePrice: u64, destinationPrice: u64)

  datatype QuoteError = ArithmeticOverflow | ConversionError

  function CheckedMul(a: nat, b: nat): Result<nat, QuoteError> {
    if a * b <= U128_MAX then Ok(a * b) else Err(ArithmeticOverflow)
  }

  function CheckedAdd(a: nat, b: nat): Result<nat, QuoteError> {
    if a + b <= U128_MAX then Ok(a + b) else Err(ArithmeticOverflow)
  }

  function CheckedDiv(a: nat, b: nat): Result<nat, QuoteError> {
    if b > 0 then Ok(a / b) else Err(ArithmeticOverflow)
  }

  function Normalize(amount: nat, from: nat, to: nat): Result<nat, QuoteError> {
    if from > to then
      PowPositive(10, from - to);
      Ok(amount / Pow(10, from - to))
    else CheckedMul(amount, Pow(10, to - from))
  }

  /** One priced term: an 18-decimal amount converted at destination over source price. */
  function Priced(amount: nat, q: SignedQuote): Result<nat, QuoteError> {
    var product :- CheckedMul(amount, q.destinationPrice);
    var converted :- CheckedDiv(product, q.sourcePrice);
    Normalize(converted, DECIMALS_MAX, DECIMALS_NATIVE)
  }

  /** The destination gas, priced. */
  function GasTerm(q: SignedQuote, gasLimit: nat): Result<nat, QuoteError> {
    var cost :- CheckedMul(gasLimit, q.gasPrice);
    var amount :- Normalize(cost, DECIMALS_GAS_PRICE, DECIMALS_MAX);
    Priced(amount, q)
  }

  /** The value delivered with the message, priced. */
  function MessageTerm(q: SignedQuote, msgValue: nat): Result<nat, QuoteError> {
    var amount :- Normalize(msgValue, DECIMALS_NATIVE, DECIMALS_MAX);
    Priced(amount, q)
  }

  function Summed(base: nat, gas: nat, msg: nat): Result<u64, QuoteError> {
    var partial :- CheckedAdd(base, gas);
    var total :- CheckedAdd(partial, msg);
    if total <= U64_MAX then Ok(total) else Err(ConversionError)
  }

  function ComputeExecAmount(q: SignedQuote, gasLimit: nat, msgValue: nat): Result<u64, QuoteError> {
    var base := Normalize(q.baseFee, DECIMALS_QUOTE, DECIMALS_NATIVE).value;  // a division: cannot fail
    var gas :- GasTerm(q, gasLimit);
    var msg :- MessageTerm(q, msgValue);
    Summed(base, gas, msg)
  }

  /** Accumulates the destination costs the relay pays for. */
  method ComputeMsgValueAndGasLimit(payDestinationAtaRent: bool) returns (msgValue: nat, gasLimit: nat)
    ensures gasLimit == 250_000
    ensures msgValue == if payDestinationAtaRent then 11_744_280 else 9_705_000
  {
    var signature := 5000;
    msgValue := 0;
    msgValue := Min(U128_MAX, msgValue + 2 * signature + 7 * signature + 1_400_000);
    msgValue := Min(U128_MAX, msgValue + 2 * signature + 7 * signature);
    msgValue := Min(U128_MAX, msgValue + 5000 + 3_200_000);
    msgValue := Min(U128_MAX, msgValue + 5000 + 5_000_000);
    msgValue := Min(U128_MAX, msgValue + 5000);
    if payDestinationAtaRent {
      msgValue := Min(U128_MAX, msgValue + 2_039_280);
    }
    gasLimit := 250_000;
  }

  // ------------------------------------------------------------- the two formulas

  /** floor(X * floor(pD * 10^18 / pS) / 10^27): the scale factor is rounded first. */
  function EarlyFloored(x: nat, pD: nat, pS: nat): nat
    requires pS > 0
  {
    x * (pD * E18 / pS) / E27
  }

  /** floor(floor(X * pD / pS) / 10^9): what the program computes. */
  function LateFloored(x: nat, pD: nat, pS: nat): nat
    requires pS > 0
  {
    x * pD / pS / E9
  }

  function Reference(q: SignedQuote, gasLimit: nat, msgValue: nat): nat
    requires q.sourcePrice > 0
  {
    q.baseFee / 10
    + EarlyFloored(gasLimit * q.gasPrice * 1000, q.destinationPrice, q.sourcePrice)
    + EarlyFloored(msgValue * E9, q.destinationPrice, q.sourcePrice)
  }

  function Unbounded(q: SignedQuote, gasLimit: nat, msgValue: nat): nat
    requires q.sourcePrice > 0
  {
    q.baseFee / 10
    + LateFloored(gasLimit * q.gasPrice * 1000, q.destinationPrice, q.sourcePrice)
    + LateFloored(msgValue * E9, q.destinationPrice, q.sourcePrice)
  }

  /** The nested floors of the late form are one floor over the product of the divisors. */
  lemma {:induction false} LateRemainder(n: nat, pS: nat) returns (late: nat, rem: nat)
    requires pS > 0
    ensures late == n / pS / E9 && n == late * (pS * E9) + rem && rem < pS * E9
  {
    var q1, r1 := Quotient(n, pS);
    var r2;
    late, r2 := Quotient(q1, E9);
    rem := r2 * pS + r1;
    assert n == (late * E9 + r2) * pS + r1;
    Reassociate(late, E9, pS);
    assert (late * E9 + r2) * pS == late * E9 * pS + r2 * pS;
    assert late * (pS * E9) == late * E9 * pS by {
      Reassociate(late, pS, E9);
      Reassociate(late, E9, pS);
    }
    MulLe(r2, E9 - 1, pS);
  }

  /** Both roundings of one term, over the common denominator pS * 10^27. */
  lemma {:induction false} TermEquation(x: nat, pD: nat, pS: nat) returns (scale: nat, f: nat, rem: nat)
    requires pS > 0
    ensures scale == pD * E18 / pS && f == pD * E18 % pS
    ensures x * pD == LateFloored(x, pD, pS) * (pS * E9) + rem
    ensures f < pS && rem < pS * E9
    ensures x * scale * pS == LateFloored(x, pD, pS) * E27 * pS + rem * E18 - x * f
  {
    var late;
    late, rem := LateRemainder(x * pD, pS);
    scale, f := Quotient(pD * E18, pS);
    Combine(x, pD, pS, scale, f, late, rem);
  }

  lemma {:induction false} Combine(x: nat, pD: nat, pS: nat, scale: nat, f: nat, late: nat, rem: nat)
    requires pD * E18 == scale * pS + f && x * pD == late * (pS * E9) + rem
    ensures x * scale * pS == late * E27 * pS + rem * E18 - x * f
  {
    calc {
      x * scale * pS;
      { Reassociate(x, scale, pS); }
      x * (scale * pS);
      x * (pD * E18 - f);
      x * (pD * E18) - x * f;
      { Reassociate(x, pD, E18); }
      (x * pD) * E18 - x * f;
      (late * (pS * E9) + rem) * E18 - x * f;
      late * (pS * E9) * E18 + rem * E18 - x * f;
      { Reassociate(late, pS, E9); Reassociate(late, E27, pS); }
      late * E27 * pS + rem * E18 - x * f;
    }
  }

  /** The late floor is never below the early floor, and above it by at most ceil(X / 10^27). */
  lemma {:induction false} TermIsClose(x: nat, pD: nat, pS: nat, n: nat)
    requires pS > 0 && x <= n * E27
    ensures EarlyFloored(x, pD, pS) <= LateFloored(x, pD, pS) <= EarlyFloored(x, pD, pS) + n
  {
    var scale, f, rem := TermEquation(x, pD, pS);
    var late, early := LateFloored(x, pD, pS), EarlyFloored(x, pD, pS);
    var q, r := Quotient(x * scale, E27);
    assert x * scale == early * E27 + r;
    // lower bound
    assert early * E27 <= x * scale;
    MulLe(early * E27, x * scale, pS);
    assert rem * E18 < pS * E27;
    assert x * f >= 0;
    assert (early * E27) * pS < (late * E27 + E27) * pS by {
      assert (late * E27 + E27) * pS == late * E27 * pS + E27 * pS;
    }
    if early > late {
      MulLe(late * E27 + E27, early * E27, pS);
    }
    // upper bound
    MulLe(f, pS, x);
    assert late * E27 * pS <= (x * scale + x) * pS by {
      assert (x * scale + x) * pS == x * scale * pS + x * pS;
    }
    CancelLe(late * E27, x * scale + x, pS);
    assert late * E27 < (early + 1 + n) * E27;
  }

  /**
   * Exactly when the two roundings of a term agree, read off the two remainders. The derivation in
   * the program's comments concludes they always agree for typical values; they need not.
   */
  lemma {:induction false} TermAgreesIff(x: nat, pD: nat, pS: nat)
    requires pS > 0 && x <= E27
    ensures EarlyFloored(x, pD, pS) == LateFloored(x, pD, pS) <==> TermExact(x, pD, pS)
  {
    TermIsClose(x, pD, pS, 1);
    var scale, f, rem := TermEquation(x, pD, pS);
    var late := LateFloored(x, pD, pS);
    assert rem == x * pD % (pS * E9) by {
      assert pS * E9 > 0;
      RemainderIsUnique(x * pD, pS * E9, late, rem);
    }
    if x * f <= rem * E18 {
      CancelLe(late * E27, x * scale, pS);
      var q, r := Quotient(x * scale, E27);
      assert q >= late;
    } else {
      assert x * scale < late * E27 by {
        if x * scale >= late * E27 {
          MulLe(late * E27, x * scale, pS);
        }
      }
    }
  }

  lemma {:induction false} RemainderIsUnique(n: nat, d: nat, q: nat, r: nat)
    requires d > 0 && n == q * d + r && r < d
    ensures r == n % d
  {
    var q', r' := Quotient(n, d);
    if q < q' {
      MulLe(q + 1, q', d);
    } else if q' < q {
      MulLe(q' + 1, q, d);
    }
  }

  // ------------------------------------------------------------------ main results

  lemma {:induction false} Powers()
    ensures Pow(10, 1) == 10 && Pow(10, 3) == 1000 && Pow(10, 9) == E9
  {
    assert Pow(10, 3) == 10 * Pow(10, 2) == 10 * (10 * Pow(10, 1));
    assert Pow(10, 6) == 10 * (10 * (10 * Pow(10, 3)));
    assert Pow(10, 9) == 10 * (10 * (10 * Pow(10, 6)));
  }

  predicate ProductsFit(q: SignedQuote, gasLimit: nat, msgValue: nat) {
    && gasLimit * q.gasPrice * 1000 <= U128_MAX
    && gasLimit * q.gasPrice * 1000 * q.destinationPrice <= U128_MAX
    && msgValue * E9 <= U128_MAX
    && msgValue * E9 * q.destinationPrice <= U128_MAX
  }

  lemma {:induction false} PricedIs(amount: nat, q: SignedQuote)
    ensures Priced(amount, q).Ok? <==> amount * q.destinationPrice <= U128_MAX && q.sourcePrice > 0
    ensures Priced(amount, q).Ok? ==> Priced(amount, q).value == LateFloored(amount, q.destinationPrice, q.sourcePrice)
                                      && Priced(amount, q).value <= U128_MAX / E9
  {
    Powers();
    if amount * q.destinationPrice <= U128_MAX && q.sourcePrice > 0 {
      var a, _ := Quotient(amount * q.destinationPrice, q.sourcePrice);
      MulLe(1, q.sourcePrice, a);
      assert a <= U128_MAX;
    }
  }

  lemma {:induction false} GasTermIs(q: SignedQuote, gasLimit: nat)
    ensures GasTerm(q, gasLimit).Ok? <==>
              && q.sourcePrice > 0 && gasLimit * q.gasPrice <= U128_MAX && gasLimit * q.gasPrice * 1000 <= U128_MAX
              && gasLimit * q.gasPrice * 1000 * q.destinationPrice <= U128_MAX
    ensures GasTerm(q, gasLimit).Ok? ==>
              && GasTerm(q, gasLimit).value ==
                 LateFloored(gasLimit * q.gasPrice * 1000, q.destinationPrice, q.sourcePrice)
              && GasTerm(q, gasLimit).value <= U128_MAX / E9
  {
    Powers();
    PricedIs(gasLimit * q.gasPrice * 1000, q);
  }

  lemma {:induction false} MessageTermIs(q: SignedQuote, msgValue: nat)
    ensures MessageTerm(q, msgValue).Ok? <==>
              && q.sourcePrice > 0 && msgValue * E9 <= U128_MAX && msgValue * E9 * q.destinationPrice <= U128_MAX
    ensures MessageTerm(q, msgValue).Ok? ==>
              && MessageTerm(q, msgValue).value == LateFloored(msgValue * E9, q.destinationPrice, q.sourcePrice)
              && MessageTerm(q, msgValue).value <= U128_MAX / E9
  {
    Powers();
    PricedIs(msgValue * E9, q);
  }

  lemma {:induction false} SummedIs(base: nat, gas: nat, msg: nat)
    requires base <= U64_MAX && gas <= U128_MAX / E9 && msg <= U128_MAX / E9
    ensures Summed(base, gas, msg) == if base + gas + msg <= U64_MAX then Ok(base + gas + msg) else Err(ConversionError)
  {
  }

  /** The only ways to fail: a zero source price, a product past 128 bits, or a total past 64 bits. */
  lemma {:induction false} SucceedsIff(q: SignedQuote, gasLimit: nat, msgValue: nat)
    ensures ComputeExecAmount(q, gasLimit, msgValue).Ok? <==>
              && q.sourcePrice > 0 && ProductsFit(q, gasLimit, msgValue)
              && Unbounded(q, gasLimit, msgValue) <= U64_MAX
    ensures ComputeExecAmount(q, gasLimit, msgValue).Ok? ==>
              ComputeExecAmount(q, gasLimit, msgValue).value == Unbounded(q, gasLimit, msgValue)
  {
    Powers();
    GasTermIs(q, gasLimit);
    MessageTermIs(q, msgValue);
    if GasTerm(q, gasLimit).Ok? && MessageTerm(q, msgValue).Ok? {
      SummedIs(q.baseFee / 10, GasTerm(q, gasLimit).value, MessageTerm(q, msgValue).value);
    }
  }

  /**
   * Whenever it succeeds, the computed amount covers the reference and exceeds it by at most two,
   * for every quote with gasLimit * gasPrice <= 10^24 and msgValue <= 10^18.
   */
  lemma {:induction false} OverestimatesByAtMostTwo(q: SignedQuote, gasLimit: nat, msgValue: nat)
    requires ComputeExecAmount(q, gasLimit, msgValue).Ok?
    requires gasLimit * q.gasPrice <= 1_000_000 * E18 && msgValue <= E18
    ensures q.sourcePrice > 0
    ensures var r := Reference(q, gasLimit, msgValue);
            r <= ComputeExecAmount(q, gasLimit, msgValue).value <= r + 2
  {
    SucceedsIff(q, gasLimit, msgValue);
    TermIsClose(gasLimit * q.gasPrice * 1000, q.destinationPrice, q.sourcePrice, 1);
    TermIsClose(msgValue * E9, q.destinationPrice, q.sourcePrice, 1);
  }

  /** A term is not overestimated: a comparison of what the two divisions leave over. */
  predicate TermExact(x: nat, pD: nat, pS: nat)
    requires pS > 0
  {
    x * (pD * E18 % pS) <= (x * pD % (pS * E9)) * E18
  }

  /** In that range, the computed amount is the reference exactly when neither term is overestimated. */
  lemma {:induction false} QuoteAgreesIff(q: SignedQuote, gasLimit: nat, msgValue: nat)
    requires ComputeExecAmount(q, gasLimit, msgValue).Ok?
    requires gasLimit * q.gasPrice <= 1_000_000 * E18 && msgValue <= E18
    ensures q.sourcePrice > 0
    ensures ComputeExecAmount(q, gasLimit, msgValue).value == Reference(q, gasLimit, msgValue) <==>
              && TermExact(gasLimit * q.gasPrice * 1000, q.destinationPrice, q.sourcePrice)
              && TermExact(msgValue * E9, q.destinationPrice, q.sourcePrice)
  {
    SucceedsIff(q, gasLimit, msgValue);
    TermIsClose(gasLimit * q.gasPrice * 1000, q.destinationPrice, q.sourcePrice, 1);
    TermIsClose(msgValue * E9, q.destinationPrice, q.sourcePrice, 1);
    TermAgreesIff(gasLimit * q.gasPrice * 1000, q.destinationPrice, q.sourcePrice);
    TermAgreesIff(msgValue * E9, q.destinationPrice, q.sourcePrice);
  }

  /** The bound of two is reached, at the gas limit and message value the program itself uses. */
  lemma {:induction false} TwoIsReached()
    ensures var q := SignedQuote(0, 12, 3, 1);
            && ComputeExecAmount(q, 250_000, 11_744_280) == Ok(3_914_761)
            && Reference(q, 250_000, 11_744_280) == 3_914_759
  {
    var q := SignedQuote(0, 12, 3, 1);
    SucceedsIff(q, 250_000, 11_744_280);
  }

  /** With the program's own costs and a gas price up to 10^8, no intermediate product overflows. */
  lemma {:induction false} SolanaNeverOverflows(q: SignedQuote, payRent: bool)
    requires q.gasPrice <= 100_000_000
    ensures var msgValue := if payRent then 11_744_280 else 9_705_000;
            ComputeExecAmount(q, 250_000, msgValue).Ok? <==>
              q.sourcePrice > 0 && Unbounded(q, 250_000, msgValue) <= U64_MAX
  {
    var msgValue := if payRent then 11_744_280 else 9_705_000;
    SucceedsIff(q, 250_000, msgValue);
    MulLe(250_000 * q.gasPrice * 1000, 250_000 * 100_000_000 * 1000, q.destinationPrice);
    MulLe(msgValue * E9, 11_744_280 * E9, q.destinationPrice);
  }
}
