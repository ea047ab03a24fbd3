/** Venue pricing and the swap floor a user signs. */
module Nav {
  import opened Prelude
  import opened Arithmetic
  import opened Bytes

  const E9: nat := 1_000_000_000
  const BPS: nat := 10_000
  const APR_SCALE: nat := 1_000_000
  const SECONDS_IN_YEAR: nat := 31_536_000
  const OFFER_ACCOUNT_SIZE := 608
  const VECTORS_OFFSET := 72
  const VECTOR_SIZE := 40
  const MAX_VECTORS := 10
  const NTT_TRIMMING_DECIMALS: nat := 8

  datatype NavError = Overflow | NoActiveVector | OfferTooShort | Range

  function AsU64(x: nat): Result<u64, NavError> { if x <= U64_MAX then Ok(x) else Err(Overflow) }

  // ------------------------------------------------------------------ conversions

  function RedemptionExpectedOut(amount: nat, price: nat, decimalsIn: nat, decimalsOut: nat): Result<u64, NavError> {
    PowPositive(10, decimalsIn);
    AsU64(amount * price * Pow(10, decimalsOut) / (Pow(10, decimalsIn) * E9))
  }

  function DepositExpectedOut(amount: nat, price: nat, decimalsIn: nat, decimalsOut: nat): Result<u64, NavError> {
    if price == 0 then Err(NoActiveVector)
    else
      PowPositive(10, decimalsIn);
      AsU64(amount * Pow(10, decimalsOut) * E9 / (price * Pow(10, decimalsIn)))
  }

  function ApplyNttTrim(amount: nat, decimals: int): Result<nat, NavError> {
    if decimals < 0 || decimals > 255 then Err(Range)
    else if decimals <= NTT_TRIMMING_DECIMALS then Ok(amount)
    else
      PowPositive(10, decimals - NTT_TRIMMING_DECIMALS);
      var factor := Pow(10, decimals - NTT_TRIMMING_DECIMALS);
      Ok(amount / factor * factor)
  }

  /** Whole quotients below a real one: `f` fits under `n / d` as soon as `f * d <= n`. */
  lemma {:induction false} FitsUnder(f: nat, n: nat, d: nat)
    requires d > 0 && f * d <= n
    ensures f <= n / d
  {
    var q, r := Quotient(n, d);
    if f > q {
      MulLe(q + 1, f, d);
    }
  }

  function Times(count: nat, unit: nat): nat { count * unit }

  ghost predicate WholeUnits(n: nat, unit: nat) { exists count: nat :: Times(count, unit) == n }

  /** Trimming drops less than one bridge unit, and trimming again changes nothing. */
  lemma {:induction false} TrimIsStable(amount: nat, decimals: int)
    requires 0 <= decimals <= 255
    ensures ApplyNttTrim(amount, decimals).Ok?
    ensures var t := ApplyNttTrim(amount, decimals).value;
            && t <= amount && ApplyNttTrim(t, decimals) == Ok(t)
            && amount - t < Pow(10, Max(0, decimals - NTT_TRIMMING_DECIMALS))
            && WholeUnits(t, Pow(10, Max(0, decimals - NTT_TRIMMING_DECIMALS)))
  {
    if decimals > NTT_TRIMMING_DECIMALS {
      var k: nat := decimals - NTT_TRIMMING_DECIMALS;
      PowPositive(10, k);
      var q, r := Quotient(amount, Pow(10, k));
      var q2, r2 := Quotient(q * Pow(10, k), Pow(10, k));
      FitsUnder(q, q * Pow(10, k), Pow(10, k));
      CancelLe(q2, q, Pow(10, k));
      assert Times(q, Pow(10, k)) == q * Pow(10, k);
    } else {
      assert Pow(10, 0) == 1 && Times(amount, 1) == amount;
    }
  }

  /** A redemption pays the whole part of amount times price, scaled between the two precisions. */
  lemma {:induction false} RedemptionIs(amount: nat, price: nat, decimalsIn: nat, decimalsOut: nat)
    ensures var num, den := amount * price * Pow(10, decimalsOut), Pow(10, decimalsIn) * 1_000_000_000;
            var r := RedemptionExpectedOut(amount, price, decimalsIn, decimalsOut);
            && (r.Ok? <==> num < (U64_MAX + 1) * den)
            && (r.Ok? ==> r.value * den <= num < (r.value + 1) * den)
  {
    PowPositive(10, decimalsIn);
    WholePart(amount * price * Pow(10, decimalsOut), Pow(10, decimalsIn) * E9);
  }

  /** A deposit pays the whole part of amount over price, scaled the other way round. */
  lemma {:induction false} DepositIs(amount: nat, price: nat, decimalsIn: nat, decimalsOut: nat)
    ensures var num, den := amount * Pow(10, decimalsOut) * 1_000_000_000, price * Pow(10, decimalsIn);
            var r := DepositExpectedOut(amount, price, decimalsIn, decimalsOut);
            && (r.Ok? <==> price > 0 && num < (U64_MAX + 1) * den)
            && (r.Ok? ==> r.value * den <= num < (r.value + 1) * den)
  {
    PowPositive(10, decimalsIn);
    if price > 0 {
      assert price * Pow(10, decimalsIn) > 0;
      WholePart(amount * Pow(10, decimalsOut) * E9, price * Pow(10, decimalsIn));
    }
  }

  lemma {:induction false} WholePart(num: nat, den: nat)
    requires den > 0
    ensures num / den * den <= num < (num / den + 1) * den
    ensures num / den <= U64_MAX <==> num < (U64_MAX + 1) * den
  {
    var q, r := Quotient(num, den);
    assert (q + 1) * den == q * den + den;
    if q <= U64_MAX {
      MulLe(q + 1, U64_MAX + 1, den);
    } else {
      MulLe(U64_MAX + 1, q, den);
    }
  }

  /** Depositing and redeeming at one price gains nothing, and loses less than one output unit's price plus one. */
  lemma {:induction false} RoundTripLoss(amount: nat, price: nat, decimalsIn: nat, decimalsOut: nat)
    requires DepositExpectedOut(amount, price, decimalsIn, decimalsOut).Ok?
    ensures var out := DepositExpectedOut(amount, price, decimalsIn, decimalsOut).value;
            var back := out * price * Pow(10, decimalsIn) / (PowPositive(10, decimalsOut); Pow(10, decimalsOut) * E9);
            && back <= amount
            && (amount - back - 1) * (Pow(10, decimalsOut) * E9) < price * Pow(10, decimalsIn)
  {
    var pi, po := Pow(10, decimalsIn), Pow(10, decimalsOut);
    PowPositive(10, decimalsIn);
    PowPositive(10, decimalsOut);
    var d, e := price * pi, po * E9;
    var n := amount * po * E9;
    assert n == amount * e by { Reassociate(amount, po, E9); }
    assert d > 0;
    var out, r1 := Quotient(n, d);
    var m := out * price * pi;
    assert m == out * d by { Reassociate(out, price, pi); }
    assert e > 0;
    var back, r2 := Quotient(m, e);
    CancelLe(back, amount, e);
    assert (amount - back - 1) * e == amount * e - back * e - e;
  }

  // --------------------------------------------------------------------- the floor

  /** The signed floor from an expected output and a slippage tolerance. */
  function Haircut(expected: nat, slippageBps: nat): nat
    requires slippageBps <= BPS
  {
    expected * (BPS - slippageBps) / BPS
  }

  function NetOfFee(amount: nat, feeBps: nat): int { amount - amount * feeBps / BPS }

  datatype Direction = Deposit | Withdraw

  predicate InRange(slippageBps: int, amount: nat) { 0 <= slippageBps <= BPS && amount > 0 }

  /** `computeMinSwapOut` once the price is known. */
  function FloorAtPrice(d: Direction, amount: nat, price: nat, baseDecimals: nat, assetDecimals: nat,
                        slippageBps: int, withdrawFeeBps: int): Result<nat, NavError>
  {
    if !InRange(slippageBps, amount) then Err(Range)
    else if d.Withdraw? && (withdrawFeeBps < 0 || withdrawFeeBps > BPS || NetOfFee(amount, withdrawFeeBps) <= 0) then Err(Range)
    else
      var expected :- if d.Deposit? then DepositExpectedOut(amount, price, baseDecimals, assetDecimals)
                      else RedemptionExpectedOut(NetOfFee(amount, withdrawFeeBps), price, assetDecimals, baseDecimals);
      if Haircut(expected, slippageBps) == 0 then Err(Range) else Ok(Haircut(expected, slippageBps))
  }

  lemma {:induction false} HaircutBound(expected: nat, slippageBps: nat)
    requires slippageBps <= BPS
    ensures Haircut(expected, slippageBps) * BPS <= expected * (BPS - slippageBps)
  {
    var q, r := Quotient(expected * (BPS - slippageBps), BPS);
  }

  /** A deposit floor is met at every later price that rose no more than the slippage allows. */
  lemma {:induction false} DepositFloorSurvives(amount: nat, price: nat, later: nat, baseDecimals: nat, assetDecimals: nat,
                                                slippageBps: int, withdrawFeeBps: int)
    requires FloorAtPrice(Deposit, amount, price, baseDecimals, assetDecimals, slippageBps, withdrawFeeBps).Ok?
    requires later * (BPS - slippageBps) <= price * BPS
    requires DepositExpectedOut(amount, later, baseDecimals, assetDecimals).Ok?
    ensures FloorAtPrice(Deposit, amount, price, baseDecimals, assetDecimals, slippageBps, withdrawFeeBps).value
            <= DepositExpectedOut(amount, later, baseDecimals, assetDecimals).value
  {
    var pi, po := Pow(10, baseDecimals), Pow(10, assetDecimals);
    PowPositive(10, baseDecimals);
    var n, keep := amount * po * E9, BPS - slippageBps;
    var expected := DepositExpectedOut(amount, price, baseDecimals, assetDecimals).value;
    var floor := Haircut(expected, slippageBps);
    HaircutBound(expected, slippageBps);
    assert price * pi > 0 && later * pi > 0;
    var q, r := Quotient(n, price * pi);
    DepositChain(floor, expected, keep, later, price, pi, n);
    FitsUnder(floor, n, later * pi);
  }

  lemma {:induction false} DepositChain(floor: nat, expected: nat, keep: nat, later: nat, price: nat, pi: nat, n: nat)
    requires floor * BPS <= expected * keep && later * keep <= price * BPS && expected * (price * pi) <= n
    ensures floor * (later * pi) <= n
  {
    var lp, ep := later * pi, expected * pi;
    calc {
      floor * lp * BPS;
    ==  { Reassociate(floor, lp, BPS); }
      floor * BPS * lp;
    <=  { MulLe(floor * BPS, expected * keep, lp); }
      expected * keep * lp;
    ==  { Interchange(expected, keep, later, pi); }
      later * keep * ep;
    <=  { MulLe(later * keep, price * BPS, ep); }
      price * BPS * ep;
    ==  { Reassociate(price, BPS, ep); Reassociate(price, expected, pi); }
      expected * (price * pi) * BPS;
    <=  { MulLe(expected * (price * pi), n, BPS); }
      n * BPS;
    }
    CancelLe(floor * lp, n, BPS);
  }

  lemma {:induction false} Interchange(a: int, b: int, c: int, d: int)
    ensures a * b * (c * d) == c * b * (a * d)
  {
    Reassociate(a * b, c, d);
    Reassociate(c * b, a, d);
    Reassociate(a, b, c);
    Reassociate(c, b, a);
  }

  /** A lower fee leaves at least as much to swap. */
  lemma {:induction false} NetGrows(amount: nat, fee: nat, lower: nat)
    requires lower <= fee
    ensures NetOfFee(amount, lower) >= NetOfFee(amount, fee)
  {
    MulLe(lower, fee, amount);
    var q1, r1 := Quotient(amount * lower, BPS);
    var q2, r2 := Quotient(amount * fee, BPS);
  }

  /** A withdraw floor is met at every later price within the slippage, unless the fee was raised. */
  lemma {:induction false} WithdrawFloorSurvives(amount: nat, price: nat, later: nat, baseDecimals: nat, assetDecimals: nat,
                                                 slippageBps: int, signedFee: int, liveFee: int)
    requires FloorAtPrice(Withdraw, amount, price, baseDecimals, assetDecimals, slippageBps, signedFee).Ok?
    requires 0 <= liveFee <= signedFee && later * BPS >= price * (BPS - slippageBps)
    ensures NetOfFee(amount, liveFee) >= 0
    ensures var out := RedemptionExpectedOut(NetOfFee(amount, liveFee), later, assetDecimals, baseDecimals);
            out.Ok? ==>
              FloorAtPrice(Withdraw, amount, price, baseDecimals, assetDecimals, slippageBps, signedFee).value <= out.value
  {
    NetGrows(amount, signedFee, liveFee);
    var pi, po := Pow(10, assetDecimals), Pow(10, baseDecimals);
    PowPositive(10, assetDecimals);
    var net: nat, liveNet: nat := NetOfFee(amount, signedFee), NetOfFee(amount, liveFee);
    var d, keep := pi * E9, BPS - slippageBps;
    var expected := RedemptionExpectedOut(net, price, assetDecimals, baseDecimals).value;
    HaircutBound(expected, slippageBps);
    var q, r := Quotient(net * price * po, d);
    NumeratorDrift(keep, later, price, po, net, liveNet);
    WithdrawChain(Haircut(expected, slippageBps), expected, keep, net * price * po, liveNet * later * po, d);
    FitsUnder(Haircut(expected, slippageBps), liveNet * later * po, d);
  }

  lemma {:induction false} Regroup(a: int, b: int, c: int)
    ensures a * (b * c) == (a * b) * c == b * (a * c)
  {
  }

  /** A price within the slippage keeps the venue's numerator within the slippage. */
  lemma {:induction false} NumeratorDrift(keep: nat, later: nat, price: nat, po: nat, net: nat, liveNet: nat)
    requires price * keep <= later * BPS && net <= liveNet
    ensures keep * (net * price * po) <= BPS * (liveNet * later * po)
  {
    var k := net * po;
    MulLe(price * keep, later * BPS, k);
    assert keep * (net * price * po) == price * keep * k by {
      assert net * price * po == price * k;
      Regroup(keep, price, k);
    }
    MulLe(net, liveNet, later * po);
    assert later * BPS * k == BPS * (net * (later * po)) by {
      Regroup(net, later, po);
      Regroup(BPS, later, k);
    }
    assert liveNet * later * po == liveNet * (later * po) by { Regroup(liveNet, later, po); }
  }

  lemma {:induction false} WithdrawChain(floor: nat, expected: nat, keep: nat, x: nat, y: nat, d: nat)
    requires floor * BPS <= expected * keep && expected * d <= x && keep * x <= BPS * y
    ensures floor * d <= y
  {
    MulLe(floor * BPS, expected * keep, d);
    MulLe(expected * d, x, keep);
    assert expected * keep * d == expected * d * keep by { Reassociate(expected, keep, d); }
    assert floor * BPS * d == floor * d * BPS by { Reassociate(floor, BPS, d); }
    CancelLe(floor * d, y, BPS);
  }

  /** The output a floor is taken from: of the whole input, or of the input less the withdraw fee. */
  function ExpectedOut(d: Direction, amount: nat, price: nat, baseDecimals: nat, assetDecimals: nat, withdrawFeeBps: int)
    : Result<u64, NavError>
  {
    if d.Deposit? then DepositExpectedOut(amount, price, baseDecimals, assetDecimals)
    else if withdrawFeeBps < 0 || NetOfFee(amount, withdrawFeeBps) < 0 then Err(Range)
    else RedemptionExpectedOut(NetOfFee(amount, withdrawFeeBps), price, assetDecimals, baseDecimals)
  }

  /** The withdraw fee is the whole part of its share of the input. */
  lemma {:induction false} NetIs(amount: nat, feeBps: nat)
    ensures var fee := amount - NetOfFee(amount, feeBps); fee * 10_000 <= amount * feeBps < (fee + 1) * 10_000
  {
    var q, r := Quotient(amount * feeBps, BPS);
  }

  /** The floor protects: it is the whole part of the tolerated share of the expected output, and never zero. */
  lemma {:induction false} FloorIsTight(d: Direction, amount: nat, price: nat, baseDecimals: nat, assetDecimals: nat,
                                        slippageBps: int, withdrawFeeBps: int)
    requires FloorAtPrice(d, amount, price, baseDecimals, assetDecimals, slippageBps, withdrawFeeBps).Ok?
    ensures ExpectedOut(d, amount, price, baseDecimals, assetDecimals, withdrawFeeBps).Ok? && 0 <= slippageBps <= 10_000
    ensures var f := FloorAtPrice(d, amount, price, baseDecimals, assetDecimals, slippageBps, withdrawFeeBps).value;
            var e := ExpectedOut(d, amount, price, baseDecimals, assetDecimals, withdrawFeeBps).value;
            0 < f && f * 10_000 <= e * (10_000 - slippageBps) < (f + 1) * 10_000
  {
    var e := ExpectedOut(d, amount, price, baseDecimals, assetDecimals, withdrawFeeBps).value;
    var q, r := Quotient(e * (BPS - slippageBps), BPS);
  }

  /** A floor is computed exactly when the options are in range and a whole output unit is left of the tolerated share. */
  lemma {:induction false} FloorSucceedsIff(d: Direction, amount: nat, price: nat, baseDecimals: nat, assetDecimals: nat,
                                            slippageBps: int, withdrawFeeBps: int)
    ensures FloorAtPrice(d, amount, price, baseDecimals, assetDecimals, slippageBps, withdrawFeeBps).Ok? <==>
              && amount > 0 && 0 <= slippageBps <= 10_000
              && (d.Withdraw? ==> 0 <= withdrawFeeBps <= 10_000 && amount * withdrawFeeBps < amount * 10_000)
              && ExpectedOut(d, amount, price, baseDecimals, assetDecimals, withdrawFeeBps).Ok?
              && ExpectedOut(d, amount, price, baseDecimals, assetDecimals, withdrawFeeBps).value * (10_000 - slippageBps) >= 10_000
  {
    if 0 <= slippageBps <= 10_000 && ExpectedOut(d, amount, price, baseDecimals, assetDecimals, withdrawFeeBps).Ok? {
      var e := ExpectedOut(d, amount, price, baseDecimals, assetDecimals, withdrawFeeBps).value;
      var q, r := Quotient(e * (BPS - slippageBps), BPS);
    }
    if d.Withdraw? && withdrawFeeBps >= 0 {
      NetPositiveIff(amount, withdrawFeeBps);
    }
  }

  lemma {:induction false} NetPositiveIff(amount: nat, feeBps: nat)
    ensures NetOfFee(amount, feeBps) > 0 <==> amount * feeBps < amount * 10_000
  {
    NetIs(amount, feeBps);
  }

  /** At the worst tolerated price of a deposit the output exceeds the floor by at most one unit. */
  lemma {:induction false} DepositFloorIsNearlyLargest(amount: nat, price: nat, later: nat, baseDecimals: nat,
                                                       assetDecimals: nat, slippageBps: int, withdrawFeeBps: int)
    requires FloorAtPrice(Deposit, amount, price, baseDecimals, assetDecimals, slippageBps, withdrawFeeBps).Ok?
    requires later * (10_000 - slippageBps) == price * 10_000
    requires DepositExpectedOut(amount, later, baseDecimals, assetDecimals).Ok?
    ensures DepositExpectedOut(amount, later, baseDecimals, assetDecimals).value
            <= FloorAtPrice(Deposit, amount, price, baseDecimals, assetDecimals, slippageBps, withdrawFeeBps).value + 1
  {
    FloorIsTight(Deposit, amount, price, baseDecimals, assetDecimals, slippageBps, withdrawFeeBps);
    DepositIs(amount, price, baseDecimals, assetDecimals);
    DepositIs(amount, later, baseDecimals, assetDecimals);
    PowPositive(10, baseDecimals);
    var e := DepositExpectedOut(amount, price, baseDecimals, assetDecimals).value;
    var f := FloorAtPrice(Deposit, amount, price, baseDecimals, assetDecimals, slippageBps, withdrawFeeBps).value;
    var e' := DepositExpectedOut(amount, later, baseDecimals, assetDecimals).value;
    WorstDeposit(e', e, f, 10_000 - slippageBps, later, price, Pow(10, baseDecimals), amount * Pow(10, assetDecimals) * E9);
  }

  lemma {:induction false} WorstDeposit(e': nat, e: nat, f: nat, keep: nat, later: nat, price: nat, pi: nat, n: nat)
    requires price > 0 && pi > 0 && keep <= 10_000 && later * keep == price * 10_000
    requires e' * (later * pi) <= n < (e + 1) * (price * pi) && e * keep < (f + 1) * 10_000
    ensures e' <= f + 1
  {
    var pp := price * pi;
    calc {
      e' * 10_000 * pp;
    ==  { Interchange(e', 10_000, price, pi); Reassociate(price, 10_000, e' * pi); }
      price * 10_000 * (e' * pi);
    ==
      later * keep * (e' * pi);
    ==  { Interchange(later, keep, e', pi); }
      e' * keep * (later * pi);
    ==  { Reassociate(e', keep, later * pi); }
      e' * (later * pi) * keep;
    <=  { MulLe(e' * (later * pi), n, keep); }
      n * keep;
    <=  { MulLe(n, (e + 1) * pp, keep); }
      (e + 1) * pp * keep;
    ==  { Reassociate(e + 1, pp, keep); }
      (e + 1) * keep * pp;
    }
    assert pp > 0;
    CancelLe(e' * 10_000, (e + 1) * keep, pp);
    assert (e + 1) * keep == e * keep + keep;
  }

  /** At the worst tolerated price of a withdraw the output exceeds the floor by at most one unit. */
  lemma {:induction false} WithdrawFloorIsNearlyLargest(amount: nat, price: nat, later: nat, baseDecimals: nat,
                                                        assetDecimals: nat, slippageBps: int, withdrawFeeBps: int)
    requires FloorAtPrice(Withdraw, amount, price, baseDecimals, assetDecimals, slippageBps, withdrawFeeBps).Ok?
    requires later * 10_000 == price * (10_000 - slippageBps)
    requires ExpectedOut(Withdraw, amount, later, baseDecimals, assetDecimals, withdrawFeeBps).Ok?
    ensures ExpectedOut(Withdraw, amount, later, baseDecimals, assetDecimals, withdrawFeeBps).value
            <= FloorAtPrice(Withdraw, amount, price, baseDecimals, assetDecimals, slippageBps, withdrawFeeBps).value + 1
  {
    FloorIsTight(Withdraw, amount, price, baseDecimals, assetDecimals, slippageBps, withdrawFeeBps);
    var net: nat, po := NetOfFee(amount, withdrawFeeBps), Pow(10, baseDecimals);
    RedemptionIs(net, price, assetDecimals, baseDecimals);
    RedemptionIs(net, later, assetDecimals, baseDecimals);
    PowPositive(10, assetDecimals);
    var e := RedemptionExpectedOut(net, price, assetDecimals, baseDecimals).value;
    var f := FloorAtPrice(Withdraw, amount, price, baseDecimals, assetDecimals, slippageBps, withdrawFeeBps).value;
    var e' := RedemptionExpectedOut(net, later, assetDecimals, baseDecimals).value;
    WorstWithdraw(e', e, f, 10_000 - slippageBps, later, price, net, po, Pow(10, assetDecimals) * E9);
  }

  lemma {:induction false} WorstWithdraw(e': nat, e: nat, f: nat, keep: nat, later: nat, price: nat, net: nat, po: nat, den: nat)
    requires den > 0 && keep <= 10_000 && later * 10_000 == price * keep
    requires e' * den <= net * later * po && net * price * po < (e + 1) * den && e * keep < (f + 1) * 10_000
    ensures e' <= f + 1
  {
    var np := net * po;
    calc {
      e' * 10_000 * den;
    ==  { Reassociate(e', 10_000, den); }
      e' * den * 10_000;
    <=  { MulLe(e' * den, net * later * po, 10_000); }
      net * later * po * 10_000;
    ==  { Reassociate(net, later, po); Reassociate(np, later, 10_000); }
      np * (later * 10_000);
    ==
      np * (price * keep);
    ==  { Reassociate(np, price, keep); Reassociate(net, price, po); }
      net * price * po * keep;
    <=  { MulLe(net * price * po, (e + 1) * den, keep); }
      (e + 1) * den * keep;
    ==  { Reassociate(e + 1, den, keep); }
      (e + 1) * keep * den;
    }
    CancelLe(e' * 10_000, (e + 1) * keep, den);
    assert (e + 1) * keep == e * keep + keep;
  }

  // --------------------------------------------------------------- pricing vectors

  datatype OfferVector = OfferVector(startTime: u64, baseTime: u64, basePrice: u64, apr: u64, priceFixDuration: u64)

  function U64At(data: bytes, at: nat): u64
    requires at + 8 <= |data|
  {
    FromLeFits(data[at..at + 8]);
    Widths();
    FromLe(data[at..at + 8])
  }

  function Slot(i: nat): nat { VECTORS_OFFSET + i * VECTOR_SIZE }

  function VectorAt(data: bytes, i: nat): OfferVector
    requires |data| >= OFFER_ACCOUNT_SIZE && i < MAX_VECTORS
  {
    OfferVector(U64At(data, Slot(i)), U64At(data, Slot(i) + 8), U64At(data, Slot(i) + 16),
                U64At(data, Slot(i) + 24), U64At(data, Slot(i) + 32))
  }

  predicate Started(v: OfferVector, now: nat) { v.startTime != 0 && v.startTime <= now }

  predicate NoneStarted(data: bytes, now: nat)
    requires |data| >= OFFER_ACCOUNT_SIZE
  {
    forall i :: 0 <= i < MAX_VECTORS ==> !Started(VectorAt(data, i), now)
  }

  /** Slot `i` holds the first of the latest-started vectors. */
  predicate IsActive(data: bytes, now: nat, i: nat)
    requires |data| >= OFFER_ACCOUNT_SIZE
  {
    && i < MAX_VECTORS && Started(VectorAt(data, i), now)
    && (forall j :: 0 <= j < MAX_VECTORS && Started(VectorAt(data, j), now) ==>
          VectorAt(data, j).startTime <= VectorAt(data, i).startTime)
    && (forall j :: 0 <= j < i && Started(VectorAt(data, j), now) ==>
          VectorAt(data, j).startTime < VectorAt(data, i).startTime)
  }

  method ParseActiveOfferVector(data: bytes, now: nat) returns (r: Result<OfferVector, NavError>)
    ensures r == Err(OfferTooShort) <==> |data| < OFFER_ACCOUNT_SIZE
    ensures |data| >= OFFER_ACCOUNT_SIZE && r.Err? ==>
              r == Err(NoActiveVector) && NoneStarted(data, now)
    ensures r.Ok? ==> |data| >= OFFER_ACCOUNT_SIZE && exists i: nat :: IsActive(data, now, i) && r.value == VectorAt(data, i)
  {
    if |data| < OFFER_ACCOUNT_SIZE {
      return Err(OfferTooShort);
    }
    var best: Option<OfferVector> := None;
    ghost var at := 0;
    for i := 0 to MAX_VECTORS
      invariant best.None? ==> forall j :: 0 <= j < i ==> !Started(VectorAt(data, j), now)
      invariant best.Some? ==> at < i && best.value == VectorAt(data, at) && Started(best.value, now)
      invariant best.Some? ==> forall j :: 0 <= j < i && Started(VectorAt(data, j), now) ==>
                                 VectorAt(data, j).startTime <= best.value.startTime
      invariant best.Some? ==> forall j :: 0 <= j < at && Started(VectorAt(data, j), now) ==>
                                 VectorAt(data, j).startTime < best.value.startTime
    {
      var v := VectorAt(data, i);
      if v.startTime == 0 || v.startTime > now {
        continue;
      }
      if best.None? || v.startTime > best.value.startTime {
        best := Some(v);
        at := i;
      }
    }
    if best.None? {
      return Err(NoActiveVector);
    }
    assert IsActive(data, now, at);
    r := Ok(best.value);
  }

  /** There is at most one active slot. */
  lemma {:induction false} ActiveIsUnique(data: bytes, now: nat, i: nat, j: nat)
    requires |data| >= OFFER_ACCOUNT_SIZE && IsActive(data, now, i) && IsActive(data, now, j)
    ensures i == j
  {
  }

  // ---------------------------------------------------------------- the step price

  function StepEnd(v: OfferVector, now: nat): nat
    requires v.baseTime <= now && v.priceFixDuration > 0
  {
    ((now - v.baseTime) / v.priceFixDuration + 1) * v.priceFixDuration
  }

  function CalculateStepPrice(v: OfferVector, now: nat): Result<u64, NavError> {
    if v.baseTime > now || v.priceFixDuration == 0 then Err(NoActiveVector)
    else
      var factorDen := APR_SCALE * SECONDS_IN_YEAR;
      AsU64(v.basePrice * (factorDen + v.apr * StepEnd(v, now)) / factorDen)
  }

  /** The bytes of slot `i`: five little-endian numbers, start, base time, base price, rate and step length. */
  lemma {:induction false} VectorLayout(data: bytes, i: nat, v: OfferVector)
    requires |data| >= 608 && i < 10
    requires data[72 + 40 * i..112 + 40 * i] ==
             Le(v.startTime, 8) + (Le(v.baseTime, 8) + (Le(v.basePrice, 8) + (Le(v.apr, 8) + Le(v.priceFixDuration, 8))))
    ensures VectorAt(data, i) == v
  {
    assert Slot(i) == 72 + 40 * i;
    SlotFields(data[Slot(i)..Slot(i) + 40], v);
    FieldsReadAt(data, Slot(i), v);
  }

  lemma {:induction false} FieldsReadAt(data: bytes, at: nat, v: OfferVector)
    requires at + 40 <= |data|
    requires var slot := data[at..at + 40];
             && slot[0..8] == Le(v.startTime, 8) && slot[8..16] == Le(v.baseTime, 8) && slot[16..24] == Le(v.basePrice, 8)
             && slot[24..32] == Le(v.apr, 8) && slot[32..40] == Le(v.priceFixDuration, 8)
    ensures U64At(data, at) == v.startTime && U64At(data, at + 8) == v.baseTime && U64At(data, at + 16) == v.basePrice
    ensures U64At(data, at + 24) == v.apr && U64At(data, at + 32) == v.priceFixDuration
  {
    ReadsBack(data, at, 0, v.startTime);
    ReadsBack(data, at, 8, v.baseTime);
    ReadsBack(data, at, 16, v.basePrice);
    ReadsBack(data, at, 24, v.apr);
    ReadsBack(data, at, 32, v.priceFixDuration);
  }

  lemma {:induction false} SlotFields(slot: bytes, v: OfferVector)
    requires slot ==
             Le(v.startTime, 8) + (Le(v.baseTime, 8) + (Le(v.basePrice, 8) + (Le(v.apr, 8) + Le(v.priceFixDuration, 8))))
    ensures |slot| == 40 && slot[0..8] == Le(v.startTime, 8) && slot[8..16] == Le(v.baseTime, 8)
    ensures slot[16..24] == Le(v.basePrice, 8) && slot[24..32] == Le(v.apr, 8) && slot[32..40] == Le(v.priceFixDuration, 8)
  {
    var t3 := Le(v.apr, 8) + Le(v.priceFixDuration, 8);
    var t2 := Le(v.basePrice, 8) + t3;
    var t1 := Le(v.baseTime, 8) + t2;
    assert slot[0..] == slot;
    Field(slot, 0, Le(v.startTime, 8), t1);
    Field(slot, 8, Le(v.baseTime, 8), t2);
    Field(slot, 16, Le(v.basePrice, 8), t3);
    Field(slot, 24, Le(v.apr, 8), Le(v.priceFixDuration, 8));
    assert slot[32..40] == slot[32..];
  }

  lemma {:induction false} ReadsBack(data: bytes, at: nat, o: nat, n: u64)
    requires at + 40 <= |data| && o + 8 <= 40 && data[at..at + 40][o..o + 8] == Le(n, 8)
    ensures U64At(data, at + o) == n
  {
    SubSlice(data, at, 40, o, o + 8);
    EightFit(n);
    LeRoundTrip(n, 8);
  }

  /** The price is the base price grown by the yearly rate, in millionths, up to the end of the step. */
  lemma {:induction false} StepPriceIs(v: OfferVector, now: nat)
    ensures CalculateStepPrice(v, now).Ok? ==> v.baseTime <= now && v.priceFixDuration > 0
    ensures v.baseTime <= now && v.priceFixDuration > 0 ==>
              var den := 1_000_000 * 31_536_000;
              var grown := v.basePrice * (den + v.apr * StepEnd(v, now));
              var r := CalculateStepPrice(v, now);
              && (r.Ok? <==> grown < (U64_MAX + 1) * den)
              && (r.Ok? ==> r.value * den <= grown < (r.value + 1) * den)
  {
    if v.baseTime <= now && v.priceFixDuration > 0 {
      WholePart(v.basePrice * (APR_SCALE * SECONDS_IN_YEAR + v.apr * StepEnd(v, now)), APR_SCALE * SECONDS_IN_YEAR);
    }
  }

  /** The price is snapped to the end of the step `now` is in: strictly ahead, by at most one step. */
  lemma {:induction false} StepEndIsAhead(v: OfferVector, now: nat)
    requires v.baseTime <= now && v.priceFixDuration > 0
    ensures now - v.baseTime < StepEnd(v, now) <= now - v.baseTime + v.priceFixDuration
    ensures WholeUnits(StepEnd(v, now), v.priceFixDuration)
  {
    var q, r := Quotient(now - v.baseTime, v.priceFixDuration);
    assert (q + 1) * v.priceFixDuration == q * v.priceFixDuration + v.priceFixDuration;
    assert Times(q + 1, v.priceFixDuration) == StepEnd(v, now);
  }

  /** Later evaluation never lowers the price of one vector, nor takes it below its base price. */
  lemma {:induction false} StepPriceNeverFalls(v: OfferVector, now: nat, later: nat)
    requires now <= later && CalculateStepPrice(v, now).Ok? && CalculateStepPrice(v, later).Ok?
    ensures v.basePrice <= CalculateStepPrice(v, now).value <= CalculateStepPrice(v, later).value
  {
    StepEndMonotone(v, now, later);
    PriceMonotone(v.basePrice, v.apr, StepEnd(v, now), StepEnd(v, later));
  }

  lemma {:induction false} StepEndMonotone(v: OfferVector, now: nat, later: nat)
    requires v.baseTime <= now <= later && v.priceFixDuration > 0
    ensures StepEnd(v, now) <= StepEnd(v, later)
  {
    var q1, r1 := Quotient(now - v.baseTime, v.priceFixDuration);
    var q2, r2 := Quotient(later - v.baseTime, v.priceFixDuration);
    if q2 < q1 {
      MulLe(q2 + 1, q1, v.priceFixDuration);
    }
    MulLe(q1 + 1, q2 + 1, v.priceFixDuration);
  }

  lemma {:induction false} PriceMonotone(basePrice: nat, apr: nat, e1: nat, e2: nat)
    requires e1 <= e2
    ensures var den := APR_SCALE * SECONDS_IN_YEAR;
            basePrice <= basePrice * (den + apr * e1) / den <= basePrice * (den + apr * e2) / den
  {
    var den := APR_SCALE * SECONDS_IN_YEAR;
    MulLe(e1, e2, apr);
    MulLe(0, e1, apr);
    var f1, f2 := den + apr * e1, den + apr * e2;
    MulLe(f1, f2, basePrice);
    MulLe(den, f1, basePrice);
    var p1, s1 := Quotient(basePrice * f1, den);
    FitsUnder(p1, basePrice * f2, den);
    FitsUnder(basePrice, basePrice * f1, den);
  }

  /** The whole client computation: offer bytes to signed floor. */
  method ComputeMinSwapOut(d: Direction, amount: nat, offer: bytes, now: nat, baseDecimals: nat, assetDecimals: nat,
                           slippageBps: int, withdrawFeeBps: int) returns (r: Result<nat, NavError>)
    ensures r.Ok? ==> r.value > 0
    ensures !InRange(slippageBps, amount) ==> r == Err(Range)
    ensures InRange(slippageBps, amount) && |offer| < OFFER_ACCOUNT_SIZE ==> r == Err(OfferTooShort)
    ensures InRange(slippageBps, amount) && |offer| >= OFFER_ACCOUNT_SIZE && NoneStarted(offer, now) ==>
              r == Err(NoActiveVector)
    ensures InRange(slippageBps, amount) && |offer| >= OFFER_ACCOUNT_SIZE ==>
              forall i: nat :: IsActive(offer, now, i) ==>
                var price := CalculateStepPrice(VectorAt(offer, i), now);
                r == if price.Err? then Err(price.error)
                     else FloorAtPrice(d, amount, price.value, baseDecimals, assetDecimals, slippageBps, withdrawFeeBps)
  {
    if slippageBps < 0 || slippageBps > BPS || amount == 0 {
      return Err(Range);
    }
    var v := ParseActiveOfferVector(offer, now);
    if v.Err? {
      return Err(v.error);
    }
    forall i: nat | IsActive(offer, now, i)
      ensures v.value == VectorAt(offer, i)
    {
      var j: nat :| IsActive(offer, now, j) && v.value == VectorAt(offer, j);
      ActiveIsUnique(offer, now, i, j);
    }
    var price := CalculateStepPrice(v.value, now);
    if price.Err? {
      return Err(price.error);
    }
    r := FloorAtPrice(d, amount, price.value, baseDecimals, assetDecimals, slippageBps, withdrawFeeBps);
  }
}
