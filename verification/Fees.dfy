/** Protocol fees of one pair: the basis-point split and the timelock on increases. */
module Fees {
  import opened Prelude
  import opened Arithmetic
  import opened Errors

  const MAX_FEE_BPS: nat := 1000
  const FEE_TIMELOCK_SLOTS: nat := 432_000
  const BPS_DENOMINATOR: nat := 10_000

  // ---------------------------------------------------------------- the split

  datatype Split = Split(net: nat, fee: nat)

  /** `(net, fee)` with the fee rounded down; an empty net amount is refused. */
  function ApplyFeeBps(gross: u64, bps: u16): Result<Split, RelayerError> {
    var fee := gross * bps / BPS_DENOMINATOR;
    if fee > U64_MAX || fee > gross then Err(FeeOverflow)
    else if gross == fee then Err(ZeroAmountFlow)
    else Ok(Split(gross - fee, fee))
  }

  /** Up to the cap every non-empty amount splits, nothing is lost, and at least 90% is kept. */
  lemma {:induction false} SplitConserves(gross: u64, bps: u16)
    requires gross > 0 && bps <= MAX_FEE_BPS
    ensures ApplyFeeBps(gross, bps).Ok?
    ensures var s := ApplyFeeBps(gross, bps).value;
            s.net + s.fee == gross && s.net > 0 && 10 * s.net >= 9 * gross
  {
    var p := gross * bps;
    MulLe(bps, MAX_FEE_BPS, gross);
    assert p <= gross * MAX_FEE_BPS;
    var q1, r1 := Quotient(p, BPS_DENOMINATOR);
  }

  /**
   * For any rate, the split succeeds exactly when something is left; the fee is the whole part of the
   * rate's share, and the net is the rest.
   */
  lemma {:induction false} SplitSucceedsIff(gross: u64, bps: u16)
    ensures ApplyFeeBps(gross, bps).Ok? <==> gross > 0 && gross * bps < gross * 10_000
    ensures ApplyFeeBps(gross, bps).Ok? ==>
              var s := ApplyFeeBps(gross, bps).value;
              s.net + s.fee == gross && s.fee * 10_000 <= gross * bps < (s.fee + 1) * 10_000
    ensures ApplyFeeBps(gross, bps).Err? ==>
              ApplyFeeBps(gross, bps).error == if gross * bps < (gross + 1) * 10_000 then ZeroAmountFlow else FeeOverflow
  {
    var q, r := Quotient(gross * bps, BPS_DENOMINATOR);
    if bps < 10_000 {
      MulLe(bps, 9_999, gross);
    } else {
      MulLe(10_000, bps, gross);
    }
  }

  /** A larger gross amount never leaves a smaller net amount. */
  lemma {:induction false} NetIsMonotone(low: nat, high: nat, bps: nat)
    requires low <= high && bps <= MAX_FEE_BPS
    ensures low - low * bps / BPS_DENOMINATOR <= high - high * bps / BPS_DENOMINATOR
  {
    var a, b := low * bps / BPS_DENOMINATOR, high * bps / BPS_DENOMINATOR;
    var q2, r2 := Quotient(low * bps, BPS_DENOMINATOR);
    var q3, r3 := Quotient(high * bps, BPS_DENOMINATOR);
    var gap := high - low;
    assert high * bps == low * bps + gap * bps by {
      assert high == low + gap;
    }
    MulLe(bps, MAX_FEE_BPS, gap);
    assert gap * bps <= gap * MAX_FEE_BPS;
    assert b * BPS_DENOMINATOR < a * BPS_DENOMINATOR + BPS_DENOMINATOR + gap * 1000;
  }

  // ------------------------------------------------------------- the timelock

  datatype PendingFee = PendingFee(deposit: Option<u16>, withdraw: Option<u16>, readySlot: u64) {
    predicate IsEmpty() { deposit.None? && withdraw.None? }
  }

  datatype FeeState = FeeState(deposit: u16, withdraw: u16, pending: Option<PendingFee>)

  datatype Leg = DepositLeg | WithdrawLeg

  function Live(s: FeeState, leg: Leg): u16 {
    if leg.DepositLeg? then s.deposit else s.withdraw
  }

  function StagedIn(p: PendingFee, leg: Leg): Option<u16> {
    if leg.DepositLeg? then p.deposit else p.withdraw
  }

  function Staged(s: FeeState, leg: Leg): Option<u16> {
    if s.pending.None? then None else StagedIn(s.pending.value, leg)
  }

  function WithLive(s: FeeState, leg: Leg, bps: u16): FeeState {
    if leg.DepositLeg? then s.(deposit := bps) else s.(withdraw := bps)
  }

  function WithStaged(p: PendingFee, leg: Leg, bps: Option<u16>): PendingFee {
    if leg.DepositLeg? then p.(deposit := bps) else p.(withdraw := bps)
  }

  function Promote(s: FeeState, now: u64): FeeState {
    match s.pending
    case None => s
    case Some(p) =>
      if now < p.readySlot then s
      else FeeState(if p.deposit.Some? then p.deposit.value else s.deposit,
                    if p.withdraw.Some? then p.withdraw.value else s.withdraw,
                    None)
  }

  /** The whole effect of one proposal on one leg. */
  function Propose(s: FeeState, leg: Leg, proposed: u16, now: u64): Result<FeeState, RelayerError> {
    if proposed <= Live(s, leg) then
      var lowered := WithLive(s, leg, proposed);
      Ok(match s.pending
         case None => lowered
         case Some(p) =>
           var rest := WithStaged(p, leg, None);
           lowered.(pending := if rest.IsEmpty() then None else Some(rest)))
    else if now + FEE_TIMELOCK_SLOTS > U64_MAX then Err(FeeOverflow)
    else
      var ready := now + FEE_TIMELOCK_SLOTS;
      var p := if s.pending.Some? then s.pending.value else PendingFee(None, None, ready);
      Ok(s.(pending := Some(WithStaged(p, leg, Some(proposed)).(readySlot := Max(p.readySlot, ready)))))
  }

  predicate LegCapped(bps: Option<u16>) { bps.Some? ==> bps.value <= MAX_FEE_BPS }

  function Validate(s: FeeState): Option<RelayerError> {
    if s.deposit > MAX_FEE_BPS || s.withdraw > MAX_FEE_BPS then Some(FeeBpsTooHigh)
    else if s.pending.None? then None
    else if s.pending.value.IsEmpty() then Some(EmptyPendingFee)
    else if !LegCapped(s.pending.value.deposit) || !LegCapped(s.pending.value.withdraw) then Some(FeeBpsTooHigh)
    else None
  }

  function ProposeIfAny(s: FeeState, leg: Leg, proposed: Option<u16>, now: u64): Result<FeeState, RelayerError> {
    if proposed.None? then Ok(s) else Propose(s, leg, proposed.value, now)
  }

  /** Promote what is ripe, then merge the proposals on both legs. */
  function ProposeFees(s: FeeState, deposit: Option<u16>, withdraw: Option<u16>, now: u64)
    : Result<FeeState, RelayerError>
  {
    var s1 :- ProposeIfAny(Promote(s, now), DepositLeg, deposit, now);
    ProposeIfAny(s1, WithdrawLeg, withdraw, now)
  }

  function Validated(s: FeeState): Result<FeeState, RelayerError> {
    if Validate(s).Some? then Err(Validate(s).value) else Ok(s)
  }

  /** The fee part of `configure`. */
  function ConfigureFees(s: FeeState, deposit: Option<u16>, withdraw: Option<u16>, now: u64)
    : Result<FeeState, RelayerError>
  {
    var s1 :- ProposeFees(s, deposit, withdraw, now);
    Validated(s1)
  }

  /** The fee fields of a `PairConfig` account, updated in place. */
  class FeeBook {
    var deposit: u16
    var withdraw: u16
    var pending: Option<PendingFee>

    function View(): FeeState
      reads this
    {
      FeeState(deposit, withdraw, pending)
    }

    constructor (initial: FeeState)
      ensures View() == initial
    {
      deposit, withdraw, pending := initial.deposit, initial.withdraw, initial.pending;
    }

    method PromotePendingFeeIfReady(now: u64)
      modifies this
      ensures View() == Promote(old(View()), now)
    {
      if pending.None? || now < pending.value.readySlot {
        return;
      }
      var p := pending.value;
      if p.deposit.Some? {
        deposit := p.deposit.value;
      }
      if p.withdraw.Some? {
        withdraw := p.withdraw.value;
      }
      pending := None;
    }

    method ProposeFeeChange(leg: Leg, proposed: u16, now: u64) returns (error: Option<RelayerError>)
      modifies this
      ensures Propose(old(View()), leg, proposed, now) ==
              if error.Some? then Err(error.value) else Ok(View())
      ensures error.Some? ==> View() == old(View())
    {
      error := None;
      var live := if leg.DepositLeg? then deposit else withdraw;
      if proposed <= live {
        if leg.DepositLeg? {
          deposit := proposed;
        } else {
          withdraw := proposed;
        }
        if pending.Some? {
          pending := Some(WithStaged(pending.value, leg, None));
          if pending.value.IsEmpty() {
            pending := None;
          }
        }
        return;
      }
      if now > U64_MAX - FEE_TIMELOCK_SLOTS {
        return Some(FeeOverflow);
      }
      var ready: u64 := now + FEE_TIMELOCK_SLOTS;
      if pending.None? {
        pending := Some(PendingFee(None, None, ready));
      }
      pending := Some(pending.value.(readySlot := Max(pending.value.readySlot, ready)));
      pending := Some(WithStaged(pending.value, leg, Some(proposed)));
    }

    /** `configure`; a failed call leaves the account as it was, as the runtime rolls it back. */
    method Configure(newDeposit: Option<u16>, newWithdraw: Option<u16>, now: u64)
      returns (error: Option<RelayerError>)
      modifies this
      ensures ConfigureFees(old(View()), newDeposit, newWithdraw, now) ==
              if error.Some? then Err(error.value) else Ok(View())
      ensures error.Some? ==> View() == old(View())
    {
      var savedDeposit, savedWithdraw, savedPending := deposit, withdraw, pending;
      error := None;
      PromotePendingFeeIfReady(now);
      if newDeposit.Some? {
        error := ProposeFeeChange(DepositLeg, newDeposit.value, now);
      }
      if error.None? && newWithdraw.Some? {
        error := ProposeFeeChange(WithdrawLeg, newWithdraw.value, now);
      }
      if error.None? {
        error := Validate(View());
      }
      if error.Some? {
        deposit, withdraw, pending := savedDeposit, savedWithdraw, savedPending;
      }
    }
  }
}
