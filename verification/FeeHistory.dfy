/** The fee timelock inside whole runs of the program: what users of a pair can rely on. */
module FeeHistory {
  import opened Prelude
  import opened Arithmetic
  import opened Fees
  import opened Chain
  import opened Instructions
  import opened Solvency
  import FeeTimelock
  import Payout

  predicate Accepted(w: World, s: Step, pair: PairId) {
    s.DoConfigure? && s.config.pair == pair && Configure(w, s.config).Ok?
  }

  function CallOf(w: World, a: ConfigureArgs): FeeTimelock.Call { FeeTimelock.Call(w.slot, a.deposit, a.withdraw) }

  /** The `configure` calls on a pair that took effect, in order. */
  function Calls(w: World, steps: seq<Step>, pair: PairId): seq<FeeTimelock.Call> {
    if steps == [] then []
    else
      var before, s := Run(w, steps[..|steps| - 1]), steps[|steps| - 1];
      Calls(w, steps[..|steps| - 1], pair) + (if Accepted(before, s, pair) then [CallOf(before, s.config)] else [])
  }

  // ------------------------------------------------------------------- one step

  /** What a successful step does to one pair's fees. */
  predicate FeesMove(w: World, s: Step, w': World, pair: PairId) {
    && w'.slot >= w.slot
    && (pair in w.pairs ==> pair in w'.pairs)
    && (pair in w.pairs && Accepted(w, s, pair) ==>
          w'.pairs[pair].fees == FeeTimelock.Step(w.pairs[pair].fees, CallOf(w, s.config)))
    && (pair in w.pairs && !Accepted(w, s, pair) ==> w'.pairs[pair].fees == w.pairs[pair].fees)
    && (pair !in w.pairs && pair in w'.pairs ==> FeeTimelock.AtInit(w'.pairs[pair].fees))
  }

  lemma {:induction false} InitializeMoves(w: World, a: InitializeArgs, w': World, pair: PairId)
    requires Initialize(w, a) == Ok(w')
    ensures FeesMove(w, DoInitialize(a), w', pair)
  {
  }

  lemma {:induction false} ConfigureMoves(w: World, a: ConfigureArgs, w': World, pair: PairId)
    requires Configure(w, a) == Ok(w')
    ensures FeesMove(w, DoConfigure(a), w', pair)
  {
    ConfigureFacts(w, a, w');
  }

  lemma {:induction false} StepMoves(w: World, s: Step, w': World, pair: PairId)
    requires Apply(w, s) == Ok(w')
    ensures FeesMove(w, s, w', pair)
  {
    if IsFlowStep(s) {
      FlowStepKeepsPairs(w, s, w');
    } else {
      match s
      case DoInitialize(a) => InitializeMoves(w, a, w', pair);
      case DoConfigure(a) => ConfigureMoves(w, a, w', pair);
      case DoAcceptAuthority(k, p) => AcceptFacts(w, k, p, w');
      case _ =>
    }
  }

  lemma {:induction false} ExecMoves(w: World, s: Step, pair: PairId)
    ensures FeesMove(w, s, Exec(w, s), pair)
  {
    if Apply(w, s).Ok? {
      StepMoves(w, s, Apply(w, s).value, pair);
    }
  }

  // ------------------------------------------------------------------ whole runs

  /** In `r` the pair's fees are those of `w` after `calls`, made in order between the two. */
  predicate Follows(w: World, r: World, calls: seq<FeeTimelock.Call>, pair: PairId)
    requires pair in w.pairs
  {
    && w.slot <= r.slot && pair in r.pairs
    && r.pairs[pair].fees == FeeTimelock.Run(w.pairs[pair].fees, calls)
    && FeeTimelock.Chronological(calls)
    && forall i :: 0 <= i < |calls| ==> w.slot <= calls[i].now <= r.slot
  }

  lemma {:induction false} FollowsOn(w: World, r: World, s: Step, r': World, calls: seq<FeeTimelock.Call>, pair: PairId)
    requires pair in w.pairs && Follows(w, r, calls, pair) && FeesMove(r, s, r', pair)
    ensures Follows(w, r', calls + (if Accepted(r, s, pair) then [CallOf(r, s.config)] else []), pair)
  {
    if Accepted(r, s, pair) {
      var all := calls + [CallOf(r, s.config)];
      assert all[..|all| - 1] == calls;
    } else {
      assert calls + [] == calls;
    }
  }

  /** A pair's fees after any run are the fee machine after the calls that took effect in it. */
  lemma {:induction false} FeesFollowCalls(w: World, steps: seq<Step>, pair: PairId)
    requires pair in w.pairs
    ensures Follows(w, Run(w, steps), Calls(w, steps, pair), pair)
  {
    if steps != [] {
      var n := |steps| - 1;
      var before := Run(w, steps[..n]);
      FeesFollowCalls(w, steps[..n], pair);
      ExecMoves(before, steps[n], pair);
      FollowsOn(w, before, steps[n], Exec(before, steps[n]), Calls(w, steps[..n], pair), pair);
    }
  }

  lemma {:induction false} RunSplit(w: World, early: seq<Step>, late: seq<Step>)
    ensures Run(w, early + late) == Run(Run(w, early), late)
  {
    if late == [] {
      assert early + late == early;
    } else {
      var n := |late| - 1;
      RunSplit(w, early, late[..n]);
      assert (early + late)[..|early + late| - 1] == early + late[..n];
    }
  }

  lemma {:induction false} LegalPrefix(w: World, early: seq<Step>, late: seq<Step>)
    requires LegalRun(w, early + late)
    ensures LegalRun(w, early)
  {
    if late == [] {
      assert early + late == early;
    } else {
      assert (early + late)[..|early + late| - 1] == early + late[..|late| - 1];
      LegalPrefix(w, early, late[..|late| - 1]);
    }
  }

  /** Every pair of a reachable state was created by some step, with valid fees and none staged. */
  lemma {:induction false} CreatedAt(w0: World, steps: seq<Step>, pair: PairId) returns (k: nat)
    requires Genesis(w0) && pair in Run(w0, steps).pairs
    ensures k <= |steps| && pair in Run(w0, steps[..k]).pairs
    ensures FeeTimelock.AtInit(Run(w0, steps[..k]).pairs[pair].fees)
  {
    if steps == [] {
      assert false;
    } else {
      var n := |steps| - 1;
      if pair in Run(w0, steps[..n]).pairs {
        k := CreatedAt(w0, steps[..n], pair);
        assert steps[..n][..k] == steps[..k];
      } else {
        k := |steps|;
        ExecMoves(Run(w0, steps[..n]), steps[n], pair);
        assert steps[..k] == steps;
      }
    }
  }

  /** The creation point of a pair, and the fee history from there on. */
  predicate HistoryOf(w0: World, steps: seq<Step>, pair: PairId, k: nat, init: FeeState, calls: seq<FeeTimelock.Call>) {
    && k <= |steps| && pair in Run(w0, steps[..k]).pairs && init == Run(w0, steps[..k]).pairs[pair].fees
    && calls == Calls(Run(w0, steps[..k]), steps[k..], pair)
  }

  /** In every run a pair's fees are the fee machine's, from its creation over its accepted calls. */
  lemma {:induction false} FeesInEveryRun(w0: World, steps: seq<Step>, pair: PairId)
    returns (k: nat, init: FeeState, calls: seq<FeeTimelock.Call>)
    requires Genesis(w0) && pair in Run(w0, steps).pairs
    ensures HistoryOf(w0, steps, pair, k, init, calls)
    ensures FeeTimelock.AtInit(init) && FeeTimelock.Chronological(calls)
    ensures Run(w0, steps).pairs[pair].fees == FeeTimelock.Run(init, calls)
    ensures forall i :: 0 <= i < |calls| ==> calls[i].now <= Run(w0, steps).slot
  {
    k := CreatedAt(w0, steps, pair);
    var w := Run(w0, steps[..k]);
    init, calls := w.pairs[pair].fees, Calls(w, steps[k..], pair);
    assert steps == steps[..k] + steps[k..];
    RunSplit(w0, steps[..k], steps[k..]);
    FeesFollowCalls(w, steps[k..], pair);
  }

  lemma {:induction false} RaiseIsPromotion(s: FeeState, c: FeeTimelock.Call, leg: Leg)
    requires Live(FeeTimelock.Step(s, c), leg) > Live(s, leg)
    ensures Live(s, leg) < Live(FeeTimelock.Step(s, c), leg) <= Live(Promote(s, c.now), leg)
  {
  }

  /**
   * In every run, a step that raises a live leg at slot t raises it to at most the most recent
   * accepted proposal on that leg, which is at least the full timelock old.
   */
  lemma {:induction false} EveryRaiseWasNoticed(w0: World, steps: seq<Step>, s: Step, pair: PairId, leg: Leg)
    returns (k: nat, init: FeeState, calls: seq<FeeTimelock.Call>)
    requires Genesis(w0) && pair in Run(w0, steps).pairs && pair in Exec(Run(w0, steps), s).pairs
    requires Live(Exec(Run(w0, steps), s).pairs[pair].fees, leg) > Live(Run(w0, steps).pairs[pair].fees, leg)
    ensures HistoryOf(w0, steps, pair, k, init, calls)
    ensures var notice := FeeTimelock.LastNotice(init, calls, leg);
            && notice.Some? && notice.value.slot + FEE_TIMELOCK_SLOTS <= Run(w0, steps).slot
            && Live(Exec(Run(w0, steps), s).pairs[pair].fees, leg) <= notice.value.bps
  {
    k, init, calls := FeesInEveryRun(w0, steps, pair);
    var w := Run(w0, steps);
    ExecMoves(w, s, pair);
    RaiseIsPromotion(w.pairs[pair].fees, CallOf(w, s.config), leg);
    FeeTimelock.PromotionWasNoticed(init, calls, w.slot, leg);
  }

  /** In every run each leg of a pair holds, live or staged, exactly its last accepted proposal. */
  lemma {:induction false} LatestProposalRulesInRuns(w0: World, steps: seq<Step>, pair: PairId, leg: Leg)
    returns (k: nat, init: FeeState, calls: seq<FeeTimelock.Call>)
    requires Genesis(w0) && pair in Run(w0, steps).pairs
    ensures HistoryOf(w0, steps, pair, k, init, calls) && FeeTimelock.AtInit(init)
    ensures FeeTimelock.Latest(Run(w0, steps).pairs[pair].fees, leg, init, FeeTimelock.LastNotice(init, calls, leg))
  {
    k, init, calls := FeesInEveryRun(w0, steps, pair);
    FeeTimelock.LatestProposalRules(init, calls, leg);
  }

  // ----------------------------------------------------------------- what a flow pays

  function LegOf(d: Direction): Leg { if d.Deposit? then DepositLeg else WithdrawLeg }

  /** For a timelock after any state, no leg of a pair exceeds what was live or staged in it. */
  lemma {:induction false} FeeWindow(w0: World, early: seq<Step>, late: seq<Step>, pair: PairId, leg: Leg)
    requires pair in Run(w0, early).pairs
    requires Run(w0, early + late).slot < Run(w0, early).slot + FEE_TIMELOCK_SLOTS
    ensures pair in Run(w0, early + late).pairs
    ensures Live(Run(w0, early + late).pairs[pair].fees, leg)
            <= FeeTimelock.Ceiling(Run(w0, early).pairs[pair].fees, leg)
  {
    var w := Run(w0, early);
    RunSplit(w0, early, late);
    FeesFollowCalls(w, late, pair);
    FeeTimelock.TwoDaysNotice(w.pairs[pair].fees, Calls(w, late, pair), w.slot, leg);
  }

  lemma {:induction false} FeeGrows(amount: nat, low: nat, high: nat)
    requires low <= high
    ensures amount * low / BPS_DENOMINATOR <= amount * high / BPS_DENOMINATOR
  {
    MulLe(low, high, amount);
    var q, r := Quotient(amount * low, BPS_DENOMINATOR);
    var q', r' := Quotient(amount * high, BPS_DENOMINATOR);
  }

  /** What a swap in `w` leaves of a withdraw's input, and of a deposit's floor, at fee `bps`. */
  predicate ChargedAtMost(w: World, a: SwapArgs, w': World, bps: nat)
    requires a.id in w.flows && a.id in w'.flows && SwapEntry(w, a).Ok? && SwapPrepared(w, a).Ok?
  {
    var gross, floor := w.flows[a.id].amount, w.flows[a.id].minSwapOut;
    if a.id.direction.Withdraw? then SwapPrepared(w, a).value.swapIn >= gross - gross * bps / BPS_DENOMINATOR
    else w'.flows[a.id].amount >= floor - floor * bps / BPS_DENOMINATOR
  }

  lemma {:induction false} SwapChargesLive(w: World, a: SwapArgs, w': World, ceiling: nat)
    requires Inv(w) && Swap(w, a) == Ok(w') && a.id in w.flows && a.id.pair in w.pairs && a.id in w'.flows
    requires Live(w.pairs[a.id.pair].fees, LegOf(a.id.direction)) <= ceiling
    ensures SwapEntry(w, a).Ok? && SwapPrepared(w, a).Ok? && ChargedAtMost(w, a, w', ceiling)
  {
    SwapStages(w, a, w');
    if a.id.direction.Deposit? {
      Payout.SwapCreditsFloor(w, a, w');
      FeeGrows(w.flows[a.id].minSwapOut, w.pairs[a.id.pair].fees.deposit, ceiling);
    } else {
      WithdrawBudget(w, a);
      FeeGrows(w.flows[a.id].amount, w.pairs[a.id.pair].fees.withdraw, ceiling);
    }
  }

  lemma {:induction false} SwapStages(w: World, a: SwapArgs, w': World)
    requires Swap(w, a) == Ok(w')
    ensures SwapEntry(w, a).Ok? && SwapPrepared(w, a).Ok?
  {
  }

  /** A withdraw's budget is its input less the live fee on it. */
  lemma {:induction false} WithdrawBudget(w: World, a: SwapArgs)
    requires SwapEntry(w, a).Ok? && SwapPrepared(w, a).Ok? && a.id.direction.Withdraw?
    ensures var gross, live := w.flows[a.id].amount, w.pairs[a.id.pair].fees.withdraw;
            SwapPrepared(w, a).value.swapIn == gross - gross * live / BPS_DENOMINATOR
  {
  }

  /**
   * A flow swapped within the timelock of the slot it was received at is charged at most what was
   * live or already staged when it was received, whatever the authority does in between.
   */
  lemma {:induction false} FlowChargedAtMostCeiling(w0: World, early: seq<Step>, late: seq<Step>, a: SwapArgs, w': World)
    requires Genesis(w0) && LegalRun(w0, early + late)
    requires a.id in Run(w0, early).flows && Swap(Run(w0, early + late), a) == Ok(w')
    requires Run(w0, early).flows[a.id].receivedSlot == Run(w0, early).slot
    requires Run(w0, early + late).slot < Run(w0, early).flows[a.id].receivedSlot + FEE_TIMELOCK_SLOTS
    ensures a.id.pair in Run(w0, early).pairs && a.id in Run(w0, early + late).flows && a.id in w'.flows
    ensures SwapEntry(Run(w0, early + late), a).Ok? && SwapPrepared(Run(w0, early + late), a).Ok?
    ensures ChargedAtMost(Run(w0, early + late), a, w',
              FeeTimelock.Ceiling(Run(w0, early).pairs[a.id.pair].fees, LegOf(a.id.direction)))
  {
    LegalPrefix(w0, early, late);
    AlwaysSolvent(w0, early);
    AlwaysSolvent(w0, early + late);
    var w1, w2 := Run(w0, early), Run(w0, early + late);
    assert FlowOk(w1.pairs, w1.slot, a.id, w1.flows[a.id]);
    FeeWindow(w0, early, late, a.id.pair, LegOf(a.id.direction));
    Payout.SwapCreditsFloor(w2, a, w');
    SwapChargesLive(w2, a, w', FeeTimelock.Ceiling(w1.pairs[a.id.pair].fees, LegOf(a.id.direction)));
  }
}
