/** Where fees go: every charged unit arrives in the pair's vault, per swap and over whole runs. */
module FeePayment {
  import opened Prelude
  import opened Fees
  import opened Chain
  import opened Instructions
  import opened Solvency
  import opened Payout

  lemma {:induction false} SkimPays(tokens: Tokens, asset: Key, vault: Key, fee: nat)
    requires Skimmed(tokens, asset, vault, fee).Ok? && vault in tokens && vault != Custody(asset)
    ensures var t := Skimmed(tokens, asset, vault, fee).value;
            vault in t && t[vault] == Credited(tokens[vault], fee)
  {
  }

  lemma {:induction false} PreparePays(w: World, a: SwapArgs)
    requires SwapEntry(w, a).Ok? && SwapPrepared(w, a).Ok? && ConfigOk(a.id.pair, w.pairs[a.id.pair])
    ensures var vault, p := w.pairs[a.id.pair].feeVault, SwapPrepared(w, a).value;
            vault in w.tokens && vault in p.tokens && p.tokens[vault] == Credited(w.tokens[vault], p.fee)
    ensures a.id.direction.Deposit? ==> SwapPrepared(w, a).value.fee == 0
  {
    var c := w.pairs[a.id.pair];
    VaultIsNotCustody(w, a);
    SkimPays(w.tokens, a.id.pair.asset, c.feeVault, SwapInput(c, a.id.direction, w.flows[a.id].amount).value.fee);
  }

  lemma {:induction false} SettlePays(w: World, a: SwapArgs, out: u64, feeBefore: nat, w': World)
    requires a.id in w.flows && a.id.pair in w.pairs && Settle(w, a, out, feeBefore) == Ok(w')
    requires var vault := w.pairs[a.id.pair].feeVault; vault in w.tokens && vault != Custody(a.id.pair.asset)
    ensures |w'.log| == |w.log| + 1 && w'.log[|w.log|].FlowSwapped?
    ensures var vault, fee := w.pairs[a.id.pair].feeVault, w'.log[|w.log|].fee;
            && vault in w'.tokens
            && w'.tokens[vault] == Credited(w.tokens[vault], if a.id.direction.Deposit? then fee else 0)
            && (a.id.direction.Withdraw? ==> fee == feeBefore)
  {
    var c := w.pairs[a.id.pair];
    SkimPays(w.tokens, a.id.pair.asset, c.feeVault, SwapOutput(c, a.id.direction, out).value.fee);
  }

  /** The event a successful swap logs. */
  function SwapEventOf(w: World, w': World): Event
    requires |w'.log| == |w.log| + 1
  {
    w'.log[|w.log|]
  }

  lemma {:induction false} SwapVaultStages(w: World, a: SwapArgs, w': World)
    requires Swap(w, a) == Ok(w') && SwapEntry(w, a).Ok? && RouterLegal(w, a) && ConfigOk(a.id.pair, w.pairs[a.id.pair])
    ensures |w'.log| == |w.log| + 1 && SwapEventOf(w, w').FlowSwapped?
    ensures var vault := w.pairs[a.id.pair].feeVault;
            && vault in w.tokens && vault in w'.tokens
            && w'.tokens[vault] == Credited(w.tokens[vault], SwapEventOf(w, w').fee)
  {
    PreparePays(w, a);
    VaultNotWritten(w, a);
    var p := SwapPrepared(w, a).value;
    var after := p.tokens + a.router.writes;
    var out := SwapChecked(p.tokens, after, a, p.swapIn, w.flows[a.id].minSwapOut).value;
    SettlePays(w.(tokens := after, authority := a.router.authority), a, out, p.fee, w');
  }

  /**
   * A swap pays its pair's vault exactly the fee it charges: at the live rate, on the gross input of
   * a withdraw and on the output of a deposit, whose rest is what the flow is credited.
   */
  lemma {:induction false} SwapPaysVault(w: World, a: SwapArgs, w': World)
    requires Inv(w) && Swap(w, a) == Ok(w') && RouterLegal(w, a)
    ensures a.id in w.flows && a.id.pair in w.pairs && a.id in w'.flows && |w'.log| == |w.log| + 1
    ensures var vault, e, bps := w.pairs[a.id.pair].feeVault, SwapEventOf(w, w'), LiveFee(w, a.id);
            && e.FlowSwapped? && vault in w.tokens && vault in w'.tokens
            && w'.tokens[vault] == w.tokens[vault].(amount := w.tokens[vault].amount + e.fee)
            && (a.id.direction.Withdraw? ==> e.fee == w.flows[a.id].amount * bps / BPS_DENOMINATOR)
            && (a.id.direction.Deposit? ==>
                  e.fee == e.out * bps / BPS_DENOMINATOR && e.fee == e.out - w'.flows[a.id].amount)
  {
    SwapFlows(w, a, w');
    var out, bps, fee := SwapEvent(w, a, w');
    SwapVaultStages(w, a, w');
  }

  // ------------------------------------------------------------------ whole runs

  /** The swap succeeds and charges into `vault`. */
  predicate ChargesInto(w: World, a: SwapArgs, vault: Key) {
    Swap(w, a).Ok? && a.id.pair in w.pairs && w.pairs[a.id.pair].feeVault == vault
  }

  function Held(w: World, k: Key): int { if k in w.tokens then w.tokens[k].amount else 0 }

  /** The fee of a swap logged between two states. */
  function FeeLogged(w: World, w': World): int {
    if |w'.log| > |w.log| && w'.log[|w.log|].FlowSwapped? then w'.log[|w.log|].fee else 0
  }

  /** What a swap that charges into the vault adds to it. */
  function SwapGain(w: World, a: SwapArgs, vault: Key): int {
    if ChargesInto(w, a, vault) then Held(Swap(w, a).value, vault) - Held(w, vault) else 0
  }

  /** The fee such a swap logs. */
  function SwapFee(w: World, a: SwapArgs, vault: Key): int {
    if ChargesInto(w, a, vault) then FeeLogged(w, Swap(w, a).value) else 0
  }

  function StepGain(w: World, s: Step, vault: Key): int { if s.DoSwap? then SwapGain(w, s.swap, vault) else 0 }

  function StepFee(w: World, s: Step, vault: Key): int { if s.DoSwap? then SwapFee(w, s.swap, vault) else 0 }

  function SwapGains(w: World, steps: seq<Step>, vault: Key): int {
    if steps == [] then 0
    else SwapGains(w, steps[..|steps| - 1], vault) + StepGain(Run(w, steps[..|steps| - 1]), steps[|steps| - 1], vault)
  }

  function LoggedFees(w: World, steps: seq<Step>, vault: Key): int {
    if steps == [] then 0
    else LoggedFees(w, steps[..|steps| - 1], vault) + StepFee(Run(w, steps[..|steps| - 1]), steps[|steps| - 1], vault)
  }

  lemma {:induction false} VaultGain(w: World, a: SwapArgs, w': World)
    requires Inv(w) && Swap(w, a) == Ok(w') && RouterLegal(w, a) && a.id.pair in w.pairs
    ensures var vault := w.pairs[a.id.pair].feeVault;
            Held(w', vault) - Held(w, vault) == FeeLogged(w, w')
  {
    SwapPaysVault(w, a, w');
  }

  lemma {:induction false} GainIsFee(w: World, a: SwapArgs, vault: Key)
    requires Inv(w) && RouterLegal(w, a)
    ensures SwapGain(w, a, vault) == SwapFee(w, a, vault)
  {
    if ChargesInto(w, a, vault) {
      VaultGain(w, a, Swap(w, a).value);
    }
  }

  lemma {:induction false} StepPaysVault(w: World, s: Step, vault: Key)
    requires Inv(w) && (s.DoSwap? ==> RouterLegal(w, s.swap))
    ensures StepGain(w, s, vault) == StepFee(w, s, vault)
  {
    if s.DoSwap? {
      GainIsFee(w, s.swap, vault);
    }
  }

  /** In every run a vault's gain from swaps is the sum of the fees they logged: nothing leaks on the way. */
  lemma {:induction false} VaultGetsEveryFee(w0: World, steps: seq<Step>, vault: Key)
    requires Genesis(w0) && LegalRun(w0, steps)
    ensures SwapGains(w0, steps, vault) == LoggedFees(w0, steps, vault)
  {
    if steps != [] {
      var n := |steps| - 1;
      VaultGetsEveryFee(w0, steps[..n], vault);
      AlwaysSolvent(w0, steps[..n]);
      StepPaysVault(Run(w0, steps[..n]), steps[n], vault);
    }
  }
}
