/** Who may set a pair up and change it, exactly when that succeeds, and what it leaves behind. */
module Governance {
  import opened Prelude
  import opened Fees
  import opened Chain
  import opened Instructions
  import opened Solvency
  import FeeTimelock

  // ------------------------------------------------------------------ initialize

  predicate CanInitialize(w: World, a: InitializeArgs) {
    && a.signer == w.admin && a.pair !in w.pairs && a.pair.base != a.pair.asset
    && Ata(RelayerAuthority, a.pair.base) !in w.tokens && Ata(RelayerAuthority, a.pair.asset) !in w.tokens
    && a.feeVault in w.tokens && w.tokens[a.feeVault].mint == a.pair.asset
    && a.deposit <= 1000 && a.withdraw <= 1000
  }

  /** An empty token account of the relayer's, that nobody else can spend from or close. */
  predicate EmptyCustody(w: World, mint: Key) {
    var k := Ata(RelayerAuthority, mint);
    && k in w.tokens && w.tokens[k].mint == mint && w.tokens[k].owner == RelayerAuthority && w.tokens[k].amount == 0
    && w.tokens[k].delegate == None && w.tokens[k].allowance == 0 && w.tokens[k].closer == None
  }

  /** Every field of the new pair is the one the admin named, and the admin is its first authority. */
  predicate SetUp(w: World, a: InitializeArgs, w': World) {
    && a.pair in w'.pairs && EmptyCustody(w', a.pair.base) && EmptyCustody(w', a.pair.asset)
    && var c := w'.pairs[a.pair];
       && c.authority == w.admin && c.pendingAuthority == None && c.feeVault == a.feeVault
       && c.nttBase == a.nttBase && c.nttAsset == a.nttAsset && c.intents == a.intents
       && c.fees.deposit == a.deposit && c.fees.withdraw == a.withdraw && c.fees.pending == None
  }

  lemma {:induction false} InitializeSucceedsIff(w: World, a: InitializeArgs)
    ensures Initialize(w, a).Ok? <==> CanInitialize(w, a)
    ensures Initialize(w, a).Ok? ==> SetUp(w, a, Initialize(w, a).value)
  {
  }

  // ------------------------------------------------------------------- configure

  predicate CanConfigure(w: World, a: ConfigureArgs) {
    && a.pair in w.pairs && a.signer == w.pairs[a.pair].authority
    && (a.feeVault.Some? ==>
          && a.feeVault.value in w.tokens && w.tokens[a.feeVault.value].mint == a.pair.asset
          && a.feeVault.value != Ata(RelayerAuthority, a.pair.asset))
    && (a.newAuthority.Some? ==> a.newAuthority.value == Plain(0) || a.newAuthority.value != a.signer)
    && var call := FeeTimelock.Call(w.slot, a.deposit, a.withdraw);
       && FeeTimelock.WithinCap(a.deposit) && FeeTimelock.WithinCap(a.withdraw)
       && (FeeTimelock.Raises(w.pairs[a.pair].fees, call) ==> w.slot + 432_000 <= U64_MAX)
  }

  /** The vault moves only if named; the proposed authority is set, cleared by the zero key, or kept. */
  predicate Changed(w: World, a: ConfigureArgs, w': World)
    requires a.pair in w.pairs
  {
    && a.pair in w'.pairs
    && var c, c' := w.pairs[a.pair], w'.pairs[a.pair];
       && c'.authority == c.authority && c'.feeVault == (if a.feeVault.Some? then a.feeVault.value else c.feeVault)
       && (a.newAuthority.None? ==> c'.pendingAuthority == c.pendingAuthority)
       && (a.newAuthority == Some(Plain(0)) ==> c'.pendingAuthority == None)
       && (a.newAuthority.Some? && a.newAuthority.value != Plain(0) ==> c'.pendingAuthority == a.newAuthority)
  }

  lemma {:induction false} ConfigureSucceedsIff(w: World, a: ConfigureArgs)
    requires Inv(w)
    ensures Configure(w, a).Ok? <==> CanConfigure(w, a)
    ensures Configure(w, a).Ok? ==> Changed(w, a, Configure(w, a).value)
  {
    if a.pair in w.pairs {
      assert PairBacked(w, a.pair);
      var call := FeeTimelock.Call(w.slot, a.deposit, a.withdraw);
      assert ConfigOk(a.pair, w.pairs[a.pair]);
      FeeTimelock.ConfigureSucceedsIff(w.pairs[a.pair].fees, call);
      ConfiguredIff(w, a);
    }
  }

  lemma {:induction false} ConfiguredIff(w: World, a: ConfigureArgs)
    requires a.pair in w.pairs && CustodyOk(w.tokens, a.pair.asset)
    requires var call := FeeTimelock.Call(w.slot, a.deposit, a.withdraw);
             ConfigureFees(w.pairs[a.pair].fees, a.deposit, a.withdraw, w.slot).Ok? <==>
               && FeeTimelock.WithinCap(a.deposit) && FeeTimelock.WithinCap(a.withdraw)
               && (FeeTimelock.Raises(w.pairs[a.pair].fees, call) ==> w.slot + 432_000 <= U64_MAX)
    ensures Configure(w, a).Ok? <==> CanConfigure(w, a)
    ensures Configure(w, a).Ok? ==> Changed(w, a, Configure(w, a).value)
  {
  }

  /**
   * What an accepted `configure` does to the fees, leg by leg, from the rates in force and the two
   * proposals alone.
   */
  lemma {:induction false} ConfigureSettlesFees(w: World, a: ConfigureArgs, w': World)
    requires Configure(w, a) == Ok(w')
    ensures a.pair in w.pairs && a.pair in w'.pairs
    ensures FeeTimelock.LegSettled(w.pairs[a.pair].fees, DepositLeg, a.deposit, w.slot, w'.pairs[a.pair].fees)
    ensures FeeTimelock.LegSettled(w.pairs[a.pair].fees, WithdrawLeg, a.withdraw, w.slot, w'.pairs[a.pair].fees)
  {
    ConfigureFacts(w, a, w');
    FeeTimelock.ConfigureSettles(w.pairs[a.pair].fees, FeeTimelock.Call(w.slot, a.deposit, a.withdraw));
  }

  // ------------------------------------------------------------ two-step handover

  /** Only the proposed key itself can take over, and then the proposal is used up. */
  lemma {:induction false} AcceptSucceedsIff(w: World, signer: Key, pair: PairId)
    ensures AcceptAuthority(w, signer, pair).Ok? <==> pair in w.pairs && w.pairs[pair].pendingAuthority == Some(signer)
    ensures AcceptAuthority(w, signer, pair).Ok? ==>
              var w' := AcceptAuthority(w, signer, pair).value;
              pair in w'.pairs && w'.pairs[pair].authority == signer && w'.pairs[pair].pendingAuthority == None
  {
  }

  /** What a step may do to who governs a pair. */
  predicate GovernedMove(w: World, s: Step, w': World, pair: PairId) {
    pair in w.pairs ==>
      && pair in w'.pairs
      && var c, c' := w.pairs[pair], w'.pairs[pair];
         && (c'.authority != c.authority ==>
               s.DoAcceptAuthority? && s.signer == c'.authority && c.pendingAuthority == Some(c'.authority))
         && (c'.pendingAuthority != c.pendingAuthority && c'.pendingAuthority.Some? ==>
               s.DoConfigure? && s.config.signer == c.authority && s.config.newAuthority == c'.pendingAuthority)
  }

  predicate FreshHasNoProposal(w: World, w': World, pair: PairId) {
    pair in w'.pairs && pair !in w.pairs ==> w'.pairs[pair].pendingAuthority == None
  }

  lemma {:induction false} InitializeGoverned(w: World, a: InitializeArgs, w': World, pair: PairId)
    requires Initialize(w, a) == Ok(w')
    ensures GovernedMove(w, DoInitialize(a), w', pair) && FreshHasNoProposal(w, w', pair)
  {
  }

  lemma {:induction false} ConfigureGoverned(w: World, a: ConfigureArgs, w': World, pair: PairId)
    requires Configure(w, a) == Ok(w')
    ensures GovernedMove(w, DoConfigure(a), w', pair) && (pair in w'.pairs ==> pair in w.pairs)
  {
  }

  lemma {:induction false} StepGoverned(w: World, s: Step, w': World, pair: PairId)
    requires Apply(w, s) == Ok(w')
    ensures GovernedMove(w, s, w', pair) && FreshHasNoProposal(w, w', pair)
  {
    if IsFlowStep(s) {
      FlowStepKeepsPairs(w, s, w');
    } else {
      match s
      case DoInitialize(a) => InitializeGoverned(w, a, w', pair);
      case DoConfigure(a) => ConfigureGoverned(w, a, w', pair);
      case DoAcceptAuthority(k, p) => AcceptFacts(w, k, p, w');
      case _ =>
    }
  }

  lemma {:induction false} ExecGoverned(w: World, s: Step, pair: PairId)
    ensures GovernedMove(w, s, Exec(w, s), pair) && FreshHasNoProposal(w, Exec(w, s), pair)
  {
    if Apply(w, s).Ok? {
      StepGoverned(w, s, Apply(w, s).value, pair);
    }
  }

  /** Step `i` is a `configure` by the authority of its time that proposes `k`. */
  predicate ProposedAt(w0: World, steps: seq<Step>, pair: PairId, k: Key, i: nat) {
    && i < |steps| && steps[i].DoConfigure? && steps[i].config.newAuthority == Some(k)
    && pair in Run(w0, steps[..i]).pairs && steps[i].config.signer == Run(w0, steps[..i]).pairs[pair].authority
  }

  /** In every run a standing proposal was made by a `configure` of the authority of its time. */
  lemma {:induction false} EveryProposalWasMade(w0: World, steps: seq<Step>, pair: PairId, k: Key) returns (i: nat)
    requires Genesis(w0) && pair in Run(w0, steps).pairs && Run(w0, steps).pairs[pair].pendingAuthority == Some(k)
    ensures ProposedAt(w0, steps, pair, k, i)
  {
    if steps == [] {
      assert false;
    } else {
      var n := |steps| - 1;
      var before := Run(w0, steps[..n]);
      ExecGoverned(before, steps[n], pair);
      if pair in before.pairs && before.pairs[pair].pendingAuthority == Some(k) {
        i := EveryProposalWasMade(w0, steps[..n], pair, k);
        assert steps[..n][..i] == steps[..i];
      } else {
        i := n;
      }
    }
  }

  /**
   * In every run a step that changes a pair's authority is signed by the new one, whom the authority
   * of an earlier time had proposed: nobody is put in charge without both consents.
   */
  lemma {:induction false} HandoverNeedsBoth(w0: World, steps: seq<Step>, s: Step, pair: PairId) returns (i: nat)
    requires Genesis(w0) && pair in Run(w0, steps).pairs && pair in Exec(Run(w0, steps), s).pairs
    requires Exec(Run(w0, steps), s).pairs[pair].authority != Run(w0, steps).pairs[pair].authority
    ensures var k := Exec(Run(w0, steps), s).pairs[pair].authority;
            s == DoAcceptAuthority(k, pair) && ProposedAt(w0, steps, pair, k, i)
  {
    var w := Run(w0, steps);
    ExecGoverned(w, s, pair);
    AcceptTouchesOne(w, s, pair);
    i := EveryProposalWasMade(w0, steps, pair, Exec(w, s).pairs[pair].authority);
  }

  lemma {:induction false} AcceptTouchesOne(w: World, s: Step, pair: PairId)
    requires s.DoAcceptAuthority? && pair in w.pairs && pair in Exec(w, s).pairs
    requires Exec(w, s).pairs[pair].authority != w.pairs[pair].authority
    ensures s.pair == pair
  {
  }
}
