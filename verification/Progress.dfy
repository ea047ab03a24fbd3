/** Liveness of reachable states: open flows can always be closed, and honest routers always pass. */
module Progress {
  import opened Prelude
  import opened Fees
  import opened Chain
  import opened Instructions
  import opened Solvency

  // ----------------------------------------------------------------- no stranding

  /** What a caller of `send` or `refund` and a working bridge must supply. */
  predicate CloseSupplied(f: Flow, manager: Key, a: CloseArgs) {
    && a.rentTo == f.payer
    && SessionAuthority(manager, f.amount, f.recipient) in a.remaining
    && |a.remaining| > a.split && RelayerAuthority in a.remaining[..a.split]
    && a.ntt.ok && a.ntt.debit <= f.amount
  }

  /** Accounts that a caller of `send` or `refund` can always name, with a bridge that takes `debit`. */
  function ClosingCall(id: FlowId, f: Flow, manager: Key, debit: nat): CloseArgs {
    CloseArgs(id, f.payer, [RelayerAuthority, SessionAuthority(manager, f.amount, f.recipient)], 1, Outbound(true, debit))
  }

  /** Such a call supplies what is needed, for every debit up to the amount and no other. */
  lemma {:induction false} ClosingCallSupplies(id: FlowId, f: Flow, manager: Key, debit: nat)
    ensures CloseSupplied(f, manager, ClosingCall(id, f, manager, debit)) <==> debit <= f.amount
  {
    var a := ClosingCall(id, f, manager, debit);
    assert a.remaining[..1] == [RelayerAuthority];
    assert a.remaining[1] in a.remaining;
  }

  /** Custody holds what the flow is owed, and its pair's accounts are in place. */
  predicate Covered(w: World, id: FlowId) {
    && id in w.flows && id.pair in w.pairs && id.pair.base != id.pair.asset
    && CustodyOk(w.tokens, id.pair.base) && CustodyOk(w.tokens, id.pair.asset)
    && 0 < w.flows[id].amount <= w.tokens[Custody(OwedMint(id, w.flows[id]))].amount
  }

  lemma {:induction false} CustodyCoversFlow(w: World, id: FlowId)
    requires Inv(w) && id in w.flows
    ensures Covered(w, id)
  {
    assert FlowOk(w.pairs, w.slot, id, w.flows[id]);
    assert ConfigOk(id.pair, w.pairs[id.pair]);
    BackedCovers(w, id);
  }

  lemma {:induction false} BackedCovers(w: World, id: FlowId)
    requires id in w.flows && id.pair in w.pairs && id.pair.base != id.pair.asset
    requires PairBacked(w, id.pair) && w.flows[id].amount > 0
    ensures Covered(w, id)
  {
    OwedWithout(w.flows, id, OwedMint(id, w.flows[id]));
  }

  /** A swapped flow can be sent at once: no balance and no clock can stand in the way. */
  lemma {:induction false} SendSucceedsIff(w: World, a: CloseArgs)
    requires Inv(w) && a.id in w.flows && w.flows[a.id].status.Swapped?
    ensures a.id.pair in w.pairs
    ensures Send(w, a).Ok? <==>
              CloseSupplied(w.flows[a.id], PayManager(w.pairs[a.id.pair], a.id, w.flows[a.id]), a)
  {
    CustodyCoversFlow(w, a.id);
    CoveredSends(w, a);
  }

  lemma {:induction false} CoveredSends(w: World, a: CloseArgs)
    requires Covered(w, a.id) && w.flows[a.id].status.Swapped?
    ensures Send(w, a).Ok? <==>
              CloseSupplied(w.flows[a.id], PayManager(w.pairs[a.id.pair], a.id, w.flows[a.id]), a)
  {
  }

  predicate TimeoutPassed(w: World, f: Flow) {
    f.receivedSlot + REFUND_TIMEOUT_SLOTS <= U64_MAX && w.slot >= f.receivedSlot + REFUND_TIMEOUT_SLOTS
  }

  /** A received flow can be refunded exactly when its timeout has passed. */
  lemma {:induction false} RefundSucceedsIff(w: World, a: CloseArgs)
    requires Inv(w) && a.id in w.flows && w.flows[a.id].status.Received?
    ensures a.id.pair in w.pairs
    ensures Refund(w, a).Ok? <==>
              && CloseSupplied(w.flows[a.id], PayManager(w.pairs[a.id.pair], a.id, w.flows[a.id]), a)
              && TimeoutPassed(w, w.flows[a.id])
  {
    CustodyCoversFlow(w, a.id);
    CoveredRefunds(w, a);
  }

  lemma {:induction false} CoveredRefunds(w: World, a: CloseArgs)
    requires Covered(w, a.id) && w.flows[a.id].status.Received?
    ensures Refund(w, a).Ok? <==>
              && CloseSupplied(w.flows[a.id], PayManager(w.pairs[a.id.pair], a.id, w.flows[a.id]), a)
              && TimeoutPassed(w, w.flows[a.id])
  {
  }

  /**
   * A close goes through the manager pinned for the owed mint: its session authority for exactly this
   * amount and recipient was among the accounts, and is the only delegate left when dust remains.
   */
  lemma {:induction false} ClosesThroughPinnedManager(w: World, a: CloseArgs, w': World)
    requires Inv(w) && (Send(w, a) == Ok(w') || Refund(w, a) == Ok(w'))
    ensures a.id in w.flows && a.id.pair in w.pairs
    ensures var f := w.flows[a.id];
            var session := SessionAuthority(PayManager(w.pairs[a.id.pair], a.id, f), f.amount, f.recipient);
            var k := Custody(OwedMint(a.id, f));
            && session in a.remaining && k in w'.tokens
            && w'.tokens[k].delegate == (if a.ntt.debit == f.amount then None else Some(session))
  {
    var f := w.flows[a.id];
    CustodyCoversFlow(w, a.id);
    if Send(w, a) == Ok(w') {
      SendCloses(w, a, w');
      SendDelegates(w, a, w');
    } else {
      RefundCloses(w, a, w');
      RefundDelegates(w, a, w');
    }
  }

  lemma {:induction false} SendDelegates(w: World, a: CloseArgs, w': World)
    requires Covered(w, a.id) && Send(w, a) == Ok(w') && w.flows[a.id].status.Swapped?
    ensures var f := w.flows[a.id];
            var session := SessionAuthority(PayManager(w.pairs[a.id.pair], a.id, f), f.amount, f.recipient);
            && session in a.remaining && Custody(OwedMint(a.id, f)) in w'.tokens
            && w'.tokens[Custody(OwedMint(a.id, f))].delegate == (if a.ntt.debit == f.amount then None else Some(session))
  {
  }

  lemma {:induction false} RefundDelegates(w: World, a: CloseArgs, w': World)
    requires Covered(w, a.id) && Refund(w, a) == Ok(w') && w.flows[a.id].status.Received?
    ensures var f := w.flows[a.id];
            var session := SessionAuthority(PayManager(w.pairs[a.id.pair], a.id, f), f.amount, f.recipient);
            && session in a.remaining && Custody(OwedMint(a.id, f)) in w'.tokens
            && w'.tokens[Custody(OwedMint(a.id, f))].delegate == (if a.ntt.debit == f.amount then None else Some(session))
  {
  }

  /** Slots to wait before `refund`. */
  function Wait(w: World, f: Flow): nat {
    if w.slot >= f.receivedSlot + REFUND_TIMEOUT_SLOTS then 0 else f.receivedSlot + REFUND_TIMEOUT_SLOTS - w.slot
  }

  lemma {:induction false} SendPays(w: World, a: CloseArgs)
    requires Send(w, a).Ok?
    ensures var f, w' := w.flows[a.id], Exec(w, DoSend(a));
            && a.id !in w'.flows
            && w'.log == w.log + [FlowSent(a.id, f.recipient, OwedMint(a.id, f), f.amount)]
  {
  }

  lemma {:induction false} RefundPays(w: World, a: CloseArgs)
    requires Refund(w, a).Ok?
    ensures var f, w' := w.flows[a.id], Exec(w, DoRefund(a));
            && a.id !in w'.flows
            && w'.log == w.log + [FlowRefunded(a.id, f.recipient, OwedMint(a.id, f), f.amount, w.slot)]
  {
  }

  lemma {:induction false} WaitMakesReady(w: World, f: Flow)
    requires f.receivedSlot <= w.slot
    ensures var t := Exec(w, Tick(Wait(w, f)));
            && t == w.(slot := t.slot)
            && (TimeoutPassed(t, f) <==> f.receivedSlot + REFUND_TIMEOUT_SLOTS <= U64_MAX)
  {
  }

  /**
   * From every reachable state a swapped flow is closed by one `send`, which pays its recorded
   * recipient the whole recorded amount.
   */
  lemma {:induction false} SwappedNeverStranded(w0: World, steps: seq<Step>, a: CloseArgs)
    requires Genesis(w0) && LegalRun(w0, steps)
    requires a.id in Run(w0, steps).flows && Run(w0, steps).flows[a.id].status.Swapped?
    ensures a.id.pair in Run(w0, steps).pairs
    ensures var w, f := Run(w0, steps), Run(w0, steps).flows[a.id];
            CloseSupplied(f, PayManager(w.pairs[a.id.pair], a.id, w.flows[a.id]), a) ==>
              var w' := Exec(w, DoSend(a));
              && a.id !in w'.flows
              && w'.log == w.log + [FlowSent(a.id, f.recipient, OwedMint(a.id, f), f.amount)]
  {
    AlwaysSolvent(w0, steps);
    var w := Run(w0, steps);
    SendSucceedsIff(w, a);
    if CloseSupplied(w.flows[a.id], PayManager(w.pairs[a.id.pair], a.id, w.flows[a.id]), a) {
      SendPays(w, a);
    }
  }

  /**
   * From every reachable state a received flow is closed by one `refund` after a clock advance, if
   * and only if its receipt is not in the last 54000 slots of the 64-bit clock. The refund pays its
   * recorded recipient the whole recorded amount.
   */
  lemma {:induction false} ReceivedNeverStranded(w0: World, steps: seq<Step>, a: CloseArgs)
    requires Genesis(w0) && LegalRun(w0, steps)
    requires a.id in Run(w0, steps).flows && Run(w0, steps).flows[a.id].status.Received?
    ensures a.id.pair in Run(w0, steps).pairs
    ensures var w, f := Run(w0, steps), Run(w0, steps).flows[a.id];
            CloseSupplied(f, PayManager(w.pairs[a.id.pair], a.id, w.flows[a.id]), a) ==>
              var t := Exec(w, Tick(Wait(w, f)));
              && (Refund(t, a).Ok? <==> f.receivedSlot + REFUND_TIMEOUT_SLOTS <= U64_MAX)
              && (Refund(t, a).Ok? ==> RefundPaid(w, a.id, Exec(t, DoRefund(a))))
  {
    AlwaysSolvent(w0, steps);
    RefundAfterWait(Run(w0, steps), a);
  }

  /** In `w'` the flow of `w` is gone, and the last event is its refund in full. */
  predicate RefundPaid(w: World, id: FlowId, w': World)
    requires id in w.flows
  {
    && id !in w'.flows && |w'.log| == |w.log| + 1 && w'.log[..|w.log|] == w.log
    && w'.log[|w.log|].FlowRefunded? && w'.log[|w.log|].id == id
    && w'.log[|w.log|].recipient == w.flows[id].recipient && w'.log[|w.log|].amount == w.flows[id].amount
    && w'.log[|w.log|].mint == OwedMint(id, w.flows[id])
  }

  lemma {:induction false} RefundAfterWait(w: World, a: CloseArgs)
    requires Inv(w) && a.id in w.flows && w.flows[a.id].status.Received?
    ensures a.id.pair in w.pairs
    ensures var f, t := w.flows[a.id], Exec(w, Tick(Wait(w, w.flows[a.id])));
            CloseSupplied(f, PayManager(w.pairs[a.id.pair], a.id, w.flows[a.id]), a) ==>
              && (Refund(t, a).Ok? <==> f.receivedSlot + REFUND_TIMEOUT_SLOTS <= U64_MAX)
              && (Refund(t, a).Ok? ==> RefundPaid(w, a.id, Exec(t, DoRefund(a))))
  {
    var f := w.flows[a.id];
    assert FlowOk(w.pairs, w.slot, a.id, f);
    WaitMakesReady(w, f);
    var t := Exec(w, Tick(Wait(w, f)));
    CustodyCoversFlow(w, a.id);
    assert Covered(t, a.id);
    CoveredRefunds(t, a);
    if Refund(t, a).Ok? {
      RefundPays(t, a);
    }
  }

  /**
   * From every reachable state, anyone can close and pay every open flow by one named call: at once
   * if it is swapped, and after a clock advance if it is received and its timeout fits the clock.
   */
  lemma {:induction false} EveryFlowCanBeClosed(w0: World, steps: seq<Step>, id: FlowId, debit: nat)
    requires Genesis(w0) && LegalRun(w0, steps) && id in Run(w0, steps).flows
    requires debit <= Run(w0, steps).flows[id].amount
    ensures id.pair in Run(w0, steps).pairs
    ensures var w, f := Run(w0, steps), Run(w0, steps).flows[id];
            f.status.Swapped? ==>
              var w' := Exec(w, DoSend(ClosingCall(id, f, PayManager(w.pairs[id.pair], id, f), debit)));
              && id !in w'.flows
              && w'.log == w.log + [FlowSent(id, f.recipient, OwedMint(id, f), f.amount)]
    ensures var w, f := Run(w0, steps), Run(w0, steps).flows[id];
            f.status.Received? ==>
              var t := Exec(w, Tick(Wait(w, f)));
              var a := ClosingCall(id, f, PayManager(w.pairs[id.pair], id, f), debit);
              && (Refund(t, a).Ok? <==> f.receivedSlot + REFUND_TIMEOUT_SLOTS <= U64_MAX)
              && (Refund(t, a).Ok? ==> RefundPaid(w, id, Exec(t, DoRefund(a))))
  {
    PairOfOpenFlow(w0, steps, id);
    var w := Run(w0, steps);
    var f, c := w.flows[id], w.pairs[id.pair];
    if f.status.Swapped? {
      ClosingCallSupplies(id, f, PayManager(c, id, f), debit);
      SwappedNeverStranded(w0, steps, ClosingCall(id, f, PayManager(c, id, f), debit));
    } else {
      ClosingCallSupplies(id, f, PayManager(c, id, f), debit);
      ReceivedNeverStranded(w0, steps, ClosingCall(id, f, PayManager(c, id, f), debit));
    }
  }

  lemma {:induction false} PairOfOpenFlow(w0: World, steps: seq<Step>, id: FlowId)
    requires Genesis(w0) && LegalRun(w0, steps) && id in Run(w0, steps).flows
    ensures id.pair in Run(w0, steps).pairs
  {
    AlwaysSolvent(w0, steps);
    CustodyCoversFlow(Run(w0, steps), id);
  }

  // ------------------------------------------------------------- honest progress

  /** The relayer authority never acquires data, since `swap` refuses a router that gives it some. */
  lemma {:induction false} AuthorityStaysEmpty(w: World, steps: seq<Step>)
    requires Genesis(w) && LegalRun(w, steps)
    ensures Run(w, steps).authority.dataIsEmpty
  {
    if steps != [] {
      var before := Run(w, steps[..|steps| - 1]);
      AuthorityStaysEmpty(w, steps[..|steps| - 1]);
      AuthorityStep(before, steps[|steps| - 1]);
    }
  }

  lemma {:induction false} AuthorityStep(w: World, s: Step)
    requires w.authority.dataIsEmpty
    ensures Exec(w, s).authority.dataIsEmpty
  {
    var r := Apply(w, s);
    if r.Ok? {
      match s
      case DoSwap(a) => SwapAuthority(w, a);
      case DoReceive(a) => ReceiveAuthority(w, a);
      case _ => OtherStepsKeepAuthority(w, s, r.value);
    }
  }

  lemma {:induction false} OtherStepsKeepAuthority(w: World, s: Step, w': World)
    requires Apply(w, s) == Ok(w') && !s.DoSwap? && !s.DoReceive?
    ensures w'.authority == w.authority
  {
    match s
    case DoInitialize(a) =>
    case DoConfigure(a) =>
    case DoSend(a) =>
    case DoRefund(a) =>
    case _ =>
  }

  lemma {:induction false} ReceiveAuthority(w: World, a: ReceiveArgs)
    requires Receive(w, a).Ok?
    ensures Receive(w, a).value.authority == w.authority
  {
  }

  lemma {:induction false} SwapAuthority(w: World, a: SwapArgs)
    requires Swap(w, a).Ok?
    ensures Swap(w, a).value.authority.dataIsEmpty
  {
  }

  /** The pair's own accounts as the router receives them, and its whole budget. */
  predicate ReadyForRouter(p: Prepared, a: SwapArgs) {
    && a.InKey() in p.tokens && a.OutKey() in p.tokens
    && var i, o := p.tokens[a.InKey()], p.tokens[a.OutKey()];
       && 0 < p.swapIn <= i.amount && i.owner == o.owner == RelayerAuthority && i.closer.None? && o.closer.None?
       && i.allowance == (if a.delegate == RelayerAuthority then 0 else p.swapIn)
       && i.delegate == (if a.delegate == RelayerAuthority then None else Some(a.delegate))
       && o.allowance == 0 && o.delegate.None?
  }

  /** The flow's amount is in custody, whole, and its accounts are the relayer's own. */
  predicate Funded(w: World, a: SwapArgs) {
    && a.id in w.flows && a.id.pair in w.pairs && ConfigOk(a.id.pair, w.pairs[a.id.pair])
    && w.pairs[a.id.pair].feeVault != a.InKey() && w.pairs[a.id.pair].feeVault != a.OutKey()
    && a.InKey() != a.OutKey() && a.InKey() in w.tokens && a.OutKey() in w.tokens
    && w.tokens[a.InKey()].owner == w.tokens[a.OutKey()].owner == RelayerAuthority
    && w.tokens[a.InKey()].closer.None? && w.tokens[a.OutKey()].closer.None?
    && 0 < w.flows[a.id].amount <= w.tokens[a.InKey()].amount
    && w.flows[a.id].minSwapOut > 0
  }

  lemma {:induction false} EntryIsFunded(w: World, a: SwapArgs)
    requires Inv(w) && SwapEntry(w, a).Ok?
    ensures Funded(w, a)
  {
    EntryFacts(w, a);
    InvFunds(w, a);
  }

  lemma {:induction false} EntryFacts(w: World, a: SwapArgs)
    requires SwapEntry(w, a).Ok?
    ensures a.id in w.flows && a.id.pair in w.pairs && w.flows[a.id].status.Received?
    ensures VaultOk(w.tokens, w.pairs[a.id.pair].feeVault, a.id.pair.asset)
  {
  }

  lemma {:induction false} InvFunds(w: World, a: SwapArgs)
    requires Inv(w) && a.id in w.flows && a.id.pair in w.pairs && w.flows[a.id].status.Received?
    requires VaultOk(w.tokens, w.pairs[a.id.pair].feeVault, a.id.pair.asset)
    ensures Funded(w, a)
  {
    CustodyCoversFlow(w, a.id);
    BackedRecords(w, a);
    assert ConfigOk(a.id.pair, w.pairs[a.id.pair]);
    assert FlowOk(w.pairs, w.slot, a.id, w.flows[a.id]);
  }

  lemma {:induction false} BackedRecords(w: World, a: SwapArgs)
    requires Inv(w) && a.id.pair in w.pairs
    ensures a.InKey() in w.tokens && a.OutKey() in w.tokens
    ensures w.tokens[a.InKey()].owner == w.tokens[a.OutKey()].owner == RelayerAuthority
    ensures w.tokens[a.InKey()].closer.None? && w.tokens[a.OutKey()].closer.None?
  {
    assert PairBacked(w, a.id.pair);
  }

  lemma {:induction false} SwapInputConserves(c: PairConfig, id: FlowId, gross: u64)
    requires ConfigOk(id.pair, c) && gross > 0
    ensures SwapInput(c, id.direction, gross).Ok?
    ensures var s := SwapInput(c, id.direction, gross).value;
            s.net > 0 && s.net + s.fee == gross && (id.direction.Deposit? ==> s.fee == 0)
  {
    SplitConserves(gross, c.fees.withdraw);
  }

  /** The fee taken before the swap and the router's budget are always available from custody. */
  lemma {:induction false} PrepareSucceeds(w: World, a: SwapArgs)
    requires Funded(w, a) && SwapEntry(w, a).Ok?
    ensures SwapPrepared(w, a).Ok? && ReadyForRouter(SwapPrepared(w, a).value, a)
  {
    var c := w.pairs[a.id.pair];
    SwapInputConserves(c, a.id, w.flows[a.id].amount);
    var input := SwapInput(c, a.id.direction, w.flows[a.id].amount).value;
    SkimSucceeds(w.tokens, a.id.pair.asset, c.feeVault, input.fee);
    SkimEffect(w.tokens, a.id.pair.asset, c.feeVault, input.fee, a.InKey());
    SkimEffect(w.tokens, a.id.pair.asset, c.feeVault, input.fee, a.OutKey());
  }

  lemma {:induction false} SkimSucceeds(tokens: Tokens, asset: Key, vault: Key, fee: nat)
    requires CustodyOk(tokens, asset) && VaultOk(tokens, vault, asset) && vault != Custody(asset)
    requires fee <= tokens[Custody(asset)].amount || fee == 0
    ensures Skimmed(tokens, asset, vault, fee).Ok?
  {
  }

  /** The input account after the router spent its whole budget, as delegate or as owner. */
  function InputSpent(t: TokenAccount, a: SwapArgs, budget: nat): TokenAccount
    requires budget <= t.amount && (a.delegate != RelayerAuthority ==> budget <= t.allowance)
  {
    if a.delegate == RelayerAuthority then t.(amount := t.amount - budget) else SpentByDelegate(t, budget)
  }

  /** The signing account is neither drained, nor reassigned, nor given data. */
  predicate AuthorityKept(before: SystemAccount, after: SystemAccount) {
    after.lamports >= before.lamports && after.owner == before.owner && (before.dataIsEmpty ==> after.dataIsEmpty)
  }

  /**
   * A router that spends exactly its budget and delivers `out`. It may write every other account it
   * was handed: pools, venues, its own accounts.
   */
  ghost predicate HonestRouter(w: World, a: SwapArgs, out: nat)
    requires SwapEntry(w, a).Ok? && SwapPrepared(w, a).Ok?
  {
    a.router.ok && AuthorityKept(w.authority, a.router.authority) && RouterLegal(w, a)
    && WritesFit(a.router.writes) && SpendsAndDelivers(SwapPrepared(w, a).value, a, out)
  }

  /** The two custody records an honest router leaves behind. */
  predicate SpendsAndDelivers(p: Prepared, a: SwapArgs, out: nat)
    requires a.InKey() in p.tokens && a.OutKey() in p.tokens
  {
    var i, o, writes := p.tokens[a.InKey()], p.tokens[a.OutKey()], a.router.writes;
    && p.swapIn <= i.amount && (a.delegate != RelayerAuthority ==> p.swapIn <= i.allowance)
    && a.InKey() in writes && writes[a.InKey()] == InputSpent(i, a, p.swapIn)
    && a.OutKey() in writes && writes[a.OutKey()] == Credited(o, out)
  }

  /**
   * Whatever delegations earlier sends left standing, a router that spends exactly the budget and
   * meets the floor passes every later check and fee step of `swap`.
   */
  lemma {:induction false} HonestSwapSucceeds(w: World, a: SwapArgs, out: nat)
    requires Inv(w) && w.authority.dataIsEmpty && SwapEntry(w, a).Ok?
    ensures SwapPrepared(w, a).Ok?
    ensures HonestRouter(w, a, out) && out >= w.flows[a.id].minSwapOut ==> Swap(w, a).Ok?
  {
    EntryIsFunded(w, a);
    PrepareSucceeds(w, a);
    if HonestRouter(w, a, out) && out >= w.flows[a.id].minSwapOut {
      HonestPasses(w, a, out, SwapPrepared(w, a).value);
    }
  }

  /** The same from every reachable state. */
  lemma {:induction false} HonestSwapNeverBlocked(w0: World, steps: seq<Step>, a: SwapArgs, out: nat)
    requires Genesis(w0) && LegalRun(w0, steps) && SwapEntry(Run(w0, steps), a).Ok?
    ensures SwapPrepared(Run(w0, steps), a).Ok?
    ensures var w := Run(w0, steps);
            HonestRouter(w, a, out) && out >= w.flows[a.id].minSwapOut ==> Swap(w, a).Ok?
  {
    AlwaysSolvent(w0, steps);
    AuthorityStaysEmpty(w0, steps);
    HonestSwapSucceeds(Run(w0, steps), a, out);
  }

  /** A route through a pool: the pool keeps the input it is paid and gives up the output. */
  function PoolRoute(p: Prepared, a: SwapArgs, out: nat, paidTo: Key, paidFrom: Key): Tokens
    requires ReadyForRouter(p, a) && paidTo in p.tokens && paidFrom in p.tokens && out <= p.tokens[paidFrom].amount
  {
    var from := p.tokens[paidFrom];
    map[paidTo := Credited(p.tokens[paidTo], p.swapIn), paidFrom := from.(amount := from.amount - out),
        a.InKey() := InputSpent(p.tokens[a.InKey()], a, p.swapIn), a.OutKey() := Credited(p.tokens[a.OutKey()], out)]
  }

  predicate PoolAccount(w: World, a: SwapArgs, k: Key) {
    k in w.tokens && k in a.remaining && k != a.InKey() && k != a.OutKey()
    && w.tokens[k].owner != RelayerAuthority && !w.tokens[k].owner.InboxAuthority?
  }

  /** Such routes are honest, so the theorem is about swaps that conserve what they move. */
  lemma {:induction false} PoolRouteIsHonest(w: World, a: SwapArgs, out: nat, paidTo: Key, paidFrom: Key)
    requires Inv(w) && SwapEntry(w, a).Ok? && SwapPrepared(w, a).Ok? && ReadyForRouter(SwapPrepared(w, a).value, a)
    requires PoolAccount(w, a, paidTo) && PoolAccount(w, a, paidFrom) && paidTo != paidFrom
    requires a.InKey() in a.remaining && a.OutKey() in a.remaining
    requires var t := SwapPrepared(w, a).value.tokens;
             paidTo in t && paidFrom in t && out <= t[paidFrom].amount
    requires var p := SwapPrepared(w, a).value;
             && a.router.ok && a.router.authority == w.authority
             && a.router.writes == PoolRoute(p, a, out, paidTo, paidFrom) && WritesFit(a.router.writes)
    ensures HonestRouter(w, a, out)
  {
    EntryIsFunded(w, a);
    PoolAccountKept(w, a, paidTo);
    PoolAccountKept(w, a, paidFrom);
    PreparedMint(w, a, a.InKey());
    PreparedMint(w, a, a.OutKey());
    PoolRouteIsLegal(w, a, SwapPrepared(w, a).value, out, paidTo, paidFrom);
  }

  lemma {:induction false} PoolAccountKept(w: World, a: SwapArgs, k: Key)
    requires Funded(w, a) && SwapEntry(w, a).Ok? && SwapPrepared(w, a).Ok? && PoolAccount(w, a, k)
    ensures k in SwapPrepared(w, a).value.tokens && SwapPrepared(w, a).value.tokens[k] == w.tokens[k]
  {
    assert AccountAllowed(w, a.id, w.pairs[a.id.pair].feeVault, k);
    PreparedEffect(w, a, k);
  }

  lemma {:induction false} PoolRouteIsLegal(w: World, a: SwapArgs, p: Prepared, out: nat, paidTo: Key, paidFrom: Key)
    requires Funded(w, a) && ReadyForRouter(p, a) && a.InKey() in a.remaining && a.OutKey() in a.remaining
    requires PoolAccount(w, a, paidTo) && PoolAccount(w, a, paidFrom) && paidTo != paidFrom
    requires paidTo in p.tokens && p.tokens[paidTo] == w.tokens[paidTo]
    requires paidFrom in p.tokens && p.tokens[paidFrom] == w.tokens[paidFrom] && out <= p.tokens[paidFrom].amount
    requires p.tokens[a.InKey()].mint == w.tokens[a.InKey()].mint
    requires p.tokens[a.OutKey()].mint == w.tokens[a.OutKey()].mint
    requires a.router.writes == PoolRoute(p, a, out, paidTo, paidFrom)
    ensures RouterLegal(w, a) && SpendsAndDelivers(p, a, out)
  {
    forall k | k in a.router.writes
      ensures k in a.remaining && k in w.tokens && a.router.writes[k].mint == w.tokens[k].mint
      ensures !w.tokens[k].owner.InboxAuthority?
    {
      assert k == paidTo || k == paidFrom || k == a.InKey() || k == a.OutKey();
    }
  }

  lemma {:induction false} HonestPasses(w: World, a: SwapArgs, out: nat, p: Prepared)
    requires Funded(w, a) && w.authority.dataIsEmpty && SwapEntry(w, a).Ok? && SwapPrepared(w, a) == Ok(p)
    requires ReadyForRouter(p, a) && HonestRouter(w, a, out)
    requires out >= w.flows[a.id].minSwapOut
    ensures Swap(w, a).Ok?
  {
    var after, c := p.tokens + a.router.writes, w.pairs[a.id.pair];
    PreparedRecords(w, a, p);
    VaultNotWritten(w, a);
    HonestWrites(p, a, out, c.feeVault, after);
    HonestChecked(p, after, a, out, w.flows[a.id].minSwapOut);
    HonestSettles(w.(tokens := after, authority := a.router.authority), a, out, p.fee);
  }

  /** What an honest router leaves behind, account by account. */
  lemma {:induction false} HonestWrites(p: Prepared, a: SwapArgs, out: nat, vault: Key, after: Tokens)
    requires ReadyForRouter(p, a) && WritesFit(a.router.writes) && after == p.tokens + a.router.writes
    requires SpendsAndDelivers(p, a, out) && a.InKey() != a.OutKey() && vault !in a.router.writes
    requires CustodyOk(p.tokens, a.id.pair.asset) && VaultOk(p.tokens, vault, a.id.pair.asset)
    ensures a.InKey() in after && after[a.InKey()] == InputSpent(p.tokens[a.InKey()], a, p.swapIn)
    ensures a.OutKey() in after && after[a.OutKey()] == Credited(p.tokens[a.OutKey()], out) && out <= U64_MAX
    ensures CustodyOk(after, a.id.pair.asset) && VaultOk(after, vault, a.id.pair.asset)
  {
    assert a.OutKey() in a.router.writes;
  }

  lemma {:induction false} PreparedRecords(w: World, a: SwapArgs, p: Prepared)
    requires Funded(w, a) && SwapEntry(w, a).Ok? && SwapPrepared(w, a) == Ok(p) && ReadyForRouter(p, a)
    ensures CustodyOk(p.tokens, a.id.pair.asset)
    ensures VaultOk(p.tokens, w.pairs[a.id.pair].feeVault, a.id.pair.asset)
  {
    PreparedMint(w, a, Custody(a.id.pair.asset));
    var c := w.pairs[a.id.pair];
    var input := SwapInput(c, a.id.direction, w.flows[a.id].amount).value;
    assert Skimmed(w.tokens, a.id.pair.asset, c.feeVault, input.fee).Ok?;
  }

  lemma {:induction false} HonestSettles(w: World, a: SwapArgs, out: u64, feeBefore: nat)
    requires a.id in w.flows && a.id.pair in w.pairs && ConfigOk(a.id.pair, w.pairs[a.id.pair])
    requires CustodyOk(w.tokens, a.id.pair.asset) && VaultOk(w.tokens, w.pairs[a.id.pair].feeVault, a.id.pair.asset)
    requires a.OutKey() in w.tokens && 0 < out <= w.tokens[a.OutKey()].amount
    ensures Settle(w, a, out, feeBefore).Ok?
  {
    var c := w.pairs[a.id.pair];
    SplitConserves(out, c.fees.deposit);
    SkimSucceeds(w.tokens, a.id.pair.asset, c.feeVault, SwapOutput(c, a.id.direction, out).value.fee);
  }

  lemma {:induction false} HonestChecked(p: Prepared, after: Tokens, a: SwapArgs, out: nat, floor: nat)
    requires ReadyForRouter(p, a) && a.InKey() != a.OutKey() && floor <= out
    requires a.InKey() in after && after[a.InKey()] == InputSpent(p.tokens[a.InKey()], a, p.swapIn)
    requires a.OutKey() in after && after[a.OutKey()] == Credited(p.tokens[a.OutKey()], out)
    ensures SwapChecked(p.tokens, after, a, p.swapIn, floor) == Ok(out)
  {
  }
}
