/** Pairs cannot reach into each other's custody, flows or configuration. */
module Isolation {
  import opened Prelude
  import opened Chain
  import opened Instructions
  import opened Solvency

  /** No two pairs ever share a mint, and a pair's two mints differ. */
  lemma {:induction false} PairsNeverShareMints(w: World, steps: seq<Step>, p: PairId, q: PairId)
    requires Genesis(w) && LegalRun(w, steps)
    requires p in Run(w, steps).pairs && q in Run(w, steps).pairs
    ensures p.base != p.asset && (p != q ==> Disjoint(p, q))
  {
    AlwaysSolvent(w, steps);
    assert ConfigOk(p, Run(w, steps).pairs[p]);
  }

  predicate SameAccount(w: World, w': World, mint: Key) {
    Custody(mint) in w.tokens && Custody(mint) in w'.tokens && w'.tokens[Custody(mint)] == w.tokens[Custody(mint)]
  }

  predicate SameFlows(w: World, w': World, q: PairId) {
    && (forall id :: id in w.flows && id.pair == q ==> id in w'.flows && w'.flows[id] == w.flows[id])
    && (forall id :: id in w'.flows && id.pair == q ==> id in w.flows)
  }

  /** Nothing about pair `q` changed: custody records, flows, configuration, slack. */
  ghost predicate Untouched(w: World, w': World, q: PairId) {
    && q in w'.pairs && q in w.pairs && w'.pairs[q] == w.pairs[q]
    && SameAccount(w, w', q.base) && SameAccount(w, w', q.asset)
    && SameFlows(w, w', q)
    && Slack(w', q.base) == Slack(w, q.base) && Slack(w', q.asset) == Slack(w, q.asset)
  }

  lemma {:induction false} OtherPairsFlows(w: World, w': World, id: FlowId, q: PairId)
    requires q != id.pair && ChangedOnly(w, w', id)
    requires forall other :: other in w.flows && other != id ==> other in w'.flows
    ensures SameFlows(w, w', q)
  {
  }

  lemma {:induction false} ReceiveUntouched(w: World, a: ReceiveArgs, w': World, q: PairId)
    requires Inv(w) && Receive(w, a) == Ok(w') && q in w.pairs && q != a.pair
    ensures Untouched(w, w', q)
  {
    ReceiveFlows(w, a, w');
    CustodyPresent(w, q);
    assert Disjoint(a.pair, q);
    ReceiveElsewhere(w, a, w', q.base);
    ReceiveElsewhere(w, a, w', q.asset);
    OtherPairsFlows(w, w', a.Flow(), q);
  }

  lemma {:induction false} ReceiveElsewhere(w: World, a: ReceiveArgs, w': World, mint: Key)
    requires Receive(w, a) == Ok(w') && Custody(mint) in w.tokens && mint != a.pair.base && mint != a.pair.asset
    ensures SameAccount(w, w', mint) && Slack(w', mint) == Slack(w, mint)
    ensures forall id :: id in w.flows ==> id in w'.flows
  {
    ReceiveEffect(w, a, w', mint);
    ReceiveKeepsSlack(w, a, w', mint);
  }

  /** The account filter is what keeps another pair's custody out of a router's reach. */
  lemma {:induction false} SwapUntouched(w: World, a: SwapArgs, w': World, q: PairId)
    requires Inv(w) && Swap(w, a) == Ok(w') && RouterLegal(w, a) && q in w.pairs && q != a.id.pair
    ensures Untouched(w, w', q)
  {
    SwapFlows(w, a, w');
    OtherPairsFlows(w, w', a.id, q);
    assert PairBacked(w, q);
    assert Disjoint(a.id.pair, q);
    SwapElsewhere(w, a, w', q.base);
    SwapElsewhere(w, a, w', q.asset);
  }

  lemma {:induction false} SwapElsewhere(w: World, a: SwapArgs, w': World, mint: Key)
    requires Swap(w, a) == Ok(w') && SwapEntry(w, a).Ok? && RouterLegal(w, a) && PairsOk(w.pairs)
    requires CustodyOk(w.tokens, mint) && mint != a.id.pair.base && mint != a.id.pair.asset
    ensures SameAccount(w, w', mint) && Slack(w', mint) == Slack(w, mint)
  {
    SwapFrame(w, a, w', Custody(mint));
    SwapKeepsSlack(w, a, w', mint);
  }

  lemma {:induction false} CloseUntouched(w: World, w': World, id: FlowId, debit: nat, q: PairId)
    requires Inv(w) && Closed(w, w', id, debit) && q in w.pairs && q != id.pair
    ensures Untouched(w, w', q)
  {
    PairsApart(w, id, q);
    ClosedElsewhere(w, w', id, debit, q);
  }

  lemma {:induction false} PairsApart(w: World, id: FlowId, q: PairId)
    requires Inv(w) && id in w.flows && q in w.pairs && q != id.pair
    ensures Disjoint(id.pair, q) && Custody(q.base) in w.tokens && Custody(q.asset) in w.tokens
  {
    CustodyPresent(w, q);
    assert FlowOk(w.pairs, w.slot, id, w.flows[id]);
  }

  lemma {:induction false} ClosedElsewhere(w: World, w': World, id: FlowId, debit: nat, q: PairId)
    requires Closed(w, w', id, debit) && q in w.pairs && q != id.pair && Disjoint(id.pair, q)
    requires Custody(q.base) in w.tokens && Custody(q.asset) in w.tokens
    ensures Untouched(w, w', q)
  {
    OtherPairsFlows(w, w', id, q);
    CloseElsewhere(w, w', id, debit, q.base);
    CloseElsewhere(w, w', id, debit, q.asset);
  }

  lemma {:induction false} CloseElsewhere(w: World, w': World, id: FlowId, debit: nat, mint: Key)
    requires Closed(w, w', id, debit) && Custody(mint) in w.tokens && mint != id.pair.base && mint != id.pair.asset
    ensures SameAccount(w, w', mint) && Slack(w', mint) == Slack(w, mint)
  {
    CloseKeepsSlack(w, w', id, debit, mint);
  }

  /** When no flow changes, the same records give the same slack. */
  lemma {:induction false} SameRecordsUntouched(w: World, w': World, q: PairId)
    requires q in w.pairs && q in w'.pairs && w'.pairs[q] == w.pairs[q] && w'.flows == w.flows
    requires SameAccount(w, w', q.base) && SameAccount(w, w', q.asset)
    ensures Untouched(w, w', q)
  {
  }

  lemma {:induction false} InitializeUntouched(w: World, a: InitializeArgs, w': World, q: PairId)
    requires Inv(w) && Initialize(w, a) == Ok(w') && q in w.pairs && q != a.pair
    ensures Untouched(w, w', q)
  {
    CustodyPresent(w, q);
    InitializeFresh(w, a, w');
    CreatedKeeps(w.tokens, a, w'.tokens, q.base);
    CreatedKeeps(w.tokens, a, w'.tokens, q.asset);
    SameRecordsUntouched(w, w', q);
  }

  lemma {:induction false} CustodyPresent(w: World, q: PairId)
    requires Inv(w) && q in w.pairs
    ensures Custody(q.base) in w.tokens && Custody(q.asset) in w.tokens
  {
    assert PairBacked(w, q);
  }

  lemma {:induction false} CreatedKeeps(t: Tokens, a: InitializeArgs, t': Tokens, mint: Key)
    requires Custody(a.pair.base) !in t && Custody(a.pair.asset) !in t && Custody(mint) in t
    requires t' == t[Custody(a.pair.base) := FreshAta(RelayerAuthority, a.pair.base)]
                    [Custody(a.pair.asset) := FreshAta(RelayerAuthority, a.pair.asset)]
    ensures Custody(mint) in t' && t'[Custody(mint)] == t[Custody(mint)]
  {
  }

  lemma {:induction false} ReconfiguredUntouched(w: World, pair: PairId, w': World, q: PairId)
    requires Inv(w) && q in w.pairs && q != pair
    requires w' == w || (pair in w'.pairs && w' == w.(pairs := w.pairs[pair := w'.pairs[pair]]))
    ensures Untouched(w, w', q)
  {
    CustodyPresent(w, q);
    SameRecordsUntouched(w, w', q);
  }

  /** The pair an instruction is about. */
  function PairOf(s: Step): Option<PairId> {
    match s
    case DoInitialize(a) => Some(a.pair)
    case DoConfigure(a) => Some(a.pair)
    case DoAcceptAuthority(_, p) => Some(p)
    case DoReceive(a) => Some(a.pair)
    case DoSwap(a) => Some(a.id.pair)
    case DoSend(a) => Some(a.id.pair)
    case DoRefund(a) => Some(a.id.pair)
    case _ => None
  }

  /** Every instruction on one pair, with any router, leaves every other pair untouched. */
  lemma {:induction false} InstructionsAreIsolated(w: World, steps: seq<Step>, s: Step, q: PairId)
    requires Genesis(w) && LegalRun(w, steps) && Legal(Run(w, steps), s)
    requires q in Run(w, steps).pairs && PairOf(s).Some? && PairOf(s).value != q
    ensures Untouched(Run(w, steps), Exec(Run(w, steps), s), q)
  {
    AlwaysSolvent(w, steps);
    StepUntouched(Run(w, steps), s, q);
  }

  lemma {:induction false} StepUntouched(w: World, s: Step, q: PairId)
    requires Inv(w) && Legal(w, s) && q in w.pairs && PairOf(s).Some? && PairOf(s).value != q
    ensures Untouched(w, Exec(w, s), q)
  {
    var r := Apply(w, s);
    if r.Err? {
      ReconfiguredUntouched(w, PairOf(s).value, w, q);
    } else if IsFlowStep(s) {
      FlowStepUntouched(w, s, r.value, q);
    } else {
      GovernanceUntouched(w, s, r.value, q);
    }
  }

  lemma {:induction false} FlowStepUntouched(w: World, s: Step, w': World, q: PairId)
    requires Inv(w) && Legal(w, s) && Apply(w, s) == Ok(w') && IsFlowStep(s)
    requires q in w.pairs && PairOf(s).Some? && PairOf(s).value != q
    ensures Untouched(w, w', q)
  {
    match s
    case DoReceive(a) => ReceiveUntouched(w, a, w', q);
    case DoSwap(a) => SwapUntouched(w, a, w', q);
    case _ => ClosingUntouched(w, s, w', q);
  }

  lemma {:induction false} ClosingUntouched(w: World, s: Step, w': World, q: PairId)
    requires Inv(w) && Apply(w, s) == Ok(w') && (s.DoSend? || s.DoRefund?)
    requires q in w.pairs && PairOf(s).Some? && PairOf(s).value != q
    ensures Untouched(w, w', q)
  {
    match s
    case DoSend(a) => SendUntouched(w, a, w', q);
    case DoRefund(a) => RefundUntouched(w, a, w', q);
  }

  lemma {:induction false} GovernanceUntouched(w: World, s: Step, w': World, q: PairId)
    requires Inv(w) && Apply(w, s) == Ok(w') && !IsFlowStep(s)
    requires q in w.pairs && PairOf(s).Some? && PairOf(s).value != q
    ensures Untouched(w, w', q)
  {
    match s
    case DoInitialize(a) => InitializeUntouched(w, a, w', q);
    case DoConfigure(a) => ConfigureFacts(w, a, w'); ReconfiguredUntouched(w, a.pair, w', q);
    case DoAcceptAuthority(k, p) => AcceptFacts(w, k, p, w'); ReconfiguredUntouched(w, p, w', q);
  }

  lemma {:induction false} SendUntouched(w: World, a: CloseArgs, w': World, q: PairId)
    requires Inv(w) && Send(w, a) == Ok(w') && q in w.pairs && q != a.id.pair
    ensures Untouched(w, w', q)
  {
    SendCloses(w, a, w');
    CloseUntouched(w, w', a.id, a.ntt.debit, q);
  }

  lemma {:induction false} RefundUntouched(w: World, a: CloseArgs, w': World, q: PairId)
    requires Inv(w) && Refund(w, a) == Ok(w') && q in w.pairs && q != a.id.pair
    ensures Untouched(w, w', q)
  {
    RefundCloses(w, a, w');
    CloseUntouched(w, w', a.id, a.ntt.debit, q);
  }
}
