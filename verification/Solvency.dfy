/** Pooled custody covers what every open flow is owed, in every reachable state. */
module Solvency {
  import opened Prelude
  import opened Fees
  import opened Chain
  import opened Instructions

  // ------------------------------------------------------------- what is owed

  /** Received deposits and swapped withdraws are owed base; the other two are owed asset. */
  function OwedMint(id: FlowId, f: Flow): Key {
    if f.status.Received? <==> id.direction.Deposit? then id.pair.base else id.pair.asset
  }

  /** The bridge manager pinned for a mint of the pair. */
  function PinnedManager(p: PairId, c: PairConfig, mint: Key): Key {
    if mint == p.base then c.nttBase else c.nttAsset
  }

  /** The manager that may take what a flow is owed: the one pinned for that mint. */
  function PayManager(c: PairConfig, id: FlowId, f: Flow): Key {
    PinnedManager(id.pair, c, OwedMint(id, f))
  }

  function OwedBy(id: FlowId, f: Flow, mint: Key): nat {
    if OwedMint(id, f) == mint then f.amount else 0
  }

  /** The sum over all open flows, of all pairs, of what they are owed in a mint. */
  ghost function Owed(flows: map<FlowId, Flow>, mint: Key): nat {
    if flows == map[] then 0
    else
      var id :| id in flows;
      OwedBy(id, flows[id], mint) + Owed(flows - {id}, mint)
  }

  lemma {:induction false} OwedWithout(flows: map<FlowId, Flow>, id: FlowId, mint: Key)
    requires id in flows
    ensures Owed(flows, mint) == OwedBy(id, flows[id], mint) + Owed(flows - {id}, mint)
  {
    var first :| first in flows && Owed(flows, mint) == OwedBy(first, flows[first], mint) + Owed(flows - {first}, mint);
    if first != id {
      OwedWithout(flows - {first}, id, mint);
      OwedWithout(flows - {id}, first, mint);
      assert flows - {first} - {id} == flows - {id} - {first};
    }
  }

  /** Opening or updating one flow moves the sum by that flow's change alone. */
  lemma {:induction false} OwedUpdate(flows: map<FlowId, Flow>, id: FlowId, f: Flow, mint: Key)
    ensures Owed(flows[id := f], mint) + (if id in flows then OwedBy(id, flows[id], mint) else 0) ==
            Owed(flows, mint) + OwedBy(id, f, mint)
  {
    OwedWithout(flows[id := f], id, mint);
    assert flows[id := f] - {id} == flows - {id};
    if id in flows {
      OwedWithout(flows, id, mint);
    } else {
      assert flows - {id} == flows;
    }
  }

  // ------------------------------------------------------------- the invariant

  /** Custody of a mint covers every open flow and whatever a standing delegate may still spend. */
  ghost predicate Backed(tokens: Tokens, flows: map<FlowId, Flow>, mint: Key) {
    && CustodyOk(tokens, mint)
    && tokens[Custody(mint)].closer.None?
    && Owed(flows, mint) + tokens[Custody(mint)].allowance <= tokens[Custody(mint)].amount
  }

  predicate ConfigOk(p: PairId, c: PairConfig) {
    p.base != p.asset && Validate(c.fees).None? && c.feeVault != Custody(p.asset)
  }

  predicate Disjoint(p: PairId, q: PairId) {
    p.base != q.base && p.base != q.asset && p.asset != q.base && p.asset != q.asset
  }

  predicate PairsOk(pairs: map<PairId, PairConfig>) {
    && (forall p :: p in pairs ==> ConfigOk(p, pairs[p]))
    && (forall p, q :: p in pairs && q in pairs && p != q ==> Disjoint(p, q))
  }

  predicate FlowOk(pairs: map<PairId, PairConfig>, slot: nat, id: FlowId, f: Flow) {
    id.pair in pairs && f.amount > 0 && f.minSwapOut > 0 && f.receivedSlot <= slot
  }

  predicate FlowsOk(w: World) {
    forall id :: id in w.flows ==> FlowOk(w.pairs, w.slot, id, w.flows[id])
  }

  ghost predicate PairBacked(w: World, p: PairId) {
    Backed(w.tokens, w.flows, p.base) && Backed(w.tokens, w.flows, p.asset)
  }

  ghost predicate AllBacked(w: World) { forall p :: p in w.pairs ==> PairBacked(w, p) }

  ghost predicate Inv(w: World) { PairsOk(w.pairs) && AllBacked(w) && FlowsOk(w) }

  /** What custody holds beyond what its flows are owed. */
  ghost function Slack(w: World, mint: Key): int
    requires Custody(mint) in w.tokens
  {
    w.tokens[Custody(mint)].amount - Owed(w.flows, mint)
  }

  predicate ChangedOnly(w: World, w': World, id: FlowId) {
    forall other :: other in w'.flows && other != id ==> other in w.flows && w'.flows[other] == w.flows[other]
  }

  lemma {:induction false} InvAfter(w: World, w': World, id: FlowId)
    requires Inv(w) && w'.pairs == w.pairs && w'.slot == w.slot && ChangedOnly(w, w', id)
    requires AllBacked(w')
    requires id in w'.flows ==> FlowOk(w'.pairs, w'.slot, id, w'.flows[id])
    ensures Inv(w')
  {
  }

  // ------------------------------------------------------------------- receive

  lemma {:induction false} DeliveredFrame(w: World, a: ReceiveArgs, k: Key)
    requires a.vtm in w.vtms && Delivered(w, a).Ok? && k != a.Inbox()
    ensures var t := Delivered(w, a).value.tokens;
            (k in t <==> k in w.tokens) && (k in w.tokens ==> t[k] == w.tokens[k])
  {
  }

  /** The three stages of a successful `receive`. */
  lemma {:induction false} ReceiveStages(w: World, a: ReceiveArgs, w': World) returns (d: Delivery)
    requires Receive(w, a) == Ok(w')
    ensures ReceiveGuards(w, a).Ok? && a.vtm in w.vtms && Delivered(w, a) == Ok(d)
    ensures Opened(w.(items := d.items, tokens := d.tokens), a) == Ok(w')
  {
    d := Delivered(w, a).value;
  }

  /** The facts a flow rests on, as established before any bridge call. */
  lemma {:induction false} GuardFacts(w: World, a: ReceiveArgs)
    requires ReceiveGuards(w, a).Ok?
    ensures a.pair in w.pairs && a.Flow() !in w.flows && a.minSwapOut > 0 && a.vtm in w.vtms
    ensures a.recvMint == InMint(a.pair, a.direction) && a.inboxAuthority == InboxAuthority(a.wallet, a.minSwapOut)
    ensures a.Inbox() in w.tokens && Custody(a.recvMint) in w.tokens
  {
  }

  lemma {:induction false} OpenedEffect(w: World, a: ReceiveArgs, w': World, mint: Key)
    requires Opened(w, a) == Ok(w') && a.inboxAuthority != RelayerAuthority && Custody(mint) in w.tokens
    ensures a.Flow() in w'.flows && w'.flows == w.flows[a.Flow() := w'.flows[a.Flow()]]
    ensures w'.flows[a.Flow()].status.Received? && Custody(mint) in w'.tokens
    ensures w'.tokens[Custody(mint)] ==
            Credited(w.tokens[Custody(mint)], if a.recvMint == mint then w'.flows[a.Flow()].amount else 0)
  {
  }

  /** The sweep brings exactly the new flow's amount into custody, and touches no other custody. */
  lemma {:induction false} ReceiveEffect(w: World, a: ReceiveArgs, w': World, mint: Key)
    requires Receive(w, a) == Ok(w') && Custody(mint) in w.tokens
    ensures a.Flow() !in w.flows && a.Flow() in w'.flows
    ensures w'.flows == w.flows[a.Flow() := w'.flows[a.Flow()]]
    ensures Custody(mint) in w'.tokens
    ensures w'.tokens[Custody(mint)] ==
            Credited(w.tokens[Custody(mint)], OwedBy(a.Flow(), w'.flows[a.Flow()], mint))
  {
    var d := ReceiveStages(w, a, w');
    GuardFacts(w, a);
    DeliveredFrame(w, a, Custody(mint));
    OpenedEffect(w.(items := d.items, tokens := d.tokens), a, w', mint);
  }

  lemma {:induction false} ReceiveKeepsSlack(w: World, a: ReceiveArgs, w': World, mint: Key)
    requires Receive(w, a) == Ok(w') && Custody(mint) in w.tokens
    ensures Custody(mint) in w'.tokens && Slack(w', mint) == Slack(w, mint)
    ensures Backed(w.tokens, w.flows, mint) ==> Backed(w'.tokens, w'.flows, mint)
  {
    ReceiveEffect(w, a, w', mint);
    OwedUpdate(w.flows, a.Flow(), w'.flows[a.Flow()], mint);
  }

  lemma {:induction false} ReceiveFlows(w: World, a: ReceiveArgs, w': World)
    requires Receive(w, a) == Ok(w')
    ensures w'.pairs == w.pairs && w'.slot == w.slot && ChangedOnly(w, w', a.Flow())
    ensures a.Flow() in w'.flows && FlowOk(w'.pairs, w'.slot, a.Flow(), w'.flows[a.Flow()])
  {
    assert ReceiveGuards(w, a).Ok?;
  }

  lemma {:induction false} ReceiveInv(w: World, a: ReceiveArgs, w': World)
    requires Inv(w) && Receive(w, a) == Ok(w')
    ensures Inv(w')
  {
    ReceiveFlows(w, a, w');
    forall p | p in w.pairs
      ensures PairBacked(w', p)
    {
      assert PairBacked(w, p);
      ReceiveKeepsSlack(w, a, w', p.base);
      ReceiveKeepsSlack(w, a, w', p.asset);
    }
    InvAfter(w, w', a.Flow());
  }

  // ---------------------------------------------------------------------- swap

  lemma {:induction false} SkimEffect(tokens: Tokens, asset: Key, vault: Key, fee: nat, k: Key)
    requires Skimmed(tokens, asset, vault, fee).Ok? && k in tokens && k != vault && vault != Custody(asset)
    ensures var t := Skimmed(tokens, asset, vault, fee).value;
            && k in t
            && (k != Custody(asset) ==> t[k] == tokens[k])
            && (k == Custody(asset) ==> fee <= tokens[k].amount && t[k] == tokens[k].(amount := tokens[k].amount - fee))
  {
  }

  /** Custody accounts as the router receives them. */
  lemma {:induction false} PreparedEffect(w: World, a: SwapArgs, k: Key)
    requires SwapEntry(w, a).Ok? && SwapPrepared(w, a).Ok? && ConfigOk(a.id.pair, w.pairs[a.id.pair])
    requires k in w.tokens && k != w.pairs[a.id.pair].feeVault
    ensures var t, gross := SwapPrepared(w, a).value.tokens, w.flows[a.id].amount;
            && k in t
            && (k == a.InKey() ==> t[k].amount + gross == w.tokens[k].amount + SwapPrepared(w, a).value.swapIn)
            && (k == a.OutKey() ==> t[k] == Revoked(w.tokens[k]))
            && (k != a.InKey() && k != a.OutKey() ==> t[k] == w.tokens[k])
  {
    var c := w.pairs[a.id.pair];
    var input := SwapInput(c, a.id.direction, w.flows[a.id].amount).value;
    SkimEffect(w.tokens, a.id.pair.asset, c.feeVault, input.fee, k);
  }

  lemma {:induction false} VaultIsNotCustody(w: World, a: SwapArgs)
    requires SwapEntry(w, a).Ok? && ConfigOk(a.id.pair, w.pairs[a.id.pair])
    ensures w.pairs[a.id.pair].feeVault != a.InKey() && w.pairs[a.id.pair].feeVault != a.OutKey()
    ensures a.InKey() != a.OutKey()
  {
  }

  /** The post-call checks pin the input custody exactly and give the flow all of the net output. */
  lemma {:induction false} SwapEffect(w: World, a: SwapArgs, w': World)
    requires Swap(w, a) == Ok(w') && SwapEntry(w, a).Ok? && ConfigOk(a.id.pair, w.pairs[a.id.pair])
    ensures a.InKey() in w'.tokens && a.OutKey() in w'.tokens && a.id in w'.flows
    ensures w'.tokens[a.InKey()].amount + w.flows[a.id].amount == w.tokens[a.InKey()].amount
    ensures w'.tokens[a.OutKey()].amount == w.tokens[a.OutKey()].amount + w'.flows[a.id].amount
    ensures Pristine(w'.tokens[a.InKey()]) && Pristine(w'.tokens[a.OutKey()])
  {
    var c, p := w.pairs[a.id.pair], SwapPrepared(w, a).value;
    var after := p.tokens + a.router.writes;
    VaultIsNotCustody(w, a);
    PreparedEffect(w, a, a.InKey());
    PreparedEffect(w, a, a.OutKey());
    var out := SwapChecked(p.tokens, after, a, p.swapIn, w.flows[a.id].minSwapOut).value;
    var output := SwapOutput(c, a.id.direction, out).value;
    SkimEffect(after, a.id.pair.asset, c.feeVault, output.fee, a.InKey());
    SkimEffect(after, a.id.pair.asset, c.feeVault, output.fee, a.OutKey());
  }

  /** The account filter keeps the fee vault out of the router's hands. */
  lemma {:induction false} VaultNotWritten(w: World, a: SwapArgs)
    requires SwapEntry(w, a).Ok? && RouterLegal(w, a)
    ensures w.pairs[a.id.pair].feeVault !in a.router.writes
  {
    var vault := w.pairs[a.id.pair].feeVault;
    assert vault in a.remaining ==> AccountAllowed(w, a.id, vault, vault);
  }

  /** The account filter keeps the router away from every other relayer-owned account. */
  lemma {:induction false} SwapFrame(w: World, a: SwapArgs, w': World, k: Key)
    requires Swap(w, a) == Ok(w') && SwapEntry(w, a).Ok? && RouterLegal(w, a)
    requires ConfigOk(a.id.pair, w.pairs[a.id.pair])
    requires k in w.tokens && w.tokens[k].owner == RelayerAuthority
    requires k != a.InKey() && k != a.OutKey() && k != w.pairs[a.id.pair].feeVault
    ensures k in w'.tokens && w'.tokens[k] == w.tokens[k]
  {
    var c, p := w.pairs[a.id.pair], SwapPrepared(w, a).value;
    assert k in a.remaining ==> AccountAllowed(w, a.id, c.feeVault, k);
    assert k !in a.router.writes;
    PreparedEffect(w, a, k);
    var after := p.tokens + a.router.writes;
    var out := SwapChecked(p.tokens, after, a, p.swapIn, w.flows[a.id].minSwapOut).value;
    var output := SwapOutput(c, a.id.direction, out).value;
    SkimEffect(after, a.id.pair.asset, c.feeVault, output.fee, k);
  }

  /** A router never rewrites which mint a custody account holds. */
  lemma {:induction false} SwapKeepsMints(w: World, a: SwapArgs, w': World, k: Key)
    requires Swap(w, a) == Ok(w') && SwapEntry(w, a).Ok? && RouterLegal(w, a)
    requires ConfigOk(a.id.pair, w.pairs[a.id.pair])
    requires k == a.InKey() || k == a.OutKey()
    ensures k in w'.tokens && k in w.tokens && w'.tokens[k].mint == w.tokens[k].mint
  {
    var c, p := w.pairs[a.id.pair], SwapPrepared(w, a).value;
    VaultIsNotCustody(w, a);
    PreparedMint(w, a, k);
    var after := p.tokens + a.router.writes;
    assert k in after && after[k].mint == w.tokens[k].mint;
    var out := SwapChecked(p.tokens, after, a, p.swapIn, w.flows[a.id].minSwapOut).value;
    var output := SwapOutput(c, a.id.direction, out).value;
    SkimEffect(after, a.id.pair.asset, c.feeVault, output.fee, k);
  }

  lemma {:induction false} PreparedMint(w: World, a: SwapArgs, k: Key)
    requires SwapEntry(w, a).Ok? && SwapPrepared(w, a).Ok?
    requires k == a.InKey() || k == a.OutKey()
    ensures k in SwapPrepared(w, a).value.tokens && SwapPrepared(w, a).value.tokens[k].mint == w.tokens[k].mint
  {
  }

  lemma {:induction false} SwapFlows(w: World, a: SwapArgs, w': World)
    requires Swap(w, a) == Ok(w')
    ensures SwapEntry(w, a).Ok?
    ensures w'.pairs == w.pairs && w'.slot == w.slot && ChangedOnly(w, w', a.id)
    ensures a.id in w'.flows && w'.flows == w.flows[a.id := w'.flows[a.id]]
    ensures w'.flows[a.id] == w.flows[a.id].(amount := w'.flows[a.id].amount, status := Swapped)
  {
  }

  lemma {:induction false} SwapOutputPositive(w: World, a: SwapArgs, w': World)
    requires Swap(w, a) == Ok(w') && SwapEntry(w, a).Ok? && w.flows[a.id].minSwapOut > 0
    ensures a.id in w'.flows && w'.flows[a.id].amount > 0
  {
  }

  /**
   * For any router that passes the checks, `swap` leaves the slack of every custody account exactly
   * as it was, and leaves no spendable allowance on the two accounts it used.
   */
  lemma {:induction false} SwapKeepsSlack(w: World, a: SwapArgs, w': World, mint: Key)
    requires Swap(w, a) == Ok(w') && RouterLegal(w, a) && PairsOk(w.pairs) && CustodyOk(w.tokens, mint)
    ensures CustodyOk(w'.tokens, mint) && Slack(w', mint) == Slack(w, mint)
    ensures Backed(w.tokens, w.flows, mint) ==> Backed(w'.tokens, w'.flows, mint)
  {
    SwapFlows(w, a, w');
    assert ConfigOk(a.id.pair, w.pairs[a.id.pair]);
    SwapCustody(w, a, w', mint);
    SlackMoves(w, w', a.id, mint);
  }

  /** A flow that changes by as much as custody does leaves the slack alone. */
  lemma {:induction false} SlackMoves(w: World, w': World, id: FlowId, mint: Key)
    requires CustodyOk(w.tokens, mint) && CustodyOk(w'.tokens, mint)
    requires id in w.flows && id in w'.flows && w'.flows == w.flows[id := w'.flows[id]]
    requires w'.tokens[Custody(mint)].amount + OwedBy(id, w.flows[id], mint) ==
             w.tokens[Custody(mint)].amount + OwedBy(id, w'.flows[id], mint)
    requires w'.tokens[Custody(mint)].closer.Some? ==> w.tokens[Custody(mint)].closer.Some?
    requires w'.tokens[Custody(mint)].allowance <= w.tokens[Custody(mint)].allowance
    ensures Slack(w', mint) == Slack(w, mint)
    ensures Backed(w.tokens, w.flows, mint) ==> Backed(w'.tokens, w'.flows, mint)
  {
    OwedUpdate(w.flows, id, w'.flows[id], mint);
  }

  /** The custody account of a mint gains what the flow newly owes there, less what it owed before. */
  lemma {:induction false} SwapCustody(w: World, a: SwapArgs, w': World, mint: Key)
    requires Swap(w, a) == Ok(w') && SwapEntry(w, a).Ok? && RouterLegal(w, a)
    requires ConfigOk(a.id.pair, w.pairs[a.id.pair]) && CustodyOk(w.tokens, mint) && a.id in w'.flows
    requires w.flows[a.id].status.Received? && w'.flows[a.id].status.Swapped?
    ensures CustodyOk(w'.tokens, mint)
    ensures w'.tokens[Custody(mint)].amount + OwedBy(a.id, w.flows[a.id], mint) ==
            w.tokens[Custody(mint)].amount + OwedBy(a.id, w'.flows[a.id], mint)
    ensures w'.tokens[Custody(mint)].closer.Some? ==> w.tokens[Custody(mint)].closer.Some?
    ensures w'.tokens[Custody(mint)].allowance <= w.tokens[Custody(mint)].allowance
  {
    VaultIsNotCustody(w, a);
    if Custody(mint) == a.InKey() || Custody(mint) == a.OutKey() {
      SwapEffect(w, a, w');
      SwapKeepsMints(w, a, w', Custody(mint));
    } else {
      SwapFrame(w, a, w', Custody(mint));
    }
  }

  lemma {:induction false} SwapInv(w: World, a: SwapArgs, w': World)
    requires Inv(w) && Swap(w, a) == Ok(w') && RouterLegal(w, a)
    ensures Inv(w')
  {
    SwapFlows(w, a, w');
    forall p | p in w.pairs
      ensures PairBacked(w', p)
    {
      assert PairBacked(w, p);
      SwapKeepsSlack(w, a, w', p.base);
      SwapKeepsSlack(w, a, w', p.asset);
    }
    assert FlowOk(w.pairs, w.slot, a.id, w.flows[a.id]);
    SwapOutputPositive(w, a, w');
    InvAfter(w, w', a.id);
  }

  // ------------------------------------------------------------ send and refund

  /** What closing a flow does, whichever instruction closed it. */
  predicate Closed(w: World, w': World, id: FlowId, debit: nat) {
    && id in w.flows
    && w'.flows == w.flows - {id} && w'.pairs == w.pairs && w'.slot == w.slot
    && var k, f := Custody(OwedMint(id, w.flows[id])), w.flows[id];
       && k in w.tokens && k in w'.tokens && debit <= f.amount && debit <= w.tokens[k].amount
       && w'.tokens == w.tokens[k := w'.tokens[k]]
       && w'.tokens[k].mint == w.tokens[k].mint && w'.tokens[k].owner == w.tokens[k].owner
       && w'.tokens[k].closer == w.tokens[k].closer
       && w'.tokens[k].amount == w.tokens[k].amount - debit
       && w'.tokens[k].allowance == f.amount - debit
  }

  lemma {:induction false} SendCloses(w: World, a: CloseArgs, w': World)
    requires Send(w, a) == Ok(w')
    ensures Closed(w, w', a.id, a.ntt.debit) && w.flows[a.id].status.Swapped?
  {
  }

  lemma {:induction false} RefundCloses(w: World, a: CloseArgs, w': World)
    requires Refund(w, a) == Ok(w')
    ensures Closed(w, w', a.id, a.ntt.debit) && w.flows[a.id].status.Received?
  {
  }

  /** Closing raises the slack by the bridge dust, which is exactly the allowance left standing. */
  lemma {:induction false} CloseKeepsSlack(w: World, w': World, id: FlowId, debit: nat, mint: Key)
    requires Closed(w, w', id, debit) && Custody(mint) in w.tokens
    ensures Custody(mint) in w'.tokens
    ensures Slack(w', mint) ==
            Slack(w, mint) + (if mint == OwedMint(id, w.flows[id]) then w.flows[id].amount - debit else 0)
    ensures Backed(w.tokens, w.flows, mint) ==> Backed(w'.tokens, w'.flows, mint)
  {
    OwedWithout(w.flows, id, mint);
  }

  lemma {:induction false} CloseInv(w: World, w': World, id: FlowId, debit: nat)
    requires Inv(w) && Closed(w, w', id, debit)
    ensures Inv(w')
  {
    forall p | p in w.pairs
      ensures PairBacked(w', p)
    {
      assert PairBacked(w, p);
      CloseKeepsSlack(w, w', id, debit, p.base);
      CloseKeepsSlack(w, w', id, debit, p.asset);
    }
    InvAfter(w, w', id);
  }

  // ----------------------------------------------------------------- governance

  lemma {:induction false} NothingOwed(flows: map<FlowId, Flow>, mint: Key)
    requires forall id :: id in flows ==> OwedMint(id, flows[id]) != mint
    ensures Owed(flows, mint) == 0
  {
    if flows != map[] {
      var id :| id in flows;
      OwedWithout(flows, id, mint);
      NothingOwed(flows - {id}, mint);
    }
  }

  /** Both custody accounts were created by this call, so no earlier pair uses either mint. */
  lemma {:induction false} InitializeFresh(w: World, a: InitializeArgs, w': World)
    requires Initialize(w, a) == Ok(w')
    ensures a.pair.base != a.pair.asset
    ensures Custody(a.pair.base) !in w.tokens && Custody(a.pair.asset) !in w.tokens
    ensures w'.flows == w.flows && w'.slot == w.slot
    ensures w'.tokens == w.tokens[Custody(a.pair.base) := FreshAta(RelayerAuthority, a.pair.base)]
                                 [Custody(a.pair.asset) := FreshAta(RelayerAuthority, a.pair.asset)]
    ensures a.pair in w'.pairs && w'.pairs == w.pairs[a.pair := w'.pairs[a.pair]]
    ensures ConfigOk(a.pair, w'.pairs[a.pair])
  {
  }

  lemma {:induction false} FreshMintIsUnused(w: World, mint: Key)
    requires Inv(w) && Custody(mint) !in w.tokens
    ensures forall p :: p in w.pairs ==> p.base != mint && p.asset != mint
    ensures Owed(w.flows, mint) == 0
  {
    forall p | p in w.pairs
      ensures p.base != mint && p.asset != mint
    {
      assert PairBacked(w, p);
    }
    UnusedMintOwesNothing(w, mint);
  }

  lemma {:induction false} UnusedMintOwesNothing(w: World, mint: Key)
    requires FlowsOk(w) && forall p :: p in w.pairs ==> p.base != mint && p.asset != mint
    ensures Owed(w.flows, mint) == 0
  {
    forall id | id in w.flows
      ensures OwedMint(id, w.flows[id]) != mint
    {
      assert FlowOk(w.pairs, w.slot, id, w.flows[id]);
    }
    NothingOwed(w.flows, mint);
  }

  lemma {:induction false} InitializeInv(w: World, a: InitializeArgs, w': World)
    requires Inv(w) && Initialize(w, a) == Ok(w')
    ensures Inv(w')
  {
    InitializeFresh(w, a, w');
    CreatedInv(w, a.pair, w');
  }

  lemma {:induction false} CreatedInv(w: World, pair: PairId, w': World)
    requires Inv(w) && w'.flows == w.flows && w'.slot == w.slot
    requires Custody(pair.base) !in w.tokens && Custody(pair.asset) !in w.tokens
    requires w'.tokens == w.tokens[Custody(pair.base) := FreshAta(RelayerAuthority, pair.base)]
                                  [Custody(pair.asset) := FreshAta(RelayerAuthority, pair.asset)]
    requires pair in w'.pairs && w'.pairs == w.pairs[pair := w'.pairs[pair]] && ConfigOk(pair, w'.pairs[pair])
    ensures Inv(w')
  {
    FreshMintIsUnused(w, pair.base);
    FreshMintIsUnused(w, pair.asset);
    CreatedBacked(w, pair, w');
    CreatedPairsOk(w.pairs, pair, w'.pairs);
    FlowsStayOk(w, w');
  }

  lemma {:induction false} FlowsStayOk(w: World, w': World)
    requires FlowsOk(w) && w'.flows == w.flows && w'.slot == w.slot && forall p :: p in w.pairs ==> p in w'.pairs
    ensures FlowsOk(w')
  {
    assert forall id :: id in w'.flows ==> FlowOk(w.pairs, w.slot, id, w.flows[id]);
  }

  lemma {:induction false} CreatedBacked(w: World, pair: PairId, w': World)
    requires AllBacked(w) && w'.flows == w.flows && pair.base != pair.asset
    requires Owed(w.flows, pair.base) == Owed(w.flows, pair.asset) == 0
    requires forall p :: p in w.pairs ==> Disjoint(p, pair)
    requires w'.tokens == w.tokens[Custody(pair.base) := FreshAta(RelayerAuthority, pair.base)]
                                  [Custody(pair.asset) := FreshAta(RelayerAuthority, pair.asset)]
    requires pair in w'.pairs && w'.pairs == w.pairs[pair := w'.pairs[pair]]
    ensures AllBacked(w')
  {
    forall p | p in w'.pairs
      ensures PairBacked(w', p)
    {
      if p != pair {
        assert PairBacked(w, p);
      }
    }
  }

  lemma {:induction false} CreatedPairsOk(pairs: map<PairId, PairConfig>, pair: PairId, pairs': map<PairId, PairConfig>)
    requires PairsOk(pairs) && pair in pairs' && pairs' == pairs[pair := pairs'[pair]] && ConfigOk(pair, pairs'[pair])
    requires forall p :: p in pairs ==> Disjoint(p, pair) && Disjoint(pair, p)
    ensures PairsOk(pairs')
  {
  }

  lemma {:induction false} ConfigureFacts(w: World, a: ConfigureArgs, w': World)
    requires Configure(w, a) == Ok(w')
    ensures a.pair in w.pairs && a.pair in w'.pairs && w' == w.(pairs := w.pairs[a.pair := w'.pairs[a.pair]])
    ensures ConfigOk(a.pair, w.pairs[a.pair]) ==> ConfigOk(a.pair, w'.pairs[a.pair])
    ensures var c, c' := w.pairs[a.pair], w'.pairs[a.pair];
            && c'.nttBase == c.nttBase && c'.nttAsset == c.nttAsset && c'.intents == c.intents
            && ConfigureFees(c.fees, a.deposit, a.withdraw, w.slot) == Ok(c'.fees)
  {
  }

  lemma {:induction false} AcceptFacts(w: World, signer: Key, pair: PairId, w': World)
    requires AcceptAuthority(w, signer, pair) == Ok(w')
    ensures pair in w.pairs && pair in w'.pairs && w' == w.(pairs := w.pairs[pair := w'.pairs[pair]])
    ensures w'.pairs[pair] == w.pairs[pair].(authority := signer, pendingAuthority := None)
  {
  }

  lemma {:induction false} ReconfiguredInv(w: World, pair: PairId, w': World)
    requires Inv(w) && pair in w.pairs && pair in w'.pairs
    requires w' == w.(pairs := w.pairs[pair := w'.pairs[pair]]) && ConfigOk(pair, w'.pairs[pair])
    ensures Inv(w')
  {
    ReconfiguredPairsOk(w.pairs, pair, w'.pairs);
    ReconfiguredBacked(w, w');
    FlowsStayOk(w, w');
  }

  lemma {:induction false} ReconfiguredPairsOk(pairs: map<PairId, PairConfig>, pair: PairId, pairs': map<PairId, PairConfig>)
    requires PairsOk(pairs) && pair in pairs && pair in pairs'
    requires pairs' == pairs[pair := pairs'[pair]] && ConfigOk(pair, pairs'[pair])
    ensures PairsOk(pairs') && forall p :: p in pairs' <==> p in pairs
  {
  }

  lemma {:induction false} ReconfiguredBacked(w: World, w': World)
    requires AllBacked(w) && w'.tokens == w.tokens && w'.flows == w.flows
    requires forall p :: p in w'.pairs <==> p in w.pairs
    ensures AllBacked(w')
  {
    forall p | p in w'.pairs
      ensures PairBacked(w', p)
    {
      assert PairBacked(w, p);
    }
  }

  // --------------------------------------------------------------- environment

  lemma {:induction false} TokensInv(w: World, w': World)
    requires Inv(w) && w'.pairs == w.pairs && w'.flows == w.flows && w'.slot == w.slot
    requires forall p :: p in w.pairs ==>
               && CustodyKept(w.tokens, w'.tokens, p.base) && CustodyKept(w.tokens, w'.tokens, p.asset)
    ensures Inv(w')
  {
    forall p | p in w.pairs
      ensures PairBacked(w', p)
    {
      assert PairBacked(w, p);
    }
  }

  predicate CustodyKept(before: Tokens, after: Tokens, mint: Key) {
    CustodyOk(before, mint) ==> CustodyOk(after, mint) && Unsigned(before[Custody(mint)], after[Custody(mint)])
  }

  lemma {:induction false} DeliverKeepsCustody(w: World, vtm: VtmAccount, item: Key, ata: Key, ntt: Inbound, mint: Key)
    requires NttDeliver(w, vtm, item, ata, ntt).Ok?
    ensures CustodyKept(w.tokens, NttDeliver(w, vtm, item, ata, ntt).value.tokens, mint)
  {
  }

  // ------------------------------------------------------------- main theorems

  lemma {:induction false} StepInv(w: World, s: Step)
    requires Inv(w) && Legal(w, s)
    ensures Inv(Exec(w, s))
  {
    var r := Apply(w, s);
    if r.Ok? {
      if IsFlowStep(s) {
        FlowStepInv(w, s, r.value);
      } else {
        OtherStepInv(w, s, r.value);
      }
    }
  }

  predicate IsFlowStep(s: Step) { s.DoReceive? || s.DoSwap? || s.DoSend? || s.DoRefund? }

  lemma {:induction false} FlowStepInv(w: World, s: Step, w': World)
    requires Inv(w) && Legal(w, s) && IsFlowStep(s) && Apply(w, s) == Ok(w')
    ensures Inv(w')
  {
    match s
    case DoReceive(a) => ReceiveInv(w, a, w');
    case DoSwap(a) => SwapInv(w, a, w');
    case DoSend(a) => SendInv(w, a, w');
    case DoRefund(a) => RefundInv(w, a, w');
  }

  lemma {:induction false} FlowStepKeepsPairs(w: World, s: Step, w': World)
    requires Apply(w, s) == Ok(w') && IsFlowStep(s)
    ensures w'.pairs == w.pairs && w'.slot == w.slot
  {
    if s.DoReceive? {
      ReceiveFlows(w, s.receive, w');
    } else if s.DoSwap? {
      SwapFlows(w, s.swap, w');
    } else if s.DoSend? {
      SendCloses(w, s.close, w');
    } else {
      RefundCloses(w, s.close, w');
    }
  }

  lemma {:induction false} OtherStepInv(w: World, s: Step, w': World)
    requires Inv(w) && Legal(w, s) && !IsFlowStep(s) && Apply(w, s) == Ok(w')
    ensures Inv(w')
  {
    match s
    case DoInitialize(a) => InitializeInv(w, a, w');
    case DoConfigure(a) => ConfigureInv(w, a, w');
    case DoAcceptAuthority(k, p) => AcceptInv(w, k, p, w');
    case _ => EnvironmentInv(w, s, w');
  }

  predicate IsEnvironment(s: Step) {
    s.Deliver? || s.External? || s.Tick? || s.PostMessage? || s.Forge?
  }

  lemma {:induction false} EnvironmentInv(w: World, s: Step, w': World)
    requires Inv(w) && Legal(w, s) && IsEnvironment(s) && Apply(w, s) == Ok(w')
    ensures Inv(w')
  {
    match s
    case Deliver(k, item, ata, ntt) => DeliverInv(w, k, item, ata, ntt, w');
    case External(t) => ExternalInv(w, t, w');
    case Tick(n) => TickInv(w, w');
    case PostMessage(k, v) => RecordsInv(w, w');
    case Forge(k, i) => RecordsInv(w, w');
  }

  lemma {:induction false} ExternalInv(w: World, t: Tokens, w': World)
    requires Inv(w) && Legal(w, External(t)) && w' == w.(tokens := t)
    ensures Inv(w')
  {
    TokensInv(w, w');
  }

  /** Bridge records play no part in the invariant. */
  lemma {:induction false} RecordsInv(w: World, w': World)
    requires Inv(w) && w' == w.(items := w'.items, vtms := w'.vtms)
    ensures Inv(w')
  {
    TokensInv(w, w');
  }

  lemma {:induction false} AcceptInv(w: World, signer: Key, pair: PairId, w': World)
    requires Inv(w) && AcceptAuthority(w, signer, pair) == Ok(w')
    ensures Inv(w')
  {
    AcceptFacts(w, signer, pair, w');
    ReconfiguredInv(w, pair, w');
  }

  lemma {:induction false} SendInv(w: World, a: CloseArgs, w': World)
    requires Inv(w) && Send(w, a) == Ok(w')
    ensures Inv(w')
  {
    SendCloses(w, a, w');
    CloseInv(w, w', a.id, a.ntt.debit);
  }

  lemma {:induction false} RefundInv(w: World, a: CloseArgs, w': World)
    requires Inv(w) && Refund(w, a) == Ok(w')
    ensures Inv(w')
  {
    RefundCloses(w, a, w');
    CloseInv(w, w', a.id, a.ntt.debit);
  }

  lemma {:induction false} ConfigureInv(w: World, a: ConfigureArgs, w': World)
    requires Inv(w) && Configure(w, a) == Ok(w')
    ensures Inv(w')
  {
    ConfigureFacts(w, a, w');
    ReconfiguredInv(w, a.pair, w');
  }

  lemma {:induction false} TickInv(w: World, w': World)
    requires Inv(w) && w'.slot >= w.slot && w' == w.(slot := w'.slot)
    ensures Inv(w')
  {
    forall p | p in w.pairs
      ensures PairBacked(w', p)
    {
      assert PairBacked(w, p);
    }
    assert forall id :: id in w'.flows ==> FlowOk(w.pairs, w.slot, id, w.flows[id]);
  }

  lemma {:induction false} DeliverInv(w: World, k: Key, item: Key, ata: Key, ntt: Inbound, w': World)
    requires Inv(w) && Apply(w, Deliver(k, item, ata, ntt)) == Ok(w')
    ensures Inv(w')
  {
    forall p | p in w.pairs
      ensures CustodyKept(w.tokens, w'.tokens, p.base) && CustodyKept(w.tokens, w'.tokens, p.asset)
    {
      DeliverKeepsCustody(w, w.vtms[k], item, ata, ntt, p.base);
      DeliverKeepsCustody(w, w.vtms[k], item, ata, ntt, p.asset);
    }
    TokensInv(w, w');
  }

  /**
   * In every state reachable by any interleaving of callers, flows and pairs, with any routers, any
   * bridge behaviour and any spending of left-over delegations, custody covers all open flows.
   */
  lemma {:induction false} AlwaysSolvent(w: World, steps: seq<Step>)
    requires Genesis(w) && LegalRun(w, steps)
    ensures Inv(Run(w, steps))
  {
    if steps != [] {
      AlwaysSolvent(w, steps[..|steps| - 1]);
      StepInv(Run(w, steps[..|steps| - 1]), steps[|steps| - 1]);
    }
  }
}
