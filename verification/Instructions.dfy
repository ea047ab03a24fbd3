/** The net effect of every relayer instruction and environment step, as functions on the world. */
module Instructions {
  import opened Prelude
  import opened Errors
  import opened Fees
  import opened Chain

  type Outcome = Result<World, RelayerError>

  // ---------------------------------------------------------------- initialize

  datatype InitializeArgs = InitializeArgs(signer: Key, pair: PairId, feeVault: Key, nttBase: Key, nttAsset: Key,
                                           intents: (Key, Key), deposit: u16, withdraw: u16)

  function FreshAta(owner: Key, mint: Key): TokenAccount { TokenAccount(mint, owner, 0, None, 0, None) }

  /** Anchor `init` on the relayer's token account for a mint: fails when the account exists. */
  function InitCustody(tokens: Tokens, mint: Key): Result<Tokens, RelayerError> {
    if Custody(mint) in tokens then Err(AccountConstraint)
    else Ok(tokens[Custody(mint) := FreshAta(RelayerAuthority, mint)])
  }

  predicate VaultOk(tokens: Tokens, vault: Key, assetMint: Key) {
    vault in tokens && tokens[vault].mint == assetMint
  }

  function Initialize(w: World, a: InitializeArgs): Outcome {
    var isAdmin := a.signer == w.admin;
    :- Need(isAdmin, UnauthorizedAdmin);
    :- Need(a.pair !in w.pairs, AccountConstraint);
    var t1 :- InitCustody(w.tokens, a.pair.base);
    var t2 :- InitCustody(t1, a.pair.asset);
    :- Need(VaultOk(t2, a.feeVault, a.pair.asset), AccountConstraint);
    :- Need(a.feeVault != Custody(a.pair.asset), FeeVaultAliasesUserAta);
    var fees := FeeState(a.deposit, a.withdraw, None);
    :- Need(Validate(fees).None?, FeeBpsTooHigh);
    Ok(w.(pairs := w.pairs[a.pair := PairConfig(a.signer, None, a.feeVault, a.nttBase, a.nttAsset, a.intents, fees)],
          tokens := t2))
  }

  // ----------------------------------------------------------------- configure

  datatype ConfigureArgs = ConfigureArgs(signer: Key, pair: PairId, deposit: Option<u16>, withdraw: Option<u16>,
                                         feeVault: Option<Key>, newAuthority: Option<Key>)

  predicate CustodyOk(tokens: Tokens, mint: Key) {
    && Custody(mint) in tokens
    && tokens[Custody(mint)].mint == mint
    && tokens[Custody(mint)].owner == RelayerAuthority
  }

  function Configure(w: World, a: ConfigureArgs): Outcome {
    var known := a.pair in w.pairs && CustodyOk(w.tokens, a.pair.asset);
    :- Need(known, AccountConstraint);
    var c := w.pairs[a.pair];
    :- Need(c.authority == a.signer, UnauthorizedAuthority);
    :- Need(a.feeVault.Some? ==> VaultOk(w.tokens, a.feeVault.value, a.pair.asset), AccountConstraint);
    var proposed :- ProposeFees(c.fees, a.deposit, a.withdraw, w.slot);
    :- Need(a.feeVault != Some(Custody(a.pair.asset)), FeeVaultAliasesUserAta);
    :- Need(a.newAuthority != Some(c.authority) || c.authority == ZERO_KEY, PendingAuthorityIsCurrent);
    var fees :- Validated(proposed);
    Ok(w.(pairs := w.pairs[a.pair := c.(
            fees := fees,
            feeVault := if a.feeVault.Some? then a.feeVault.value else c.feeVault,
            pendingAuthority := if a.newAuthority.None? then c.pendingAuthority
                                else if a.newAuthority.value == ZERO_KEY then None
                                else a.newAuthority)]))
  }

  function AcceptAuthority(w: World, signer: Key, pair: PairId): Outcome {
    var known := pair in w.pairs;
    :- Need(known, AccountConstraint);
    var c := w.pairs[pair];
    :- Need(c.pendingAuthority.Some?, NoPendingAuthority);
    :- Need(c.pendingAuthority.value == signer, PendingAuthorityMismatch);
    Ok(w.(pairs := w.pairs[pair := c.(authority := signer, pendingAuthority := None)]))
  }

  // ------------------------------------------------------------------- receive

  /** What the called NTT manager does on redeem and release of an inbound message. */
  datatype Inbound = Inbound(ok: bool, amount: u64, released: bool)

  datatype Delivery = Delivery(items: map<Key, ItemAccount>, tokens: Tokens)

  /**
   * NTT redeem: the item lives at the address derived from the message, and its amount and
   * recipient are fixed when it is created.
   */
  function NttRedeem(items: map<Key, ItemAccount>, vtm: VtmAccount, item: Key, ntt: Inbound)
    : Result<map<Key, ItemAccount>, RelayerError>
  {
    var derived := InboxItemPda(vtm.owner, vtm.fromChain, vtm.message);
    :- Need(ntt.ok && vtm.tagged && vtm.length >= VTM_TOTAL_LEN && item == derived, CpiFailed);
    :- Need(item in items ==> items[item].owner == vtm.owner && items[item].status.Pending?, CpiFailed);
    var amount: u64 := if item in items then items[item].amount else ntt.amount;
    Ok(items[item := ItemAccount(vtm.owner, amount, vtm.message.to, Pending)])
  }

  /** NTT release of a redeemed item: only the recipient's account is credited. */
  function NttRelease(items: map<Key, ItemAccount>, tokens: Tokens, item: Key, ata: Key, ntt: Inbound)
    : Result<Delivery, RelayerError>
    requires item in items
  {
    if !ntt.released then Ok(Delivery(items, tokens))
    else if ata in tokens && tokens[ata].owner == items[item].recipient then
      Ok(Delivery(items[item := items[item].(status := Released)],
                  tokens[ata := Credited(tokens[ata], items[item].amount)]))
    else Err(CpiFailed)
  }

  function NttDeliver(w: World, vtm: VtmAccount, item: Key, ata: Key, ntt: Inbound): Result<Delivery, RelayerError> {
    var items :- NttRedeem(w.items, vtm, item, ntt);
    NttRelease(items, w.tokens, item, ata, ntt)
  }

  datatype ReceiveArgs = ReceiveArgs(payer: Key, pair: PairId, direction: Direction, minSwapOut: u64,
                                     wallet: Key, inboxAuthority: Key, nttProgram: Key, recvMint: Key,
                                     vtm: Key, inboxItem: Key, remaining: seq<Key>, split: nat, ntt: Inbound) {
    function Flow(): FlowId { FlowId(direction, pair, inboxItem) }

    function Inbox(): Key { Ata(inboxAuthority, recvMint) }
  }

  predicate IsReleased(w: World, item: Key) { item in w.items && w.items[item].status.Released? }

  /** Account constraints and guards before any bridge call. */
  function ReceiveGuards(w: World, a: ReceiveArgs): Result<(), RelayerError> {
    var id := a.Flow();
    :- Need(a.pair in w.pairs && id !in w.flows && a.vtm in w.vtms, AccountConstraint);
    :- Need(CustodyOk(w.tokens, a.recvMint), AccountConstraint);
    :- Need(a.Inbox() in w.tokens && w.tokens[a.Inbox()].mint == a.recvMint, AccountConstraint);
    :- Need(w.tokens[a.Inbox()].owner == a.inboxAuthority, AccountConstraint);
    :- Need(a.minSwapOut > 0, ZeroMinSwapOut);
    :- Need(a.inboxAuthority == InboxAuthority(a.wallet, a.minSwapOut), UserInboxAuthorityMismatch);
    var c, vtm := w.pairs[a.pair], w.vtms[a.vtm];
    :- Need(a.nttProgram == ReceiveManager(c, a.direction) == vtm.owner, BadNttProgram);
    :- Need(a.recvMint == InMint(a.pair, a.direction), BadReceiveMint);
    :- Need(vtm.length >= VTM_SENDER_END && vtm.tagged, InvalidTransceiverMessage);
    :- Need(vtm.message.sender != ZERO_KEY, ZeroFogoSender);
    :- Need(vtm.message.sender in {Setter(c.intents.0), Setter(c.intents.1)}, UnexpectedFogoSender);
    Ok(())
  }

  /** Re-validation of an item that is already released, where no redeem call runs. */
  function SkipPathGuards(w: World, a: ReceiveArgs): Result<(), RelayerError>
    requires a.vtm in w.vtms && a.inboxItem in w.items
  {
    var vtm := w.vtms[a.vtm];
    :- Need(w.items[a.inboxItem].owner == a.nttProgram, InvalidInboxItem);
    :- Need(vtm.fromChain == FOGO_CHAIN_ID, WrongOriginChain);
    :- Need(vtm.length >= VTM_TOTAL_LEN, InvalidTransceiverMessage);
    :- Need(a.inboxItem == InboxItemPda(a.nttProgram, vtm.fromChain, vtm.message), InboxItemMismatch);
    Ok(())
  }

  /** The split of the forwarded accounts, and the slots NTT reads by position. */
  function PinnedAccounts(a: ReceiveArgs): Result<(), RelayerError> {
    var n := |a.remaining|;
    :- Need(0 < a.split < n, InvalidAccountSplit);
    var redeem, release := a.remaining[..a.split], a.remaining[a.split..];
    :- Need(|redeem| >= REDEEM_ACCOUNTS_MIN_LEN && |release| >= RELEASE_ACCOUNTS_MIN_LEN, InvalidAccountSplit);
    :- Need(redeem[REDEEM_IDX_TRANSCEIVER_MESSAGE] == a.vtm, TransceiverMessageMismatch);
    :- Need(redeem[REDEEM_IDX_INBOX_ITEM] == a.inboxItem, InboxItemMismatch);
    :- Need(redeem[REDEEM_IDX_PEER] == Peer(a.nttProgram, FOGO_CHAIN_ID), WrongOriginChain);
    :- Need(redeem[REDEEM_IDX_INBOX_RATE_LIMIT] == InboxRateLimit(a.nttProgram, FOGO_CHAIN_ID), WrongOriginChain);
    :- Need(release[RELEASE_IDX_INBOX_ITEM] == a.inboxItem, InboxItemMismatch);
    :- Need(release[RELEASE_IDX_RECIPIENT_ATA] == a.Inbox(), RecipientAtaMismatch);
    Ok(())
  }

  /** NTT itself insists on the peer of the chain the message came from. */
  predicate PeerFits(a: ReceiveArgs, vtm: VtmAccount) {
    |a.remaining| > REDEEM_IDX_PEER && a.remaining[REDEEM_IDX_PEER] == Peer(vtm.owner, vtm.fromChain)
  }

  /** Redeem, then release; either list must hold the relayer authority, which signs. */
  function BridgedIn(w: World, a: ReceiveArgs): Result<Delivery, RelayerError>
    requires a.vtm in w.vtms && a.split <= |a.remaining|
  {
    var vtm := w.vtms[a.vtm];
    :- Need(RelayerAuthority in a.remaining[..a.split], AuthorityNotInAccounts);
    :- Need(PeerFits(a, vtm), CpiFailed);
    var items :- NttRedeem(w.items, vtm, a.inboxItem, a.ntt);
    :- Need(RelayerAuthority in a.remaining[a.split..], AuthorityNotInAccounts);
    NttRelease(items, w.tokens, a.inboxItem, a.Inbox(), a.ntt)
  }

  /** The item and token accounts after the bridge calls, on either path. */
  function Delivered(w: World, a: ReceiveArgs): Result<Delivery, RelayerError>
    requires a.vtm in w.vtms
  {
    if IsReleased(w, a.inboxItem) then
      var _ :- SkipPathGuards(w, a);
      var _ :- PinnedAccounts(a);
      Ok(Delivery(w.items, w.tokens))
    else
      var _ :- PinnedAccounts(a);
      BridgedIn(w, a)
  }

  function OpenedFlow(w: World, a: ReceiveArgs, amount: u64): Flow {
    Flow(a.wallet, Received, amount, a.payer, a.minSwapOut, w.slot)
  }

  /** The sweep into custody and the new flow, once the item is in place. */
  function Opened(w: World, a: ReceiveArgs): Outcome {
    var item := a.inboxItem;
    :- Need(item in w.items, InvalidInboxItem);
    :- Need(w.items[item].recipient == a.inboxAuthority, UserInboxAuthorityMismatch);
    var amount := w.items[item].amount;
    :- Need(amount > 0, ZeroAmountFlow);
    :- Need(a.Inbox() in w.tokens && w.tokens[a.Inbox()].amount >= amount, InsufficientInboxBalance);
    :- Need(CanTransfer(w.tokens, a.Inbox(), Custody(a.recvMint), amount), CpiFailed);
    var flow := OpenedFlow(w, a, amount);
    Ok(w.(tokens := Transferred(w.tokens, a.Inbox(), Custody(a.recvMint), amount),
          flows := w.flows[a.Flow() := flow], log := w.log + [FlowReceived(a.Flow(), flow, w.slot)]))
  }

  function Receive(w: World, a: ReceiveArgs): Outcome {
    var _ :- ReceiveGuards(w, a);
    var d :- Delivered(w, a);
    Opened(w.(items := d.items, tokens := d.tokens), a)
  }

  // ---------------------------------------------------------------------- swap

  /** What the caller-chosen router leaves behind in the accounts it was handed. */
  datatype Router = Router(ok: bool, writes: Tokens, authority: SystemAccount)

  datatype SwapArgs = SwapArgs(id: FlowId, program: Key, delegate: Key, remaining: seq<Key>, router: Router) {
    function InKey(): Key { Custody(InMint(id.pair, id.direction)) }

    function OutKey(): Key { Custody(OutMint(id.pair, id.direction)) }
  }

  predicate AccountAllowed(w: World, id: FlowId, vault: Key, k: Key) {
    && k != vault && k != PairPda(id.pair) && k != FlowPda(id)
    && (k == Custody(id.pair.base) || k == Custody(id.pair.asset) ||
        (k in w.tokens ==> w.tokens[k].owner != RelayerAuthority))
  }

  function SwapEntry(w: World, a: SwapArgs): Result<(), RelayerError> {
    var pair := a.id.pair;
    :- Need(a.id in w.flows && pair in w.pairs, AccountConstraint);
    :- Need(CustodyOk(w.tokens, pair.base) && CustodyOk(w.tokens, pair.asset), AccountConstraint);
    var vault := w.pairs[pair].feeVault;
    :- Need(VaultOk(w.tokens, vault, pair.asset), AccountConstraint);
    :- Need(w.flows[a.id].status == Received, FlowStatusMismatch);
    :- Need(a.program != RelayerProgram, SwapAccountNotAllowed);
    :- Need(forall k :: k in a.remaining ==> AccountAllowed(w, a.id, vault, k), SwapAccountNotAllowed);
    :- Need(w.flows[a.id].amount > 0, ZeroAmountFlow);
    Ok(())
  }

  /** What the router may spend and what was taken as a fee before it. */
  function SwapInput(c: PairConfig, d: Direction, gross: u64): Result<Split, RelayerError> {
    if d.Deposit? then Ok(Split(gross, 0)) else ApplyFeeBps(gross, c.fees.withdraw)
  }

  /** What the flow is credited and what is taken as a fee after the router ran. */
  function SwapOutput(c: PairConfig, d: Direction, out: u64): Result<Split, RelayerError> {
    if d.Deposit? then ApplyFeeBps(out, c.fees.deposit) else Ok(Split(out, 0))
  }

  /** The asset-denominated fee transfer; a zero fee is not transferred at all. */
  function Skimmed(tokens: Tokens, asset: Key, vault: Key, fee: nat): Result<Tokens, RelayerError> {
    if fee == 0 then Ok(tokens)
    else if CanTransfer(tokens, Custody(asset), vault, fee) then Ok(Transferred(tokens, Custody(asset), vault, fee))
    else Err(CpiFailed)
  }

  /** Both custody accounts revoked, then the input account approved for exactly `amount`. */
  function Delegated(tokens: Tokens, a: SwapArgs, amount: nat): Tokens
    requires a.InKey() in tokens && a.OutKey() in tokens
  {
    var t := tokens[a.OutKey() := Revoked(tokens[a.OutKey()])];
    var cleared := Revoked(t[a.InKey()]);
    t[a.InKey() := if a.delegate == RelayerAuthority then cleared else Approved(cleared, a.delegate, amount)]
  }

  predicate Pristine(t: TokenAccount) {
    t.owner == RelayerAuthority && t.delegate.None? && t.allowance == 0 && t.closer.None?
  }

  predicate AuthorityIntact(before: SystemAccount, after: SystemAccount) {
    after.lamports >= before.lamports && after.owner == before.owner && after.dataIsEmpty
  }

  predicate WritesFit(writes: Tokens) { forall k :: k in writes ==> writes[k].amount <= U64_MAX }

  /** The checks after the router returns; the result is the output it delivered. */
  function SwapChecked(before: Tokens, after: Tokens, a: SwapArgs, swapIn: nat, floor: nat): Result<nat, RelayerError>
    requires a.InKey() in before && a.OutKey() in before && a.InKey() in after && a.OutKey() in after
  {
    var i0, o0, i1, o1 := before[a.InKey()].amount, before[a.OutKey()].amount,
                          after[a.InKey()].amount, after[a.OutKey()].amount;
    :- Need(i1 <= i0 && o0 <= o1, BalanceUnderflow);
    :- Need(i0 - i1 == swapIn, InputConsumedMismatch);
    :- Need(o1 - o0 >= floor, OutputBelowFloor);
    :- Need(Pristine(after[a.InKey()]) && Pristine(after[a.OutKey()]), AtaAuthorityTampered);
    Ok(o1 - o0)
  }

  /** Token accounts handed to the router, the amount it must spend, and the fee taken before it. */
  datatype Prepared = Prepared(tokens: Tokens, swapIn: nat, fee: nat)

  function SwapPrepared(w: World, a: SwapArgs): (r: Result<Prepared, RelayerError>)
    requires SwapEntry(w, a).Ok?
    ensures r.Ok? ==> a.InKey() in r.value.tokens && a.OutKey() in r.value.tokens
  {
    var c := w.pairs[a.id.pair];
    var input :- SwapInput(c, a.id.direction, w.flows[a.id].amount);
    var t :- Skimmed(w.tokens, a.id.pair.asset, c.feeVault, input.fee);
    :- Need(t[a.InKey()].amount >= input.net, ZeroAmountFlow);
    Ok(Prepared(Delegated(t, a, input.net), input.net, input.fee))
  }

  /** The fee on a deposit's output, then the flow's new amount and status. */
  function Settle(w: World, a: SwapArgs, out: u64, feeBefore: nat): Outcome
    requires a.id in w.flows && a.id.pair in w.pairs
  {
    var c := w.pairs[a.id.pair];
    var output :- SwapOutput(c, a.id.direction, out);
    var t :- Skimmed(w.tokens, a.id.pair.asset, c.feeVault, output.fee);
    var bps := if a.id.direction.Deposit? then c.fees.deposit else c.fees.withdraw;
    var fee := if a.id.direction.Deposit? then output.fee else feeBefore;
    Ok(w.(tokens := t, flows := w.flows[a.id := w.flows[a.id].(amount := output.net, status := Swapped)],
          log := w.log + [FlowSwapped(a.id, out, bps, fee, output.net)]))
  }

  function Swap(w: World, a: SwapArgs): Outcome {
    var _ :- SwapEntry(w, a);
    var flow := w.flows[a.id];
    var p :- SwapPrepared(w, a);
    :- Need(a.router.ok && WritesFit(a.router.writes), CpiFailed);
    var after := p.tokens + a.router.writes;
    :- Need(AuthorityIntact(w.authority, a.router.authority), RelayerAuthorityTampered);
    var out :- SwapChecked(p.tokens, after, a, p.swapIn, flow.minSwapOut);
    :- Need(out <= U64_MAX, CpiFailed);
    Settle(w.(tokens := after, authority := a.router.authority), a, out, p.fee)
  }

  // ------------------------------------------------------------ send and refund

  /** What the called NTT manager debits when asked to lock an amount. */
  datatype Outbound = Outbound(ok: bool, debit: nat)

  datatype CloseArgs = CloseArgs(id: FlowId, rentTo: Key, remaining: seq<Key>, split: nat, ntt: Outbound)

  function CloseEntry(w: World, a: CloseArgs): Result<(), RelayerError> {
    var pair := a.id.pair;
    :- Need(a.id in w.flows && pair in w.pairs, AccountConstraint);
    :- Need(CustodyOk(w.tokens, pair.base) && CustodyOk(w.tokens, pair.asset), AccountConstraint);
    :- Need(a.rentTo == w.flows[a.id].payer, AccountConstraint);
    Ok(())
  }

  /** Approve the session authority, then let NTT lock: SPL bounds the debit by allowance and balance. */
  function LockAndPublish(tokens: Tokens, mint: Key, session: Key, amount: nat, a: CloseArgs): Result<Tokens, RelayerError>
    requires Custody(mint) in tokens
  {
    var approved := Approved(tokens[Custody(mint)], session, amount);
    :- Need(session in a.remaining, MissingSessionAuthority);
    :- Need(|a.remaining| > a.split, InvalidAccountSplit);
    :- Need(RelayerAuthority in a.remaining[..a.split], AuthorityNotInAccounts);
    :- Need(a.ntt.ok && a.ntt.debit <= amount && a.ntt.debit <= approved.amount, CpiFailed);
    Ok(tokens[Custody(mint) := SpentByDelegate(approved, a.ntt.debit)])
  }

  function Send(w: World, a: CloseArgs): Outcome {
    var _ :- CloseEntry(w, a);
    var c, flow := w.pairs[a.id.pair], w.flows[a.id];
    :- Need(flow.status == Swapped, FlowStatusMismatch);
    :- Need(flow.amount > 0, ZeroAmountFlow);
    var mint := OutMint(a.id.pair, a.id.direction);
    var session := SessionAuthority(SendManager(c, a.id.direction), flow.amount, flow.recipient);
    var t :- LockAndPublish(w.tokens, mint, session, flow.amount, a);
    Ok(w.(tokens := t, flows := w.flows - {a.id},
          log := w.log + [FlowSent(a.id, flow.recipient, mint, flow.amount)]))
  }

  function Refund(w: World, a: CloseArgs): Outcome {
    var _ :- CloseEntry(w, a);
    var c, flow := w.pairs[a.id.pair], w.flows[a.id];
    :- Need(flow.status == Received, FlowStatusMismatch);
    :- Need(flow.receivedSlot + REFUND_TIMEOUT_SLOTS <= U64_MAX, ArithmeticOverflow);
    :- Need(w.slot >= flow.receivedSlot + REFUND_TIMEOUT_SLOTS, RefundTooEarly);
    :- Need(flow.amount > 0, ZeroAmountFlow);
    var mint := InMint(a.id.pair, a.id.direction);
    var session := SessionAuthority(ReceiveManager(c, a.id.direction), flow.amount, flow.recipient);
    var t :- LockAndPublish(w.tokens, mint, session, flow.amount, a);
    Ok(w.(tokens := t, flows := w.flows - {a.id},
          log := w.log + [FlowRefunded(a.id, flow.recipient, mint, flow.amount, w.slot)]))
  }

  // ----------------------------------------------------------------------- steps

  datatype Step =
    | DoInitialize(init: InitializeArgs)
    | DoConfigure(config: ConfigureArgs)
    | DoAcceptAuthority(signer: Key, pair: PairId)
    | DoReceive(receive: ReceiveArgs)
    | DoSwap(swap: SwapArgs)
    | DoSend(close: CloseArgs)
    | DoRefund(close: CloseArgs)
    | Tick(slots: nat)                                           // the clock advances
    | External(tokens: Tokens)                                   // transfers signed by others
    | PostMessage(at: Key, vtm: VtmAccount)                      // NTT records a verified message
    | Deliver(vtmAt: Key, item: Key, ata: Key, ntt: Inbound)     // someone else redeems and releases
    | Forge(at: Key, account: ItemAccount)                       // an account that looks like an inbox item

  function Apply(w: World, s: Step): Outcome {
    match s
    case DoInitialize(a) => Initialize(w, a)
    case DoConfigure(a) => Configure(w, a)
    case DoAcceptAuthority(k, p) => AcceptAuthority(w, k, p)
    case DoReceive(a) => Receive(w, a)
    case DoSwap(a) => Swap(w, a)
    case DoSend(a) => Send(w, a)
    case DoRefund(a) => Refund(w, a)
    case Tick(n) => if w.slot + n <= U64_MAX then Ok(w.(slot := w.slot + n)) else Err(ArithmeticOverflow)
    case External(t) => Ok(w.(tokens := t))
    case PostMessage(k, vtm) => Ok(w.(vtms := w.vtms[k := vtm]))
    case Deliver(k, item, ata, ntt) =>
      :- Need(k in w.vtms, AccountConstraint);
      var d :- NttDeliver(w, w.vtms[k], item, ata, ntt);
      Ok(w.(items := d.items, tokens := d.tokens))
    case Forge(k, account) => Ok(w.(items := w.items[k := account]))
  }

  /** A failed instruction is rolled back by the runtime. */
  function Exec(w: World, s: Step): World {
    var r := Apply(w, s);
    if r.Ok? then r.value else w
  }

  // --------------------------------------------------- what the runtime guarantees

  /** Nobody signs for the account's owner: it can be credited, or its standing delegate can spend. */
  predicate Unsigned(before: TokenAccount, after: TokenAccount) {
    && after.mint == before.mint && after.owner == before.owner && after.closer == before.closer
    && after.allowance <= before.allowance
    && (after.delegate == before.delegate || (after.delegate.None? && after.allowance == 0))
    && after.amount + before.allowance >= before.amount + after.allowance
  }

  /** A newly created account at an inbox address belongs to that inbox. */
  predicate CreatedOk(k: Key, t: TokenAccount) {
    IsInboxAta(k) ==> t.mint == k.mint && t.owner == k.owner && t.delegate.None? && t.allowance == 0
  }

  predicate RelayerControlled(t: TokenAccount) { t.owner == RelayerAuthority || t.owner.InboxAuthority? }

  predicate ExternalLegal(before: Tokens, after: Tokens) {
    && (forall k :: k in before && RelayerControlled(before[k]) ==> k in after && Unsigned(before[k], after[k]))
    && (forall k :: k in after && k !in before ==> CreatedOk(k, after[k]))
    && (forall k :: k in after && k in before ==> after[k].mint == before[k].mint)
  }

  /**
   * A router writes only accounts it was handed, mints are immutable, and no inbox authority signs.
   * The relayer authority does sign, so the pair's own custody accounts may change in any way.
   */
  predicate RouterLegal(w: World, a: SwapArgs) {
    forall k :: k in a.router.writes ==>
      && k in a.remaining
      && (k in w.tokens ==> a.router.writes[k].mint == w.tokens[k].mint)
      && (k in w.tokens && w.tokens[k].owner.InboxAuthority? ==> Unsigned(w.tokens[k], a.router.writes[k]))
      && (k !in w.tokens ==> CreatedOk(k, a.router.writes[k]))
  }

  predicate Legal(w: World, s: Step) {
    match s
    case DoSwap(a) => RouterLegal(w, a)
    case External(t) => ExternalLegal(w.tokens, t)
    case Forge(k, _) => !k.InboxItemPda?
    case _ => true
  }

  function Run(w: World, steps: seq<Step>): World {
    if steps == [] then w else Exec(Run(w, steps[..|steps| - 1]), steps[|steps| - 1])
  }

  predicate LegalRun(w: World, steps: seq<Step>) {
    steps == [] ||
    (LegalRun(w, steps[..|steps| - 1]) && Legal(Run(w, steps[..|steps| - 1]), steps[|steps| - 1]))
  }

  /** Before the first `initialize`: no pairs, no flows, any other accounts. */
  predicate Genesis(w: World) {
    && w.pairs == map[] && w.flows == map[] && w.log == [] && w.authority.dataIsEmpty
    && (forall k :: k in w.tokens ==> CreatedOk(k, w.tokens[k]))
    && (forall k :: k in w.items && k.InboxItemPda? ==>
          w.items[k].owner == k.manager && w.items[k].recipient == k.message.to)
  }
}
