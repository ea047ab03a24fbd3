/**
 * Exactly which calls of `receive` and `swap` succeed, written with a pair's own fields, literal
 * positions and plain balances, and what a successful `receive` records.
 */
module Admission {
  import opened Prelude
  import opened Fees
  import opened Chain
  import opened Instructions
  import opened Solvency
  import opened Progress
  import Inbox

  // --------------------------------------------------------------------- receive

  /** The mint a direction brings in, and the manager that releases it. */
  function ArrivingMint(p: PairId, d: Direction): Key { if d.Deposit? then p.base else p.asset }

  function ArrivingManager(c: PairConfig, d: Direction): Key { if d.Deposit? then c.nttBase else c.nttAsset }

  function InboxOf(a: ReceiveArgs): Key { InboxAta(a.wallet, a.minSwapOut, ArrivingMint(a.pair, a.direction)) }

  /** The caller names the right pair, mint, manager and inbox. */
  predicate NamesThePair(w: World, a: ReceiveArgs) {
    && a.pair in w.pairs && FlowId(a.direction, a.pair, a.inboxItem) !in w.flows
    && a.recvMint == ArrivingMint(a.pair, a.direction)
    && a.nttProgram == ArrivingManager(w.pairs[a.pair], a.direction)
    && a.minSwapOut > 0 && a.inboxAuthority == InboxAuthority(a.wallet, a.minSwapOut)
    && InboxOf(a) in w.tokens && w.tokens[InboxOf(a)].mint == a.recvMint && w.tokens[InboxOf(a)].owner == a.inboxAuthority
  }

  /** The message is the manager's, and came from either of the pair's intent programs. */
  predicate NamesAMessage(w: World, a: ReceiveArgs) {
    && a.pair in w.pairs && a.vtm in w.vtms
    && var c, vtm := w.pairs[a.pair], w.vtms[a.vtm];
       && vtm.owner == ArrivingManager(c, a.direction) && vtm.tagged && vtm.length >= 138
       && vtm.message.sender != Plain(0)
       && (vtm.message.sender == Setter(c.intents.0) || vtm.message.sender == Setter(c.intents.1))
  }

  lemma {:induction false} GuardsIff(w: World, a: ReceiveArgs)
    requires a.pair in w.pairs ==> CustodyOk(w.tokens, ArrivingMint(a.pair, a.direction))
    ensures ReceiveGuards(w, a).Ok? <==> NamesThePair(w, a) && NamesAMessage(w, a)
  {
  }

  /** The slots that NTT reads by position. */
  predicate SlotsFit(a: ReceiveArgs) {
    && 10 <= a.split && a.split + 8 <= |a.remaining|
    && a.remaining[2] == Peer(a.nttProgram, 51) && a.remaining[3] == a.vtm
    && a.remaining[6] == a.inboxItem && a.remaining[7] == InboxRateLimit(a.nttProgram, 51)
    && a.remaining[a.split + 2] == a.inboxItem && a.remaining[a.split + 3] == Ata(a.inboxAuthority, a.recvMint)
  }

  lemma {:induction false} SlotsIff(a: ReceiveArgs)
    ensures PinnedAccounts(a).Ok? <==> SlotsFit(a)
  {
  }

  /** What the message's inbox item holds, or will hold once the bridge has created it. */
  function DueAmount(w: World, a: ReceiveArgs): u64 {
    if a.inboxItem in w.items then w.items[a.inboxItem].amount else a.ntt.amount
  }

  /** A released item is paid from the inbox as it is; any other once the bridge has done its part. */
  predicate Payable(w: World, a: ReceiveArgs) {
    && DueAmount(w, a) > 0 && InboxOf(a) in w.tokens
    && var held := w.tokens[InboxOf(a)].amount;
       if IsReleased(w, a.inboxItem) then held >= DueAmount(w, a)
       else
         && a.ntt.ok && (a.ntt.released || held >= DueAmount(w, a)) && a.split <= |a.remaining|
         && RelayerAuthority in a.remaining[..a.split] && RelayerAuthority in a.remaining[a.split..]
  }

  /** The item is the one derived from the message, on Fogo, addressed to this wallet and floor. */
  predicate ItemFits(w: World, a: ReceiveArgs) {
    && a.vtm in w.vtms
    && var vtm := w.vtms[a.vtm];
       && vtm.length >= 213 && vtm.fromChain == 51 && vtm.message.to == InboxAuthority(a.wallet, a.minSwapOut)
       && a.inboxItem == InboxItemPda(a.nttProgram, 51, vtm.message)
  }

  lemma {:induction false} ReleasedIff(w: World, a: ReceiveArgs)
    requires NamesThePair(w, a) && NamesAMessage(w, a) && Inbox.ItemsOk(w) && IsReleased(w, a.inboxItem)
    ensures Delivered(w, a).Ok? <==>
              && SlotsFit(a) && w.vtms[a.vtm].length >= 213 && w.vtms[a.vtm].fromChain == 51
              && a.inboxItem == InboxItemPda(a.nttProgram, 51, w.vtms[a.vtm].message)
    ensures Delivered(w, a).Ok? ==> Delivered(w, a).value == Delivery(w.items, w.tokens)
  {
    SlotsIff(a);
  }

  lemma {:induction false} BridgedIff(w: World, a: ReceiveArgs)
    requires NamesThePair(w, a) && NamesAMessage(w, a) && Inbox.ItemsOk(w) && !IsReleased(w, a.inboxItem)
    ensures Delivered(w, a).Ok? <==>
              && SlotsFit(a) && w.vtms[a.vtm].length >= 213 && w.vtms[a.vtm].fromChain == 51
              && a.inboxItem == InboxItemPda(a.nttProgram, 51, w.vtms[a.vtm].message) && a.ntt.ok
              && RelayerAuthority in a.remaining[..a.split] && RelayerAuthority in a.remaining[a.split..]
              && (a.ntt.released ==> w.vtms[a.vtm].message.to == a.inboxAuthority)
    ensures Delivered(w, a).Ok? ==>
              var d := Delivered(w, a).value;
              && a.inboxItem in d.items && d.items[a.inboxItem].amount == DueAmount(w, a)
              && d.items[a.inboxItem].recipient == w.vtms[a.vtm].message.to
              && d.tokens == if a.ntt.released
                             then w.tokens[InboxOf(a) := Credited(w.tokens[InboxOf(a)], DueAmount(w, a))] else w.tokens
  {
    SlotsIff(a);
  }

  lemma {:induction false} OpenedIff(w: World, a: ReceiveArgs)
    requires a.inboxItem in w.items && a.Inbox() in w.tokens && CustodyOk(w.tokens, a.recvMint)
    requires w.tokens[a.Inbox()].mint == a.recvMint && a.inboxAuthority.InboxAuthority?
    ensures Opened(w, a).Ok? <==>
              && w.items[a.inboxItem].recipient == a.inboxAuthority && w.items[a.inboxItem].amount > 0
              && w.tokens[a.Inbox()].amount >= w.items[a.inboxItem].amount
    ensures Opened(w, a).Ok? ==>
              && a.Flow() in Opened(w, a).value.flows
              && Opened(w, a).value.flows[a.Flow()] ==
                 Flow(a.wallet, Received, w.items[a.inboxItem].amount, a.payer, a.minSwapOut, w.slot)
  {
  }

  /** Everything a call of `receive` needs. */
  predicate Receivable(w: World, a: ReceiveArgs) {
    NamesThePair(w, a) && NamesAMessage(w, a) && SlotsFit(a) && ItemFits(w, a) && Payable(w, a)
  }

  lemma {:induction false} GuardedReceiveIff(w: World, a: ReceiveArgs)
    requires NamesThePair(w, a) && NamesAMessage(w, a) && Inbox.ItemsOk(w) && ReceiveGuards(w, a).Ok?
    requires CustodyOk(w.tokens, a.recvMint)
    ensures Receive(w, a).Ok? <==> SlotsFit(a) && ItemFits(w, a) && Payable(w, a)
    ensures Receive(w, a).Ok? ==> RecordsFlow(w, a, Receive(w, a).value)
  {
    if IsReleased(w, a.inboxItem) {
      ReleasedIff(w, a);
    } else {
      BridgedIff(w, a);
    }
    if Delivered(w, a).Ok? {
      var d := Delivered(w, a).value;
      OpenedIff(w.(items := d.items, tokens := d.tokens), a);
    }
  }

  /** The flow names the wallet, the due amount, the payer of its rent, the floor and the slot. */
  predicate RecordsFlow(w: World, a: ReceiveArgs, w': World) {
    var id := FlowId(a.direction, a.pair, a.inboxItem);
    id in w'.flows && w'.flows[id] == Flow(a.wallet, Received, DueAmount(w, a), a.payer, a.minSwapOut, w.slot)
  }

  /**
   * On both paths and for both intent programs, `receive` succeeds exactly for the calls described
   * above, and then records the flow as described.
   */
  lemma {:induction false} ReceiveSucceedsIff(w: World, a: ReceiveArgs)
    requires Inv(w) && Inbox.ItemsOk(w)
    ensures Receive(w, a).Ok? <==> Receivable(w, a)
    ensures Receive(w, a).Ok? ==> RecordsFlow(w, a, Receive(w, a).value)
  {
    ArrivingCustody(w, a);
    GuardsIff(w, a);
    if ReceiveGuards(w, a).Ok? {
      GuardedReceiveIff(w, a);
    }
  }

  lemma {:induction false} ArrivingCustody(w: World, a: ReceiveArgs)
    requires Inv(w)
    ensures a.pair in w.pairs ==> CustodyOk(w.tokens, ArrivingMint(a.pair, a.direction))
  {
    if a.pair in w.pairs {
      assert PairBacked(w, a.pair);
    }
  }

  // --------------------------------------------------------------- a named call

  /** Accounts that anyone can name for a posted message; unread slots hold the system program. */
  function ReceiveAccounts(manager: Key, vtm: Key, item: Key, inbox: Key): seq<Key> {
    var none := Plain(0);
    [RelayerAuthority, none, Peer(manager, 51), vtm, none, none, item, InboxRateLimit(manager, 51), none, none,
     RelayerAuthority, none, item, inbox, none, none, none, none]
  }

  function ReceiveCall(w: World, payer: Key, pair: PairId, d: Direction, vtm: Key, wallet: Key, floor: u64, ntt: Inbound)
    : ReceiveArgs
    requires pair in w.pairs && vtm in w.vtms
  {
    var manager, mint := ArrivingManager(w.pairs[pair], d), ArrivingMint(pair, d);
    var item := InboxItemPda(manager, 51, w.vtms[vtm].message);
    ReceiveArgs(payer, pair, d, floor, wallet, InboxAuthority(wallet, floor), manager, mint, vtm, item,
                ReceiveAccounts(manager, vtm, item, InboxAta(wallet, floor, mint)), 10, ntt)
  }

  /** A posted message that is addressed to a wallet and floor of this pair, and is still to be received. */
  predicate Deliverable(w: World, pair: PairId, d: Direction, vtm: Key, wallet: Key, floor: u64) {
    && pair in w.pairs && vtm in w.vtms && floor > 0 && InboxAta(wallet, floor, ArrivingMint(pair, d)) in w.tokens
    && var c, v := w.pairs[pair], w.vtms[vtm];
       && v.owner == ArrivingManager(c, d) && v.tagged && v.length >= 213 && v.fromChain == 51
       && v.message.to == InboxAuthority(wallet, floor)
       && (v.message.sender == Setter(c.intents.0) || v.message.sender == Setter(c.intents.1))
       && FlowId(d, pair, InboxItemPda(v.owner, 51, v.message)) !in w.flows
  }

  lemma {:induction false} NamedCallFits(w: World, a: ReceiveArgs, manager: Key)
    requires a.remaining == ReceiveAccounts(manager, a.vtm, a.inboxItem, Ata(a.inboxAuthority, a.recvMint))
    requires a.split == 10 && a.nttProgram == manager
    ensures SlotsFit(a) && RelayerAuthority in a.remaining[..10] && RelayerAuthority in a.remaining[10..]
  {
    assert a.remaining[..10][0] == RelayerAuthority && a.remaining[10..][0] == RelayerAuthority;
  }

  /**
   * From every reachable state, a posted message with a working bridge is received by the named call,
   * whichever of the two intent programs sent it: the bridge pays its item's amount, or for an item
   * released earlier the inbox still holds it.
   */
  lemma {:induction false} EveryMessageCanBeReceived(w0: World, steps: seq<Step>, payer: Key, pair: PairId, d: Direction,
                                                     vtm: Key, wallet: Key, floor: u64, amount: u64)
    requires Genesis(w0) && LegalRun(w0, steps) && Deliverable(Run(w0, steps), pair, d, vtm, wallet, floor)
    ensures var w := Run(w0, steps);
            var a := ReceiveCall(w, payer, pair, d, vtm, wallet, floor, Inbound(true, amount, true));
            Receive(w, a).Ok? <==>
              && DueAmount(w, a) > 0
              && (IsReleased(w, a.inboxItem) ==> w.tokens[InboxOf(a)].amount >= DueAmount(w, a))
    ensures var w := Run(w0, steps);
            var a := ReceiveCall(w, payer, pair, d, vtm, wallet, floor, Inbound(true, amount, true));
            Receive(w, a).Ok? ==> RecordsFlow(w, a, Receive(w, a).value)
  {
    var w := Run(w0, steps);
    var a := ReceiveCall(w, payer, pair, d, vtm, wallet, floor, Inbound(true, amount, true));
    AlwaysSolvent(w0, steps);
    Inbox.EveryFlowIsAuthorised(w0, steps);
    Inbox.InboxConserved(w0, steps, InboxOf(a));
    ReceiveSucceedsIff(w, a);
    NamedCallFits(w, a, a.nttProgram);
    NamedCallNames(w, a, pair, d, vtm, wallet, floor);
  }

  lemma {:induction false} NamedCallNames(w: World, a: ReceiveArgs, pair: PairId, d: Direction, vtm: Key, wallet: Key, floor: u64)
    requires Deliverable(w, pair, d, vtm, wallet, floor) && Inbox.InboxesOk(w.tokens)
    requires a == ReceiveCall(w, a.payer, pair, d, vtm, wallet, floor, a.ntt)
    ensures NamesThePair(w, a) && NamesAMessage(w, a) && ItemFits(w, a)
  {
    assert Inbox.InboxesOk(w.tokens);
  }

  // ------------------------------------------------------------------------ swap

  /** The router gets neither vault, config nor flow, and of the relayer's own accounts only the pair's two. */
  predicate AccountsHarmless(w: World, id: FlowId, vault: Key, remaining: seq<Key>) {
    && vault !in remaining && PairPda(id.pair) !in remaining && FlowPda(id) !in remaining
    && forall k :: k in remaining && k in w.tokens && w.tokens[k].owner == RelayerAuthority ==>
         k == Custody(id.pair.base) || k == Custody(id.pair.asset)
  }

  lemma {:induction false} HarmlessIff(w: World, id: FlowId, vault: Key, remaining: seq<Key>)
    ensures (forall k :: k in remaining ==> AccountAllowed(w, id, vault, k)) <==> AccountsHarmless(w, id, vault, remaining)
  {
    if forall k :: k in remaining ==> AccountAllowed(w, id, vault, k) {
      assert vault in remaining ==> AccountAllowed(w, id, vault, vault);
      assert PairPda(id.pair) in remaining ==> AccountAllowed(w, id, vault, PairPda(id.pair));
      assert FlowPda(id) in remaining ==> AccountAllowed(w, id, vault, FlowPda(id));
    }
  }

  /** The flow waits for its swap, the vault is in place, and the router is handed nothing it must not touch. */
  predicate Swappable(w: World, a: SwapArgs) {
    && a.id in w.flows && w.flows[a.id].status.Received? && a.id.pair in w.pairs
    && var vault := w.pairs[a.id.pair].feeVault;
       && vault in w.tokens && w.tokens[vault].mint == a.id.pair.asset
       && a.program != RelayerProgram && AccountsHarmless(w, a.id, vault, a.remaining)
  }

  lemma {:induction false} EntryIff(w: World, a: SwapArgs)
    requires Inv(w)
    ensures SwapEntry(w, a).Ok? <==> Swappable(w, a)
  {
    if a.id in w.flows {
      CustodyCoversFlow(w, a.id);
      CoveredEntryIff(w, a);
    }
  }

  lemma {:induction false} CoveredEntryIff(w: World, a: SwapArgs)
    requires Covered(w, a.id) && w.pairs[a.id.pair].feeVault != Custody(a.id.pair.asset)
    ensures SwapEntry(w, a).Ok? <==> Swappable(w, a)
  {
    var vault := w.pairs[a.id.pair].feeVault;
    if VaultOk(w.tokens, vault, a.id.pair.asset) {
      HarmlessIff(w, a.id, vault, a.remaining);
    }
  }

  predicate Clean(t: TokenAccount) {
    t.owner == RelayerAuthority && t.delegate == None && t.allowance == 0 && t.closer == None
  }

  /** The accounts a swap spends from and receives into. */
  function SpentKey(id: FlowId): Key { Custody(if id.direction.Deposit? then id.pair.base else id.pair.asset) }

  function FilledKey(id: FlowId): Key { Custody(if id.direction.Deposit? then id.pair.asset else id.pair.base) }

  /**
   * The router's work: input custody falls by the flow's whole amount, fee included, output custody
   * rises by at least the signed floor, and both accounts and the signer come back clean.
   */
  predicate RouteDelivers(w: World, a: SwapArgs)
    requires Swappable(w, a) && SpentKey(a.id) in w.tokens && FilledKey(a.id) in w.tokens
  {
    var r, f := a.router, w.flows[a.id];
    && r.ok && (forall k :: k in r.writes ==> r.writes[k].amount <= U64_MAX)
    && r.authority.lamports >= w.authority.lamports && r.authority.owner == w.authority.owner && r.authority.dataIsEmpty
    && SpentKey(a.id) in r.writes && FilledKey(a.id) in r.writes
    && Clean(r.writes[SpentKey(a.id)]) && Clean(r.writes[FilledKey(a.id)])
    && r.writes[SpentKey(a.id)].amount + f.amount == w.tokens[SpentKey(a.id)].amount
    && r.writes[FilledKey(a.id)].amount >= w.tokens[FilledKey(a.id)].amount + f.minSwapOut
  }

  /** The later checks on prepared accounts come down to the router's work. */
  lemma {:induction false} CheckedIff(w: World, a: SwapArgs, p: Prepared)
    requires Funded(w, a) && SwapEntry(w, a).Ok? && Swappable(w, a) && SwapPrepared(w, a) == Ok(p) && ReadyForRouter(p, a)
    ensures a.InKey() == SpentKey(a.id) && a.OutKey() == FilledKey(a.id)
    ensures var r := a.router;
            (&& r.ok && WritesFit(r.writes) && AuthorityIntact(w.authority, r.authority)
             && SwapChecked(p.tokens, p.tokens + r.writes, a, p.swapIn, w.flows[a.id].minSwapOut).Ok?)
            <==> RouteDelivers(w, a)
  {
    PreparedEffect(w, a, a.InKey());
    PreparedEffect(w, a, a.OutKey());
  }

  lemma {:induction false} DeliveredSwapSettles(w: World, a: SwapArgs, p: Prepared)
    requires Funded(w, a) && SwapEntry(w, a).Ok? && Swappable(w, a) && SwapPrepared(w, a) == Ok(p) && ReadyForRouter(p, a)
    requires RouterLegal(w, a) && RouteDelivers(w, a) && a.InKey() == SpentKey(a.id) && a.OutKey() == FilledKey(a.id)
    requires SwapChecked(p.tokens, p.tokens + a.router.writes, a, p.swapIn, w.flows[a.id].minSwapOut).Ok?
    ensures Swap(w, a).Ok?
  {
    var after := p.tokens + a.router.writes;
    var out := SwapChecked(p.tokens, after, a, p.swapIn, w.flows[a.id].minSwapOut).value;
    PreparedRecords(w, a, p);
    VaultNotWritten(w, a);
    assert a.OutKey() in a.router.writes;
    RoutedAccounts(w, a, p, after);
    HonestSettles(w.(tokens := after, authority := a.router.authority), a, out, p.fee);
  }

  lemma {:induction false} RoutedAccounts(w: World, a: SwapArgs, p: Prepared, after: Tokens)
    requires Funded(w, a) && SwapEntry(w, a).Ok? && SwapPrepared(w, a) == Ok(p) && RouterLegal(w, a)
    requires after == p.tokens + a.router.writes && w.pairs[a.id.pair].feeVault !in a.router.writes
    requires CustodyOk(p.tokens, a.id.pair.asset) && VaultOk(p.tokens, w.pairs[a.id.pair].feeVault, a.id.pair.asset)
    requires var k := Custody(a.id.pair.asset); k in a.router.writes && a.router.writes[k].owner == RelayerAuthority
    ensures CustodyOk(after, a.id.pair.asset) && VaultOk(after, w.pairs[a.id.pair].feeVault, a.id.pair.asset)
  {
    EntryFacts(w, a);
    BothCustodies(w, a);
  }

  lemma {:induction false} BothCustodies(w: World, a: SwapArgs)
    requires SwapEntry(w, a).Ok?
    ensures CustodyOk(w.tokens, a.id.pair.base) && CustodyOk(w.tokens, a.id.pair.asset)
  {
  }

  /**
   * For any router the runtime allows, `swap` succeeds exactly when the flow waits for it, the
   * accounts are harmless, and the router delivers: no fee, residue or bookkeeping can stop it.
   */
  lemma {:induction false} SwapSucceedsIff(w: World, a: SwapArgs)
    requires Inv(w) && RouterLegal(w, a)
    ensures Swappable(w, a) ==> SpentKey(a.id) in w.tokens && FilledKey(a.id) in w.tokens
    ensures Swap(w, a).Ok? <==> Swappable(w, a) && RouteDelivers(w, a)
  {
    EntryIff(w, a);
    if Swappable(w, a) {
      EntryIsFunded(w, a);
      PrepareSucceeds(w, a);
      var p := SwapPrepared(w, a).value;
      CheckedIff(w, a, p);
      if RouteDelivers(w, a) {
        DeliveredSwapSettles(w, a, p);
      } else {
        UndeliveredFails(w, a, p);
      }
    } else {
      NoEntryFails(w, a);
    }
  }

  lemma {:induction false} NoEntryFails(w: World, a: SwapArgs)
    requires SwapEntry(w, a).Err?
    ensures Swap(w, a).Err?
  {
  }

  lemma {:induction false} UndeliveredFails(w: World, a: SwapArgs, p: Prepared)
    requires SwapEntry(w, a).Ok? && SwapPrepared(w, a) == Ok(p)
    requires !(&& a.router.ok && WritesFit(a.router.writes) && AuthorityIntact(w.authority, a.router.authority)
               && SwapChecked(p.tokens, p.tokens + a.router.writes, a, p.swapIn, w.flows[a.id].minSwapOut).Ok?)
    ensures Swap(w, a).Err?
  {
  }
}
