/**
 * The relayer program's handlers, updating account state in place in the order the program does.
 * A handler that fails leaves partial updates behind; `Execute` rolls them back as the runtime does.
 */
module Relayer {
  import opened Prelude
  import opened Errors
  import opened Fees
  import opened Chain
  import opened Instructions

  class Ledger {
    var slot: u64
    var admin: Key
    var authority: SystemAccount
    var pairs: map<PairId, PairConfig>
    var flows: map<FlowId, Flow>
    var tokens: Tokens
    var items: map<Key, ItemAccount>
    var vtms: map<Key, VtmAccount>
    var log: seq<Event>

    function View(): World
      reads this
    {
      World(slot, admin, authority, pairs, flows, tokens, items, vtms, log)
    }

    constructor (w: World)
      ensures View() == w
    {
      slot, admin, authority, pairs, flows := w.slot, w.admin, w.authority, w.pairs, w.flows;
      tokens, items, vtms, log := w.tokens, w.items, w.vtms, w.log;
    }

    method Restore(w: World)
      modifies this
      ensures View() == w
    {
      slot, admin, authority, pairs, flows := w.slot, w.admin, w.authority, w.pairs, w.flows;
      tokens, items, vtms, log := w.tokens, w.items, w.vtms, w.log;
    }

    // ------------------------------------------------------------------ governance

    method HandleInitialize(a: InitializeArgs) returns (r: Result<(), RelayerError>)
      modifies this
      ensures Initialize(old(View()), a) == if r.Ok? then Ok(View()) else Err(r.error)
    {
      var isAdmin := a.signer == admin;
      :- Need(isAdmin, UnauthorizedAdmin);
      :- Need(a.pair !in pairs, AccountConstraint);
      :- Need(Custody(a.pair.base) !in tokens, AccountConstraint);
      tokens := tokens[Custody(a.pair.base) := FreshAta(RelayerAuthority, a.pair.base)];
      :- Need(Custody(a.pair.asset) !in tokens, AccountConstraint);
      tokens := tokens[Custody(a.pair.asset) := FreshAta(RelayerAuthority, a.pair.asset)];
      :- Need(a.feeVault in tokens && tokens[a.feeVault].mint == a.pair.asset, AccountConstraint);
      :- Need(a.feeVault != Custody(a.pair.asset), FeeVaultAliasesUserAta);
      var config := PairConfig(a.signer, None, a.feeVault, a.nttBase, a.nttAsset, a.intents,
                               FeeState(a.deposit, a.withdraw, None));
      :- Need(config.fees.deposit <= MAX_FEE_BPS, FeeBpsTooHigh);
      :- Need(config.fees.withdraw <= MAX_FEE_BPS, FeeBpsTooHigh);
      pairs := pairs[a.pair := config];
      r := Ok(());
    }

    method HandleConfigure(a: ConfigureArgs) returns (r: Result<(), RelayerError>)
      modifies this
      ensures Configure(old(View()), a) == if r.Ok? then Ok(View()) else Err(r.error)
    {
      var known := a.pair in pairs && CustodyOk(tokens, a.pair.asset);
      :- Need(known, AccountConstraint);
      var c := pairs[a.pair];
      :- Need(c.authority == a.signer, UnauthorizedAuthority);
      :- Need(a.feeVault.Some? ==> VaultOk(tokens, a.feeVault.value, a.pair.asset), AccountConstraint);
      c := c.(fees := Promote(c.fees, slot));
      if a.deposit.Some? {
        var proposed :- Propose(c.fees, DepositLeg, a.deposit.value, slot);
        c := c.(fees := proposed);
      }
      if a.withdraw.Some? {
        var proposed :- Propose(c.fees, WithdrawLeg, a.withdraw.value, slot);
        c := c.(fees := proposed);
      }
      if a.feeVault.Some? {
        :- Need(a.feeVault.value != Custody(a.pair.asset), FeeVaultAliasesUserAta);
        c := c.(feeVault := a.feeVault.value);
      }
      if a.newAuthority.Some? {
        if a.newAuthority.value == ZERO_KEY {
          c := c.(pendingAuthority := None);
        } else {
          :- Need(a.newAuthority.value != c.authority, PendingAuthorityIsCurrent);
          c := c.(pendingAuthority := a.newAuthority);
        }
      }
      var _ :- Validated(c.fees);
      pairs := pairs[a.pair := c];
      r := Ok(());
    }

    method HandleAcceptAuthority(signer: Key, pair: PairId) returns (r: Result<(), RelayerError>)
      modifies this
      ensures AcceptAuthority(old(View()), signer, pair) == if r.Ok? then Ok(View()) else Err(r.error)
    {
      var known := pair in pairs;
      :- Need(known, AccountConstraint);
      :- Need(pairs[pair].pendingAuthority.Some?, NoPendingAuthority);
      var pending := pairs[pair].pendingAuthority.value;
      :- Need(pending == signer, PendingAuthorityMismatch);
      pairs := pairs[pair := pairs[pair].(authority := pending, pendingAuthority := None)];
      r := Ok(());
    }

    // --------------------------------------------------------------------- receive

    /** The NTT manager's redeem. */
    method CallNttRedeem(vtm: VtmAccount, item: Key, ntt: Inbound) returns (r: Result<(), RelayerError>)
      modifies `items
      ensures NttRedeem(old(items), vtm, item, ntt) == if r.Ok? then Ok(items) else Err(r.error)
      ensures r.Ok? ==> item in items
    {
      var derived := InboxItemPda(vtm.owner, vtm.fromChain, vtm.message);
      :- Need(ntt.ok && vtm.tagged && vtm.length >= VTM_TOTAL_LEN && item == derived, CpiFailed);
      if item !in items {
        items := items[item := ItemAccount(vtm.owner, ntt.amount, vtm.message.to, Pending)];
      } else {
        :- Need(items[item].owner == vtm.owner && items[item].status.Pending?, CpiFailed);
        items := items[item := ItemAccount(vtm.owner, items[item].amount, vtm.message.to, Pending)];
      }
      r := Ok(());
    }

    /** The NTT manager's release, into the account pinned by the handler. */
    method CallNttRelease(item: Key, ata: Key, ntt: Inbound) returns (r: Result<(), RelayerError>)
      requires item in items
      modifies `items, `tokens
      ensures NttRelease(old(items), old(tokens), item, ata, ntt) ==
              if r.Ok? then Ok(Delivery(items, tokens)) else Err(r.error)
    {
      if ntt.released {
        :- Need(ata in tokens && tokens[ata].owner == items[item].recipient, CpiFailed);
        tokens := tokens[ata := Credited(tokens[ata], items[item].amount)];
        items := items[item := items[item].(status := Released)];
      }
      r := Ok(());
    }

    /** Redeem and release by someone else, outside any relayer instruction. */
    method CallNttInbound(vtm: VtmAccount, item: Key, ata: Key, ntt: Inbound) returns (r: Result<(), RelayerError>)
      modifies `items, `tokens
      ensures NttDeliver(old(View()), vtm, item, ata, ntt) ==
              if r.Ok? then Ok(Delivery(items, tokens)) else Err(r.error)
    {
      var _ :- CallNttRedeem(vtm, item, ntt);
      r := CallNttRelease(item, ata, ntt);
    }

    /** Whether the authority is among the accounts of a call it must sign. */
    method AuthoritySeen(accounts: seq<Key>) returns (seen: bool)
      ensures seen <==> RelayerAuthority in accounts
    {
      seen := false;
      for i := 0 to |accounts|
        invariant seen <==> RelayerAuthority in accounts[..i]
      {
        seen := seen || accounts[i] == RelayerAuthority;
      }
      assert accounts[..|accounts|] == accounts;
    }

    method SplTransfer(from: Key, to: Key, amount: nat) returns (r: Result<(), RelayerError>)
      modifies `tokens
      ensures r.Ok? <==> CanTransfer(old(tokens), from, to, amount)
      ensures r.Ok? ==> tokens == Transferred(old(tokens), from, to, amount)
      ensures r.Err? ==> r.error == CpiFailed && tokens == old(tokens)
    {
      var allowed := CanTransfer(tokens, from, to, amount);
      :- Need(allowed, CpiFailed);
      tokens := tokens[from := tokens[from].(amount := tokens[from].amount - amount)];
      tokens := tokens[to := tokens[to].(amount := tokens[to].amount + amount)];
      r := Ok(());
    }

    /** Redeem and release of the handler's own message. */
    method BridgeIn(a: ReceiveArgs) returns (r: Result<(), RelayerError>)
      requires a.vtm in vtms && a.split <= |a.remaining|
      modifies `items, `tokens
      ensures BridgedIn(old(View()), a) == if r.Ok? then Ok(Delivery(items, tokens)) else Err(r.error)
    {
      var vtm := vtms[a.vtm];
      var signs := AuthoritySeen(a.remaining[..a.split]);
      :- Need(signs, AuthorityNotInAccounts);
      :- Need(PeerFits(a, vtm), CpiFailed);
      var _ :- CallNttRedeem(vtm, a.inboxItem, a.ntt);
      signs := AuthoritySeen(a.remaining[a.split..]);
      :- Need(signs, AuthorityNotInAccounts);
      r := CallNttRelease(a.inboxItem, a.Inbox(), a.ntt);
    }

    /** An item that is already released is re-validated; any other is redeemed and released now. */
    method DeliverInbound(a: ReceiveArgs) returns (r: Result<(), RelayerError>)
      requires a.vtm in vtms
      modifies `items, `tokens
      ensures Delivered(old(View()), a) == if r.Ok? then Ok(Delivery(items, tokens)) else Err(r.error)
    {
      var vtm := vtms[a.vtm];
      var released := a.inboxItem in items && items[a.inboxItem].status.Released?;
      if released {
        :- Need(items[a.inboxItem].owner == a.nttProgram, InvalidInboxItem);
        :- Need(vtm.fromChain == FOGO_CHAIN_ID, WrongOriginChain);
        :- Need(vtm.length >= VTM_TOTAL_LEN, InvalidTransceiverMessage);
        :- Need(a.inboxItem == InboxItemPda(a.nttProgram, vtm.fromChain, vtm.message), InboxItemMismatch);
      }
      var _ :- PinnedAccounts(a);
      if !released {
        var _ :- BridgeIn(a);
      }
      r := Ok(());
    }

    method OpenFlow(a: ReceiveArgs) returns (r: Result<(), RelayerError>)
      modifies `tokens, `flows, `log
      ensures Opened(old(View()), a) == if r.Ok? then Ok(View()) else Err(r.error)
    {
      var item := a.inboxItem;
      :- Need(item in items, InvalidInboxItem);
      :- Need(items[item].recipient == a.inboxAuthority, UserInboxAuthorityMismatch);
      var amount := items[item].amount;
      :- Need(amount > 0, ZeroAmountFlow);
      :- Need(a.Inbox() in tokens && tokens[a.Inbox()].amount >= amount, InsufficientInboxBalance);
      var _ :- SplTransfer(a.Inbox(), Custody(a.recvMint), amount);
      flows := flows[a.Flow() := Flow(a.wallet, Received, amount, a.payer, a.minSwapOut, slot)];
      log := log + [FlowReceived(a.Flow(), flows[a.Flow()], slot)];
      r := Ok(());
    }

    method HandleReceive(a: ReceiveArgs) returns (r: Result<(), RelayerError>)
      modifies this
      ensures Receive(old(View()), a) == if r.Ok? then Ok(View()) else Err(r.error)
    {
      var _ :- ReceiveGuards(View(), a);
      var _ :- DeliverInbound(a);
      r := OpenFlow(a);
    }

    // ------------------------------------------------------------------------ swap

    /** The filter over the accounts forwarded to the router. */
    method AccountsAllowed(id: FlowId, vault: Key, remaining: seq<Key>) returns (ok: bool)
      ensures ok <==> forall k :: k in remaining ==> AccountAllowed(View(), id, vault, k)
    {
      var forbidden := [vault, PairPda(id.pair), FlowPda(id)];
      for i := 0 to |remaining|
        invariant forall j :: 0 <= j < i ==> AccountAllowed(View(), id, vault, remaining[j])
      {
        var k := remaining[i];
        if k in forbidden {
          assert !AccountAllowed(View(), id, vault, k);
          return false;
        }
        if k == Custody(id.pair.base) || k == Custody(id.pair.asset) {
          continue;
        }
        if k in tokens && tokens[k].owner == RelayerAuthority {
          assert !AccountAllowed(View(), id, vault, k);
          return false;
        }
      }
      ok := true;
    }

    method SkimFee(asset: Key, vault: Key, fee: nat) returns (r: Result<(), RelayerError>)
      modifies `tokens
      ensures Skimmed(old(tokens), asset, vault, fee) == if r.Ok? then Ok(tokens) else Err(r.error)
    {
      if fee == 0 {
        return Ok(());
      }
      r := SplTransfer(Custody(asset), vault, fee);
    }

    /** Fee taken from the input, stale delegations revoked, and the router's budget approved. */
    method PrepareSwap(a: SwapArgs) returns (r: Result<Split, RelayerError>)
      requires SwapEntry(View(), a).Ok?
      modifies `tokens
      ensures SwapPrepared(old(View()), a) ==
              if r.Ok? then Ok(Prepared(tokens, r.value.net, r.value.fee)) else Err(r.error)
    {
      var c, gross := pairs[a.id.pair], flows[a.id].amount;
      var swapIn, feeBefore := gross, 0;
      if a.id.direction.Withdraw? {
        var split :- ApplyFeeBps(gross, c.fees.withdraw);
        var _ :- SkimFee(a.id.pair.asset, c.feeVault, split.fee);
        swapIn, feeBefore := split.net, split.fee;
      }
      ghost var skimmed := tokens;
      :- Need(tokens[a.InKey()].amount >= swapIn, ZeroAmountFlow);
      tokens := tokens[a.OutKey() := Revoked(tokens[a.OutKey()])];
      tokens := tokens[a.InKey() := Revoked(tokens[a.InKey()])];
      if a.delegate != RelayerAuthority {
        tokens := tokens[a.InKey() := Approved(tokens[a.InKey()], a.delegate, swapIn)];
      }
      assert tokens == Delegated(skimmed, a, swapIn);
      r := Ok(Split(swapIn, feeBefore));
    }

    method HandleSwap(a: SwapArgs) returns (r: Result<(), RelayerError>)
      modifies this
      ensures Swap(old(View()), a) == if r.Ok? then Ok(View()) else Err(r.error)
    {
      var _ :- EnterSwap(a);
      var floor := flows[a.id].minSwapOut;
      var input :- PrepareSwap(a);
      ghost var p := Prepared(tokens, input.net, input.fee);
      var inBefore, outBefore := tokens[a.InKey()].amount, tokens[a.OutKey()].amount;
      :- Need(a.router.ok && WritesFit(a.router.writes), CpiFailed);
      tokens := tokens + a.router.writes;
      var snapshot := authority;
      authority := a.router.authority;
      :- Need(AuthorityIntact(snapshot, authority), RelayerAuthorityTampered);
      var out :- CheckSwap(a, p.tokens, inBefore, outBefore, input.net, floor);
      :- Need(out <= U64_MAX, CpiFailed);
      r := SettleSwap(a, out, input.fee);
    }

    method EnterSwap(a: SwapArgs) returns (r: Result<(), RelayerError>)
      ensures r == SwapEntry(View(), a)
    {
      var pair := a.id.pair;
      :- Need(a.id in flows && pair in pairs, AccountConstraint);
      :- Need(CustodyOk(tokens, pair.base) && CustodyOk(tokens, pair.asset), AccountConstraint);
      var vault := pairs[pair].feeVault;
      :- Need(VaultOk(tokens, vault, pair.asset), AccountConstraint);
      :- Need(flows[a.id].status == Received, FlowStatusMismatch);
      :- Need(a.program != RelayerProgram, SwapAccountNotAllowed);
      var allowed := AccountsAllowed(a.id, vault, a.remaining);
      :- Need(allowed, SwapAccountNotAllowed);
      :- Need(flows[a.id].amount > 0, ZeroAmountFlow);
      r := Ok(());
    }

    /** The balance-delta and tamper checks after the router returned. */
    method CheckSwap(a: SwapArgs, ghost before: Tokens, inBefore: nat, outBefore: nat, swapIn: nat, floor: nat)
      returns (r: Result<nat, RelayerError>)
      requires a.InKey() in before && a.OutKey() in before && a.InKey() in tokens && a.OutKey() in tokens
      requires inBefore == before[a.InKey()].amount && outBefore == before[a.OutKey()].amount
      ensures r == SwapChecked(before, tokens, a, swapIn, floor)
    {
      var inAfter, outAfter := tokens[a.InKey()].amount, tokens[a.OutKey()].amount;
      :- Need(inAfter <= inBefore, BalanceUnderflow);
      var consumed := inBefore - inAfter;
      :- Need(outBefore <= outAfter, BalanceUnderflow);
      var received := outAfter - outBefore;
      :- Need(consumed == swapIn, InputConsumedMismatch);
      :- Need(received >= floor, OutputBelowFloor);
      :- Need(Pristine(tokens[Custody(a.id.pair.base)]), AtaAuthorityTampered);
      :- Need(Pristine(tokens[Custody(a.id.pair.asset)]), AtaAuthorityTampered);
      r := Ok(received);
    }

    /** Fee taken from a deposit's output, then the flow's new amount and status. */
    method SettleSwap(a: SwapArgs, out: u64, feeBefore: nat) returns (r: Result<(), RelayerError>)
      requires a.id in flows && a.id.pair in pairs
      modifies `tokens, `flows, `log
      ensures Settle(old(View()), a, out, feeBefore) == if r.Ok? then Ok(View()) else Err(r.error)
    {
      var c, net, fee := pairs[a.id.pair], out, feeBefore;
      if a.id.direction.Deposit? {
        var split :- ApplyFeeBps(out, c.fees.deposit);
        var _ :- SkimFee(a.id.pair.asset, c.feeVault, split.fee);
        net, fee := split.net, split.fee;
      }
      flows := flows[a.id := flows[a.id].(amount := net)];
      flows := flows[a.id := flows[a.id].(status := Swapped)];
      assert flows == old(flows)[a.id := flows[a.id]];
      var bps := if a.id.direction.Deposit? then c.fees.deposit else c.fees.withdraw;
      log := log + [FlowSwapped(a.id, out, bps, fee, net)];
      r := Ok(());
    }

    // -------------------------------------------------------------- send and refund

    method EnterClose(a: CloseArgs) returns (r: Result<(), RelayerError>)
      ensures r == CloseEntry(View(), a)
    {
      var pair := a.id.pair;
      :- Need(a.id in flows && pair in pairs, AccountConstraint);
      :- Need(CustodyOk(tokens, pair.base) && CustodyOk(tokens, pair.asset), AccountConstraint);
      :- Need(a.rentTo == flows[a.id].payer, AccountConstraint);
      r := Ok(());
    }

    /** Approve the session authority for `amount`, then let the manager lock as that delegate. */
    method ApproveAndLock(mint: Key, session: Key, amount: nat, a: CloseArgs) returns (r: Result<(), RelayerError>)
      requires Custody(mint) in tokens
      modifies `tokens
      ensures LockAndPublish(old(tokens), mint, session, amount, a) == if r.Ok? then Ok(tokens) else Err(r.error)
    {
      var ata := Custody(mint);
      :- Need(session in a.remaining, MissingSessionAuthority);
      tokens := tokens[ata := Approved(tokens[ata], session, amount)];
      :- Need(|a.remaining| > a.split, InvalidAccountSplit);
      var seen := AuthoritySeen(a.remaining[..a.split]);
      :- Need(seen, AuthorityNotInAccounts);
      :- Need(a.ntt.ok && a.ntt.debit <= tokens[ata].allowance && a.ntt.debit <= tokens[ata].amount, CpiFailed);
      tokens := tokens[ata := SpentByDelegate(tokens[ata], a.ntt.debit)];
      assert tokens == old(tokens)[ata := tokens[ata]];
      r := Ok(());
    }

    method HandleSend(a: CloseArgs) returns (r: Result<(), RelayerError>)
      modifies this
      ensures Send(old(View()), a) == if r.Ok? then Ok(View()) else Err(r.error)
    {
      var _ :- EnterClose(a);
      var flow := flows[a.id];
      :- Need(flow.status == Swapped, FlowStatusMismatch);
      :- Need(flow.amount > 0, ZeroAmountFlow);
      var mint := OutMint(a.id.pair, a.id.direction);
      var manager := SendManager(pairs[a.id.pair], a.id.direction);
      var _ :- ApproveAndLock(mint, SessionAuthority(manager, flow.amount, flow.recipient), flow.amount, a);
      log := log + [FlowSent(a.id, flow.recipient, mint, flow.amount)];
      flows := flows - {a.id};
      r := Ok(());
    }

    method HandleRefund(a: CloseArgs) returns (r: Result<(), RelayerError>)
      modifies this
      ensures Refund(old(View()), a) == if r.Ok? then Ok(View()) else Err(r.error)
    {
      var _ :- EnterClose(a);
      var flow := flows[a.id];
      :- Need(flow.status == Received, FlowStatusMismatch);
      :- Need(flow.receivedSlot + REFUND_TIMEOUT_SLOTS <= U64_MAX, ArithmeticOverflow);
      :- Need(slot >= flow.receivedSlot + REFUND_TIMEOUT_SLOTS, RefundTooEarly);
      :- Need(flow.amount > 0, ZeroAmountFlow);
      var mint := InMint(a.id.pair, a.id.direction);
      var manager := ReceiveManager(pairs[a.id.pair], a.id.direction);
      var _ :- ApproveAndLock(mint, SessionAuthority(manager, flow.amount, flow.recipient), flow.amount, a);
      log := log + [FlowRefunded(a.id, flow.recipient, mint, flow.amount, slot)];
      flows := flows - {a.id};
      r := Ok(());
    }

    // ------------------------------------------------------------------- transactions

    method Dispatch(s: Step) returns (r: Result<(), RelayerError>)
      modifies this
      ensures Apply(old(View()), s) == if r.Ok? then Ok(View()) else Err(r.error)
    {
      match s
      case DoInitialize(a) => r := HandleInitialize(a);
      case DoConfigure(a) => r := HandleConfigure(a);
      case DoAcceptAuthority(k, p) => r := HandleAcceptAuthority(k, p);
      case DoReceive(a) => r := HandleReceive(a);
      case DoSwap(a) => r := HandleSwap(a);
      case DoSend(a) => r := HandleSend(a);
      case DoRefund(a) => r := HandleRefund(a);
      case Tick(n) =>
        :- Need(slot + n <= U64_MAX, ArithmeticOverflow);
        slot := slot + n;
        r := Ok(());
      case External(t) =>
        tokens := t;
        r := Ok(());
      case PostMessage(k, vtm) =>
        vtms := vtms[k := vtm];
        r := Ok(());
      case Deliver(k, item, ata, ntt) =>
        :- Need(k in vtms, AccountConstraint);
        r := CallNttInbound(vtms[k], item, ata, ntt);
      case Forge(k, account) =>
        items := items[k := account];
        r := Ok(());
    }

    /** One transaction: a failed step leaves no trace. */
    method Execute(s: Step) returns (r: Result<(), RelayerError>)
      modifies this
      ensures View() == Exec(old(View()), s)
      ensures r.Ok? <==> Apply(old(View()), s).Ok?
    {
      var before := View();
      r := Dispatch(s);
      if r.Err? {
        Restore(before);
      }
    }
  }
}
