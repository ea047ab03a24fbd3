/** Where flows come from: each is bound to one signed message, and value never crosses users. */
module Inbox {
  import opened Prelude
  import opened Chain
  import opened Instructions
  import Solvency

  // --------------------------------------------------------------- authorisation

  /** Accounts at inbox-item addresses are the manager's, and name the message's recipient. */
  predicate ItemsOk(w: World) {
    forall k :: k in w.items && k.InboxItemPda? ==>
      w.items[k].owner == k.manager && w.items[k].recipient == k.message.to
  }

  /** The flow's address fixes its recipient and floor: they are what the message was sent to. */
  predicate Authorised(pairs: map<PairId, PairConfig>, id: FlowId, f: Flow) {
    && id.pair in pairs && id.inboxItem.InboxItemPda?
    && id.inboxItem.manager == (if id.direction.Deposit? then pairs[id.pair].nttBase else pairs[id.pair].nttAsset)
    && id.inboxItem.fromChain == FOGO_CHAIN_ID
    && id.inboxItem.message.sender in {Setter(pairs[id.pair].intents.0), Setter(pairs[id.pair].intents.1)}
    && id.inboxItem.message.to == InboxAuthority(f.recipient, f.minSwapOut)
  }

  predicate AllAuthorised(w: World) {
    forall i :: 0 <= i < |w.log| && w.log[i].FlowReceived? ==> Authorised(w.pairs, w.log[i].id, w.log[i].flow)
  }

  /** A received flow holds exactly the amount its inbox item records. */
  predicate AmountsBound(w: World) {
    forall id :: id in w.flows && w.flows[id].status.Received? ==>
      && id.inboxItem.InboxItemPda? && id.inboxItem in w.items
      && w.items[id.inboxItem].amount == w.flows[id].amount
  }

  predicate Bound(w: World) { ItemsOk(w) && AllAuthorised(w) && AmountsBound(w) }

  /** The skip path and the bridge path end with the same item at the message's own address. */
  lemma {:induction false} DeliveredItem(w: World, a: ReceiveArgs)
    requires a.vtm in w.vtms && Delivered(w, a).Ok? && ItemsOk(w) && w.vtms[a.vtm].owner == a.nttProgram
    ensures var d, vtm := Delivered(w, a).value, w.vtms[a.vtm];
            && a.inboxItem == InboxItemPda(a.nttProgram, FOGO_CHAIN_ID, vtm.message)
            && a.inboxItem in d.items && d.items[a.inboxItem].owner == a.nttProgram
            && d.items[a.inboxItem].recipient == vtm.message.to
            && d.items == w.items[a.inboxItem := d.items[a.inboxItem]]
            && (a.inboxItem in w.items ==> d.items[a.inboxItem].amount == w.items[a.inboxItem].amount)
  {
    if IsReleased(w, a.inboxItem) {
      assert SkipPathGuards(w, a).Ok?;
      assert w.items[a.inboxItem := w.items[a.inboxItem]] == w.items;
    }
  }

  lemma {:induction false} ReceiveAuthorises(w: World, a: ReceiveArgs, w': World)
    requires Receive(w, a) == Ok(w') && ItemsOk(w)
    ensures a.Flow() in w'.flows && a.inboxItem in w'.items && w'.pairs == w.pairs
    ensures w'.flows == w.flows[a.Flow() := w'.flows[a.Flow()]]
    ensures w'.log == w.log + [FlowReceived(a.Flow(), w'.flows[a.Flow()], w.slot)]
    ensures Authorised(w'.pairs, a.Flow(), w'.flows[a.Flow()])
    ensures w'.items == w.items[a.inboxItem := w'.items[a.inboxItem]]
    ensures w'.items[a.inboxItem].amount == w'.flows[a.Flow()].amount
    ensures w'.items[a.inboxItem].owner == a.inboxItem.manager
    ensures w'.items[a.inboxItem].recipient == a.inboxItem.message.to
    ensures a.inboxItem in w.items ==> w'.items[a.inboxItem].amount == w.items[a.inboxItem].amount
  {
    var d := Solvency.ReceiveStages(w, a, w');
    SenderFacts(w, a);
    DeliveredItem(w, a);
    OpenedRecords(w.(items := d.items, tokens := d.tokens), a, w');
  }

  lemma {:induction false} SenderFacts(w: World, a: ReceiveArgs)
    requires ReceiveGuards(w, a).Ok?
    ensures a.pair in w.pairs && a.vtm in w.vtms && a.inboxAuthority == InboxAuthority(a.wallet, a.minSwapOut)
    ensures w.vtms[a.vtm].owner == a.nttProgram == ReceiveManager(w.pairs[a.pair], a.direction)
    ensures var c := w.pairs[a.pair];
            w.vtms[a.vtm].message.sender in {Setter(c.intents.0), Setter(c.intents.1)}
  {
  }

  lemma {:induction false} OpenedRecords(w: World, a: ReceiveArgs, w': World)
    requires Opened(w, a) == Ok(w')
    ensures a.inboxItem in w.items && w.items[a.inboxItem].recipient == a.inboxAuthority
    ensures w'.items == w.items && w'.pairs == w.pairs && a.Flow() in w'.flows
    ensures w'.flows == w.flows[a.Flow() := w'.flows[a.Flow()]]
    ensures w'.log == w.log + [FlowReceived(a.Flow(), w'.flows[a.Flow()], w.slot)]
    ensures w'.flows[a.Flow()] == OpenedFlow(w, a, w.items[a.inboxItem].amount)
  {
  }

  lemma {:induction false} ReceiveBound(w: World, a: ReceiveArgs, w': World)
    requires Receive(w, a) == Ok(w') && Bound(w)
    ensures Bound(w')
  {
    ReceiveAuthorises(w, a, w');
  }

  lemma {:induction false} DeliverItems(w: World, vtm: VtmAccount, item: Key, ata: Key, ntt: Inbound)
    requires NttDeliver(w, vtm, item, ata, ntt).Ok? && ItemsOk(w)
    ensures var items := NttDeliver(w, vtm, item, ata, ntt).value.items;
            && item.InboxItemPda? && item in items && items == w.items[item := items[item]]
            && items[item].owner == item.manager && items[item].recipient == item.message.to
            && (item in w.items ==> items[item].amount == w.items[item].amount)
  {
  }

  /** Managers and intent programs are pinned at `initialize`; no later step changes them. */
  predicate PinsKept(w: World, w': World) {
    forall p :: p in w.pairs ==>
      && p in w'.pairs && w'.pairs[p].nttBase == w.pairs[p].nttBase
      && w'.pairs[p].nttAsset == w.pairs[p].nttAsset && w'.pairs[p].intents == w.pairs[p].intents
  }

  predicate ItemsGrow(w: World, w': World) {
    forall k :: k in w.items && k.InboxItemPda? ==> k in w'.items && w'.items[k].amount == w.items[k].amount
  }

  /** No flow becomes or stays received in a different form, and no flow is opened. */
  predicate NothingReceived(w: World, w': World) {
    && (forall id :: id in w'.flows && w'.flows[id].status.Received? ==> id in w.flows && w'.flows[id] == w.flows[id])
    && w.log <= w'.log && (forall i :: |w.log| <= i < |w'.log| ==> !w'.log[i].FlowReceived?)
  }

  predicate BindingKept(w: World, w': World) {
    ItemsOk(w') && PinsKept(w, w') && ItemsGrow(w, w') && NothingReceived(w, w')
  }

  lemma {:induction false} QuietKeepsBinding(w: World, w': World)
    requires ItemsOk(w) && w'.items == w.items && w'.flows == w.flows && w'.log == w.log && PinsKept(w, w')
    ensures BindingKept(w, w')
  {
  }

  lemma {:induction false} ItemKeepsBinding(w: World, w': World, item: Key)
    requires ItemsOk(w) && item in w'.items && w'.items == w.items[item := w'.items[item]]
    requires item.InboxItemPda? ==>
               && w'.items[item].owner == item.manager && w'.items[item].recipient == item.message.to
               && (item in w.items ==> w'.items[item].amount == w.items[item].amount)
    requires w'.flows == w.flows && w'.log == w.log && w'.pairs == w.pairs
    ensures BindingKept(w, w')
  {
  }

  lemma {:induction false} OtherStepsKeepBinding(w: World, s: Step, w': World)
    requires Apply(w, s) == Ok(w') && Legal(w, s) && ItemsOk(w) && !s.DoReceive?
    ensures BindingKept(w, w')
  {
    match s
    case Deliver(k, item, ata, ntt) => DeliverItems(w, w.vtms[k], item, ata, ntt); ItemKeepsBinding(w, w', item);
    case DoSwap(a) => SwapRecords(w, a, w');
    case DoSend(a) => SendRecords(w, a, w');
    case DoRefund(a) => RefundRecords(w, a, w');
    case DoInitialize(a) => InitializeRecords(w, a, w'); QuietKeepsBinding(w, w');
    case DoConfigure(a) => ConfigureRecords(w, a, w'); QuietKeepsBinding(w, w');
    case DoAcceptAuthority(k, p) => QuietKeepsBinding(w, w');
    case Forge(k, i) => ItemKeepsBinding(w, w', k);
    case Tick(n) => QuietKeepsBinding(w, w');
    case External(t) => QuietKeepsBinding(w, w');
    case PostMessage(k, v) => QuietKeepsBinding(w, w');
  }

  lemma {:induction false} OtherStepsReceiveNothing(w: World, s: Step, w': World)
    requires Apply(w, s) == Ok(w') && !s.DoReceive?
    ensures NothingReceived(w, w')
  {
    match s
    case DoSwap(a) => SwapRecords(w, a, w');
    case DoSend(a) => SendRecords(w, a, w');
    case DoRefund(a) => RefundRecords(w, a, w');
    case DoInitialize(a) => InitializeRecords(w, a, w');
    case DoConfigure(a) => ConfigureRecords(w, a, w');
    case _ =>
  }

  lemma {:induction false} InitializeRecords(w: World, a: InitializeArgs, w': World)
    requires Initialize(w, a) == Ok(w')
    ensures w'.items == w.items && w'.flows == w.flows && w'.log == w.log && PinsKept(w, w')
  {
  }

  lemma {:induction false} ConfigureRecords(w: World, a: ConfigureArgs, w': World)
    requires Configure(w, a) == Ok(w')
    ensures w'.items == w.items && w'.flows == w.flows && w'.log == w.log && PinsKept(w, w')
  {
  }

  lemma {:induction false} SwapRecords(w: World, a: SwapArgs, w': World)
    requires Swap(w, a) == Ok(w')
    ensures ItemsOk(w) ==> BindingKept(w, w')
    ensures NothingReceived(w, w')
  {
    Solvency.SwapFlows(w, a, w');
    SwapLog(w, a, w');
    SwappedRecords(w, w', a.id);
  }

  lemma {:induction false} SwappedRecords(w: World, w': World, id: FlowId)
    requires id in w'.flows && w'.flows == w.flows[id := w'.flows[id]] && w'.flows[id].status.Swapped?
    requires w'.items == w.items && w'.pairs == w.pairs
    requires |w'.log| == |w.log| + 1 && w'.log[..|w.log|] == w.log && w'.log[|w.log|].FlowSwapped?
    ensures NothingReceived(w, w')
    ensures ItemsOk(w) ==> BindingKept(w, w')
  {
  }

  lemma {:induction false} SwapLog(w: World, a: SwapArgs, w': World)
    requires Swap(w, a) == Ok(w')
    ensures w'.items == w.items && |w'.log| == |w.log| + 1 && w'.log[..|w.log|] == w.log && w'.log[|w.log|].FlowSwapped?
  {
  }

  lemma {:induction false} SendRecords(w: World, a: CloseArgs, w': World)
    requires Send(w, a) == Ok(w')
    ensures ItemsOk(w) ==> BindingKept(w, w')
    ensures NothingReceived(w, w')
  {
  }

  lemma {:induction false} RefundRecords(w: World, a: CloseArgs, w': World)
    requires Refund(w, a) == Ok(w')
    ensures ItemsOk(w) ==> BindingKept(w, w')
    ensures NothingReceived(w, w')
  {
  }

  lemma {:induction false} BoundAfter(w: World, w': World)
    requires Bound(w) && BindingKept(w, w')
    ensures Bound(w')
  {
    forall i | 0 <= i < |w'.log| && w'.log[i].FlowReceived?
      ensures Authorised(w'.pairs, w'.log[i].id, w'.log[i].flow)
    {
      assert w.log[i] == w'.log[i];
    }
  }

  /**
   * In every run, each flow ever opened was authorised by the message its address is derived from:
   * a caller chooses neither recipient nor floor. An open received flow holds the recorded amount.
   */
  lemma {:induction false} EveryFlowIsAuthorised(w: World, steps: seq<Step>)
    requires Genesis(w) && LegalRun(w, steps)
    ensures Bound(Run(w, steps))
  {
    if steps != [] {
      var before, s := Run(w, steps[..|steps| - 1]), steps[|steps| - 1];
      EveryFlowIsAuthorised(w, steps[..|steps| - 1]);
      if Apply(before, s).Ok? {
        if s.DoReceive? {
          ReceiveBound(before, s.receive, Apply(before, s).value);
        } else {
          OtherStepsKeepBinding(before, s, Apply(before, s).value);
          BoundAfter(before, Apply(before, s).value);
        }
      }
    }
  }

  /** Two flows opened for one inbox item, at whatever times, name one recipient and one floor. */
  lemma {:induction false} ItemFixesUser(w: World, steps: seq<Step>, i: nat, j: nat)
    requires Genesis(w) && LegalRun(w, steps)
    requires i < |Run(w, steps).log| && j < |Run(w, steps).log|
    requires Run(w, steps).log[i].FlowReceived? && Run(w, steps).log[j].FlowReceived?
    requires Run(w, steps).log[i].id.inboxItem == Run(w, steps).log[j].id.inboxItem
    ensures Run(w, steps).log[i].flow.recipient == Run(w, steps).log[j].flow.recipient
    ensures Run(w, steps).log[i].flow.minSwapOut == Run(w, steps).log[j].flow.minSwapOut
  {
    EveryFlowIsAuthorised(w, steps);
    var r := Run(w, steps);
    assert Authorised(r.pairs, r.log[i].id, r.log[i].flow);
    assert Authorised(r.pairs, r.log[j].id, r.log[j].flow);
  }

  // ---------------------------------------------------------------- conservation

  predicate InboxesOk(tokens: Tokens) { forall k :: k in tokens ==> CreatedOk(k, tokens[k]) }

  function Balance(w: World, k: Key): nat { if k in w.tokens then w.tokens[k].amount else 0 }

  /** The inbox account a flow was swept from. */
  function SourceOf(id: FlowId, f: Flow): Key {
    InboxAta(f.recipient, f.minSwapOut, if id.direction.Deposit? then id.pair.base else id.pair.asset)
  }

  /** Everything ever opened into flows from one inbox account. */
  function TotalOpened(log: seq<Event>, inbox: Key): nat {
    if log == [] then 0
    else
      var e := log[|log| - 1];
      TotalOpened(log[..|log| - 1], inbox) +
      (if e.FlowReceived? && SourceOf(e.id, e.flow) == inbox then e.flow.amount else 0)
  }

  /** What the bridge pays into an inbox while a `receive` runs. */
  function BridgeCredit(w: World, a: ReceiveArgs, inbox: Key): nat {
    if IsReleased(w, a.inboxItem) || !a.ntt.released || a.Inbox() != inbox then 0
    else if a.inboxItem in w.items then w.items[a.inboxItem].amount
    else a.ntt.amount
  }

  /** What a step pays into an inbox account. */
  function Credit(w: World, s: Step, inbox: Key): int {
    if Apply(w, s).Err? then 0
    else if s.DoReceive? then BridgeCredit(w, s.receive, inbox)
    else Balance(Exec(w, s), inbox) - Balance(w, inbox)
  }

  function Credits(w: World, steps: seq<Step>, inbox: Key): int {
    if steps == [] then 0
    else Credits(w, steps[..|steps| - 1], inbox) + Credit(Run(w, steps[..|steps| - 1]), steps[|steps| - 1], inbox)
  }

  /** `receive` moves exactly the flow's amount, out of exactly the inbox of its wallet and floor. */
  lemma {:induction false} ReceiveDebitsItsInbox(w: World, a: ReceiveArgs, w': World, inbox: Key)
    requires Receive(w, a) == Ok(w') && InboxesOk(w.tokens) && IsInboxAta(inbox)
    ensures InboxesOk(w'.tokens)
    ensures a.Flow() in w'.flows && w'.log == w.log + [FlowReceived(a.Flow(), w'.flows[a.Flow()], w.slot)]
    ensures Balance(w', inbox) + (if SourceOf(a.Flow(), w'.flows[a.Flow()]) == inbox then w'.flows[a.Flow()].amount else 0)
            == Balance(w, inbox) + BridgeCredit(w, a, inbox)
  {
    var d := Solvency.ReceiveStages(w, a, w');
    Solvency.GuardFacts(w, a);
    DeliveredCredit(w, a);
    OpenedRecords(w.(items := d.items, tokens := d.tokens), a, w');
    OpenedTokens(w.(items := d.items, tokens := d.tokens), a, w');
    SweptBalances(w.tokens, a, BridgeCredit(w, a, a.Inbox()), d.tokens, w'.flows[a.Flow()].amount, w'.tokens);
  }

  lemma {:induction false} OpenedTokens(w: World, a: ReceiveArgs, w': World)
    requires Opened(w, a) == Ok(w')
    ensures a.Flow() in w'.flows && CanTransfer(w.tokens, a.Inbox(), Custody(a.recvMint), w'.flows[a.Flow()].amount)
    ensures w'.tokens == Transferred(w.tokens, a.Inbox(), Custody(a.recvMint), w'.flows[a.Flow()].amount)
  {
  }

  lemma {:induction false} SweptBalances(t: Tokens, a: ReceiveArgs, credit: nat, t': Tokens, amount: nat, t'': Tokens)
    requires InboxesOk(t) && a.Inbox() in t && IsInboxAta(a.Inbox())
    requires t' == t[a.Inbox() := Credited(t[a.Inbox()], credit)]
    requires CanTransfer(t', a.Inbox(), Custody(a.recvMint), amount)
    requires t'' == Transferred(t', a.Inbox(), Custody(a.recvMint), amount)
    ensures InboxesOk(t'') && a.Inbox() in t'' && t''[a.Inbox()].amount + amount == t[a.Inbox()].amount + credit
    ensures forall k :: IsInboxAta(k) && k != a.Inbox() ==>
              (k in t'' <==> k in t) && (k in t ==> t''[k] == t[k])
  {
  }

  lemma {:induction false} DeliveredCredit(w: World, a: ReceiveArgs)
    requires a.vtm in w.vtms && Delivered(w, a).Ok? && a.Inbox() in w.tokens
    ensures var t := Delivered(w, a).value.tokens;
            t == w.tokens[a.Inbox() := Credited(w.tokens[a.Inbox()], BridgeCredit(w, a, a.Inbox()))]
  {
    assert w.tokens[a.Inbox() := w.tokens[a.Inbox()]] == w.tokens;
  }

  /** Nothing but `receive` takes from an inbox account. */
  predicate OnlyGains(before: Tokens, after: Tokens) {
    forall k :: k in before && IsInboxAta(k) ==> k in after && after[k].amount >= before[k].amount
  }

  lemma {:induction false} OtherStepsOnlyPayIn(w: World, s: Step, w': World)
    requires Apply(w, s) == Ok(w') && Legal(w, s) && InboxesOk(w.tokens) && !s.DoReceive?
    ensures InboxesOk(w'.tokens) && OnlyGains(w.tokens, w'.tokens)
  {
    match s
    case DoSwap(a) => SwapPaysIn(w, a, w');
    case DoSend(a) => SendPaysIn(w, a, w');
    case DoRefund(a) => RefundPaysIn(w, a, w');
    case DoInitialize(a) => InitializePaysIn(w, a, w');
    case Deliver(k, item, ata, ntt) => DeliverPaysIn(w, w.vtms[k], item, ata, ntt);
    case DoConfigure(a) => ConfigureTokens(w, a, w');
    case DoAcceptAuthority(k, p) =>
    case External(t) => ExternalPaysIn(w.tokens, t);
    case Tick(n) =>
    case PostMessage(k, v) =>
    case Forge(k, i) =>
  }

  lemma {:induction false} InitializePaysIn(w: World, a: InitializeArgs, w': World)
    requires Initialize(w, a) == Ok(w') && InboxesOk(w.tokens)
    ensures InboxesOk(w'.tokens) && OnlyGains(w.tokens, w'.tokens)
  {
  }

  lemma {:induction false} ConfigureTokens(w: World, a: ConfigureArgs, w': World)
    requires Configure(w, a) == Ok(w')
    ensures w'.tokens == w.tokens
  {
  }

  lemma {:induction false} DeliverPaysIn(w: World, vtm: VtmAccount, item: Key, ata: Key, ntt: Inbound)
    requires NttDeliver(w, vtm, item, ata, ntt).Ok? && InboxesOk(w.tokens)
    ensures var t := NttDeliver(w, vtm, item, ata, ntt).value.tokens; InboxesOk(t) && OnlyGains(w.tokens, t)
  {
  }

  lemma {:induction false} ExternalPaysIn(before: Tokens, after: Tokens)
    requires ExternalLegal(before, after) && InboxesOk(before)
    ensures InboxesOk(after) && OnlyGains(before, after)
  {
    forall k | k in after
      ensures CreatedOk(k, after[k])
    {
      if k in before && IsInboxAta(k) {
        assert RelayerControlled(before[k]);
      }
    }
  }

  lemma {:induction false} SendPaysIn(w: World, a: CloseArgs, w': World)
    requires Send(w, a) == Ok(w') && InboxesOk(w.tokens)
    ensures InboxesOk(w'.tokens) && OnlyGains(w.tokens, w'.tokens)
  {
  }

  lemma {:induction false} RefundPaysIn(w: World, a: CloseArgs, w': World)
    requires Refund(w, a) == Ok(w') && InboxesOk(w.tokens)
    ensures InboxesOk(w'.tokens) && OnlyGains(w.tokens, w'.tokens)
  {
  }

  lemma {:induction false} SkimPaysIn(tokens: Tokens, asset: Key, vault: Key, fee: nat)
    requires Skimmed(tokens, asset, vault, fee).Ok? && InboxesOk(tokens)
    ensures var t := Skimmed(tokens, asset, vault, fee).value;
            && InboxesOk(t) && OnlyGains(tokens, t)
            && (forall k :: k in t <==> k in tokens)
            && (forall k :: k in t && k != vault && k != Custody(asset) ==> t[k] == tokens[k])
  {
  }

  lemma {:induction false} PreparedPaysIn(w: World, a: SwapArgs)
    requires SwapEntry(w, a).Ok? && SwapPrepared(w, a).Ok? && InboxesOk(w.tokens)
    ensures var t := SwapPrepared(w, a).value.tokens;
            && InboxesOk(t) && OnlyGains(w.tokens, t)
            && (forall k :: k in t && IsInboxAta(k) && k != w.pairs[a.id.pair].feeVault ==>
                  k in w.tokens && t[k] == w.tokens[k])
  {
    var c := w.pairs[a.id.pair];
    var input := SwapInput(c, a.id.direction, w.flows[a.id].amount).value;
    SkimPaysIn(w.tokens, a.id.pair.asset, c.feeVault, input.fee);
  }

  /** The router cannot sign for an inbox, so what it writes to one is a payment in. */
  lemma {:induction false} RouterPaysIn(w: World, a: SwapArgs, t: Tokens)
    requires RouterLegal(w, a) && InboxesOk(w.tokens) && InboxesOk(t) && OnlyGains(w.tokens, t)
    requires forall k :: k in t && IsInboxAta(k) && k in a.router.writes ==> k in w.tokens && t[k] == w.tokens[k]
    ensures InboxesOk(t + a.router.writes) && OnlyGains(w.tokens, t + a.router.writes)
  {
    forall k | k in a.router.writes
      ensures CreatedOk(k, a.router.writes[k])
      ensures k in w.tokens && IsInboxAta(k) ==> a.router.writes[k].amount >= w.tokens[k].amount
    {
      if k in w.tokens {
        assert CreatedOk(k, w.tokens[k]);
      }
    }
  }

  lemma {:induction false} SwapPaysIn(w: World, a: SwapArgs, w': World)
    requires Swap(w, a) == Ok(w') && RouterLegal(w, a) && InboxesOk(w.tokens)
    ensures InboxesOk(w'.tokens) && OnlyGains(w.tokens, w'.tokens)
  {
    assert SwapEntry(w, a).Ok?;
    var c, p := w.pairs[a.id.pair], SwapPrepared(w, a).value;
    PreparedPaysIn(w, a);
    assert c.feeVault in a.remaining ==> AccountAllowed(w, a.id, c.feeVault, c.feeVault);
    RouterPaysIn(w, a, p.tokens);
    var after := p.tokens + a.router.writes;
    var out := SwapChecked(p.tokens, after, a, p.swapIn, w.flows[a.id].minSwapOut).value;
    var output := SwapOutput(c, a.id.direction, out).value;
    SkimPaysIn(after, a.id.pair.asset, c.feeVault, output.fee);
  }

  lemma {:induction false} OpenedUnchanged(log: seq<Event>, longer: seq<Event>, inbox: Key)
    requires log <= longer && forall i :: |log| <= i < |longer| ==> !longer[i].FlowReceived?
    ensures TotalOpened(longer, inbox) == TotalOpened(log, inbox)
    decreases |longer|
  {
    if |longer| > |log| {
      OpenedUnchanged(log, longer[..|longer| - 1], inbox);
    } else {
      assert longer == log;
    }
  }

  lemma {:induction false} StepConserves(w: World, s: Step, inbox: Key)
    requires Legal(w, s) && InboxesOk(w.tokens) && IsInboxAta(inbox)
    ensures InboxesOk(Exec(w, s).tokens) && Credit(w, s, inbox) >= 0
    ensures Balance(Exec(w, s), inbox) + TotalOpened(Exec(w, s).log, inbox)
            == Balance(w, inbox) + TotalOpened(w.log, inbox) + Credit(w, s, inbox)
  {
    if Apply(w, s).Ok? {
      var w' := Apply(w, s).value;
      if s.DoReceive? {
        ReceiveDebitsItsInbox(w, s.receive, w', inbox);
        assert w'.log[..|w'.log| - 1] == w.log;
      } else {
        OtherStepsOnlyPayIn(w, s, w');
        OtherStepsReceiveNothing(w, s, w');
        OpenedUnchanged(w.log, w'.log, inbox);
      }
    }
  }

  /**
   * Over any run, what an inbox account holds plus what was opened from it is what it held plus
   * what was paid in, even when a released item is presented again after its flow closed.
   */
  lemma {:induction false} InboxConserved(w: World, steps: seq<Step>, inbox: Key)
    requires Genesis(w) && LegalRun(w, steps) && IsInboxAta(inbox)
    ensures InboxesOk(Run(w, steps).tokens) && Credits(w, steps, inbox) >= 0
    ensures Balance(Run(w, steps), inbox) + TotalOpened(Run(w, steps).log, inbox)
            == Balance(w, inbox) + Credits(w, steps, inbox)
  {
    if steps != [] {
      InboxConserved(w, steps[..|steps| - 1], inbox);
      StepConserves(Run(w, steps[..|steps| - 1]), steps[|steps| - 1], inbox);
    }
  }
}
