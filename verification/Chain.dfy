/**
 * The on-chain world the relayer program runs in. Program-derived addresses and digests are values
 * of `Key` built from their seeds, so equal addresses have equal seeds.
 */
module Chain {
  import opened Prelude
  import opened Fees

  const FOGO_CHAIN_ID: nat := 51
  const REFUND_TIMEOUT_SLOTS: nat := 54_000
  const REDEEM_ACCOUNTS_MIN_LEN: nat := 10
  const RELEASE_ACCOUNTS_MIN_LEN: nat := 8
  const REDEEM_IDX_PEER: nat := 2
  const REDEEM_IDX_TRANSCEIVER_MESSAGE: nat := 3
  const REDEEM_IDX_INBOX_ITEM: nat := 6
  const REDEEM_IDX_INBOX_RATE_LIMIT: nat := 7
  const RELEASE_IDX_INBOX_ITEM: nat := 2
  const RELEASE_IDX_RECIPIENT_ATA: nat := 3
  const VTM_SENDER_END: nat := 106 + 32
  const VTM_TOTAL_LEN: nat := 213

  datatype Direction = Deposit | Withdraw

  datatype PairId = PairId(base: Key, asset: Key)

  datatype FlowId = FlowId(direction: Direction, pair: PairId, inboxItem: Key)

  /** The hashed content of an NTT manager message; 32-byte addresses are keys. */
  datatype Message = Message(id: nat, sender: Key, amount: nat, decimals: nat,
                             sourceToken: Key, to: Key, toChain: nat)

  datatype Key =
    | Plain(n: nat)
    | RelayerProgram
    | RelayerAuthority
    | InboxAuthority(wallet: Key, floor: nat)
    | Ata(owner: Key, mint: Key)
    | Setter(program: Key)
    | InboxItemPda(manager: Key, fromChain: nat, message: Message)
    | Peer(manager: Key, chain: nat)
    | InboxRateLimit(manager: Key, chain: nat)
    | SessionAuthority(manager: Key, amount: nat, recipient: Key)
    | PairPda(pair: PairId)
    | FlowPda(flow: FlowId)

  const ZERO_KEY := Plain(0)

  // -------------------------------------------------------------- SPL accounts

  datatype TokenAccount = TokenAccount(mint: Key, owner: Key, amount: nat,
                                       delegate: Option<Key>, allowance: nat, closer: Option<Key>)

  function Approved(t: TokenAccount, delegate: Key, amount: nat): TokenAccount {
    t.(delegate := Some(delegate), allowance := amount)
  }

  function Revoked(t: TokenAccount): TokenAccount { t.(delegate := None, allowance := 0) }

  /** A delegate's transfer out; SPL clears the delegate when its allowance reaches zero. */
  function SpentByDelegate(t: TokenAccount, n: nat): TokenAccount
    requires n <= t.amount && n <= t.allowance
  {
    t.(amount := t.amount - n, allowance := t.allowance - n,
       delegate := if n == t.allowance then None else t.delegate)
  }

  function Credited(t: TokenAccount, n: nat): TokenAccount { t.(amount := t.amount + n) }

  type Tokens = map<Key, TokenAccount>

  /** An owner-signed SPL transfer between two existing accounts of one mint. */
  predicate CanTransfer(tokens: Tokens, from: Key, to: Key, n: nat) {
    && from in tokens && to in tokens && from != to
    && tokens[from].mint == tokens[to].mint
    && n <= tokens[from].amount
  }

  function Transferred(tokens: Tokens, from: Key, to: Key, n: nat): Tokens
    requires CanTransfer(tokens, from, to, n)
  {
    tokens[from := tokens[from].(amount := tokens[from].amount - n)][to := Credited(tokens[to], n)]
  }

  function Custody(mint: Key): Key { Ata(RelayerAuthority, mint) }

  function InboxAta(wallet: Key, floor: nat, mint: Key): Key { Ata(InboxAuthority(wallet, floor), mint) }

  predicate IsInboxAta(k: Key) { k.Ata? && k.owner.InboxAuthority? }

  // ---------------------------------------------------------- program accounts

  datatype PairConfig = PairConfig(authority: Key, pendingAuthority: Option<Key>, feeVault: Key,
                                   nttBase: Key, nttAsset: Key, intents: (Key, Key), fees: FeeState)

  function ReceiveManager(c: PairConfig, d: Direction): Key { if d.Deposit? then c.nttBase else c.nttAsset }

  function SendManager(c: PairConfig, d: Direction): Key { if d.Deposit? then c.nttAsset else c.nttBase }

  function InMint(p: PairId, d: Direction): Key { if d.Deposit? then p.base else p.asset }

  function OutMint(p: PairId, d: Direction): Key { if d.Deposit? then p.asset else p.base }

  datatype Status = Received | Swapped

  datatype Flow = Flow(recipient: Key, status: Status, amount: u64, payer: Key,
                       minSwapOut: u64, receivedSlot: u64)

  datatype ReleaseStatus = Pending | Released

  /** Bytes that deserialize as an NTT inbox item, in an account owned by `owner`. */
  datatype ItemAccount = ItemAccount(owner: Key, amount: u64, recipient: Key, status: ReleaseStatus)

  /**
   * Account data that may be a validated transceiver message: whether it starts with that type's
   * discriminator, how many bytes it has, and the fields at their offsets as far as the bytes reach.
   */
  datatype VtmAccount = VtmAccount(owner: Key, tagged: bool, length: nat, fromChain: nat, message: Message)

  datatype SystemAccount = SystemAccount(lamports: nat, owner: Key, dataIsEmpty: bool)

  /** Emitted events, with the floor, fee and slot that were in force. */
  datatype Event =
    | FlowReceived(id: FlowId, flow: Flow, slot: nat)
    | FlowSwapped(id: FlowId, out: nat, bps: nat, fee: nat, net: nat)
    | FlowSent(id: FlowId, recipient: Key, mint: Key, amount: nat)
    | FlowRefunded(id: FlowId, recipient: Key, mint: Key, amount: nat, slot: nat)

  datatype World = World(slot: u64, admin: Key, authority: SystemAccount,
                         pairs: map<PairId, PairConfig>, flows: map<FlowId, Flow>, tokens: Tokens,
                         items: map<Key, ItemAccount>, vtms: map<Key, VtmAccount>, log: seq<Event>)
}
