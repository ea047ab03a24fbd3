/** The relayer program's error codes. */
module Errors {
  datatype RelayerError =
    | InvalidAccountSplit | AuthorityNotInAccounts | ZeroFogoSender | UnauthorizedAuthority | UnauthorizedAdmin
    | FlowStatusMismatch | BalanceUnderflow | ZeroAmountFlow | FeeBpsTooHigh | FeeOverflow | EmptyPendingFee
    | MissingSessionAuthority | InvalidTransceiverMessage | TransceiverMessageMismatch | InboxItemMismatch
    | RecipientAtaMismatch | FeeVaultAliasesUserAta | WrongOriginChain
    | UserInboxAuthorityMismatch | UnexpectedFogoSender | InvalidInboxItem | InsufficientInboxBalance
    | PendingAuthorityIsCurrent | AtaAuthorityTampered | InputConsumedMismatch | OutputBelowFloor
    | SwapAccountNotAllowed | RelayerAuthorityTampered | BadNttProgram | BadReceiveMint
    | RefundTooEarly | ZeroMinSwapOut | ArithmeticOverflow
    | NoPendingAuthority | PendingAuthorityMismatch
    | AccountConstraint  // an Anchor account constraint or `init` failed
    | CpiFailed          // a called program returned an error
}
