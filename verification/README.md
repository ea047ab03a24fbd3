# Fogo yield relayer: a Dafny model

Users on Fogo sign an intent that bridges tokens to Solana with a swap floor. On Solana a permissionless
relayer program opens a *flow* for each delivered message (`receive`), swaps it through a router that the
caller chooses (`swap`), and bridges the result back (`send`), or returns the deposit after a timeout
(`refund`). All flows of a token pair share two pooled custody accounts. Off chain, an SDK builds and
parses the messages and a cranker drives the flows.

The project models the logic of that system and proves what it is for. The main results:

* **Solvency.** In every state reachable by any interleaving of callers, flows and pairs, with any routers
  and any bridge behaviour, custody of each mint covers what all open flows are owed. The invariant is
  stronger than the balance alone: what is owed *plus* any allowance still standing for a delegate is at
  most the balance, so it survives anyone spending a left-over delegation. `receive` and `swap` leave the
  slack exactly unchanged; closing a flow raises it by the bridge dust.
* **Payout.** A monitor that reads only logged events, and is written from what users are promised, never
  reports a violation: each flow instance is paid once, to its recorded recipient, and a deposit gets at
  least its signed floor less the live fee on it. The model's events hold what the program emits and, in
  addition, the floor and slot of a receipt, the fee rate of a swap and the slot of a refund.
* **No stranding, isolation, conservation per inbox, honest progress**, all from every reachable state.
* **Exactly which calls succeed.** For `initialize`, `configure`, `accept_authority`, `receive`, `swap`,
  `send` and `refund` there is an if-and-only-if, written with a pair's own fields, literal account
  positions and plain balances, together with what a successful call records.
* **Fees arrive.** Every swap pays its pair's vault exactly the fee it charges, at the live rate, and over
  every run a vault's gain from swaps is the sum of the logged fees.
* **Fee timelock** as a history property over all `configure` calls, and inside whole runs: a flow swapped
  within 432000 slots of its receipt is charged at most what was live or staged when it was received.
* **Executor quote**: a restructured formula stays within two of its reference.
* **One preimage**: client bytes and rebuilt account bytes agree exactly when the payload is canonical.
* The token bucket, the signed floor under price drift, the bounded map and the per-flow state machine on
  top of it, watermark paging, the worker pool, the decimal printer, and the intent codec.

## How the model is laid out

| file | models |
|---|---|
| `Prelude.dfy`, `Errors.dfy`, `Arithmetic.dfy`, `Bytes.dfy` | results, error codes, integer facts, byte codecs |
| `Fees.dfy`, `FeeTimelock.dfy`, `FeeHistory.dfy` | fee split, staged increases, their history alone and in whole runs |
| `Chain.dfy`, `Instructions.dfy` | accounts and the net effect of each instruction and environment step |
| `Relayer.dfy` | the handlers as a class that updates accounts in program order |
| `Solvency.dfy`, `Progress.dfy`, `Payout.dfy`, `FeePayment.dfy`, `Inbox.dfy`, `Isolation.dfy` | properties over all runs |
| `Admission.dfy`, `Governance.dfy` | which calls succeed, what they record, who governs a pair |
| `Quote.dfy` | executor quote arithmetic |
| `Vaa.dfy`, `Preimage.dfy` | wire formats, parsers and the inbox-item hash input |
| `TokenBucket.dfy` | rate limiter and retry loop |
| `Nav.dfy` | venue prices and the signed floor |
| `Bounded.dfy`, `FlowTracker.dfy` | bounded map and per-flow processing states |
| `BigIntText.dfy`, `Watermarks.dfy`, `Paging.dfy`, `WorkerPool.dfy` | cranker scans and what they persist |
| `Decimal.dfy`, `Intent.dfy`, `Ed25519.dfy` | decimal amounts, signed intent text, verifier instruction |

A run is any sequence of steps: the seven instructions with arbitrary arguments, the clock, messages posted
and delivered by anyone, look-alike accounts, and any token movement the runtime allows without the
relayer's or an inbox's signature. `Instructions.Legal` states what the runtime guarantees: a router writes
only accounts it was handed, mints never change, and nobody signs for an inbox authority. The pair's own
two custody accounts may be changed by a router in any way at all.

Program-derived addresses and digests are values built from their seeds, so equal addresses have equal
seeds. I/O, clocks, randomness, router behaviour and bridge behaviour are parameters.

## Where the code and its description differ

The model follows the code.

* The derivation beside `compute_exec_amount` concludes that for typical values the overestimate is zero.
  `Quote.TwoIsReached` gives a quote with exactly those gas limit and message value where it is two;
  `Quote.QuoteAgreesIff` says exactly when a quote is not overestimated.
* `parseSignedMinOuts` is described as returning every stated floor. A floor on the line directly behind
  another is missed (`Intent.SecondFloorMissed`), because one match uses up the newline the next needs.
  `Intent.ReturnsEveryFloorIff` gives the exact condition for the returned values: what stands on the
  second, fourth, ... line of a block of stating lines must also stand on a first, third, ... one. For the
  matches before repeats are dropped, `Intent.FindsEveryFloorIff` gives it: no two consecutive lines state
  a floor.
* The poison threshold is annotated with about two hours. The default back-offs sum to 63.5 minutes
  (`FlowTracker.DefaultQuarantine`). A poisoned flow is also released by a late recorded success.
* `docs/architecture.md` says any signer may initialize a pair; the code requires the global admin.
* Comments in the intent builder speak of version 0.2; the code writes 0.3.
* `refund` is impossible for a flow received in the last 54000 slots of the 64-bit clock
  (`Progress.ReceivedNeverStranded` is an if-and-only-if for that reason).

## Model

| member | source | states |
|---|---|---|
| `Fees.SplitConserves` | programs/relayer/src/state.rs:166-172 | Up to the cap, every positive amount splits into a positive net and a fee that add up to it, and at least nine tenths are kept. |
| `Fees.SplitSucceedsIff` | programs/relayer/src/state.rs:163-172 | For any rate the split succeeds exactly when something is left; the fee is the whole part of the share, and each error has its condition. |
| `Fees.NetIsMonotone` | programs/relayer/src/state.rs:166-172 | A larger gross amount never leaves a smaller net, so a floor on the gross output gives a floor on the net. |
| `Fees.FeeBook.PromotePendingFeeIfReady` | programs/relayer/src/state.rs:104-116 | The new live and staged fees are the specified promotion of the old ones at that slot. |
| `Fees.FeeBook.ProposeFeeChange` | programs/relayer/src/state.rs:137-161 | The new fees, or the error, are those of the proposal function whose whole effect `FeeTimelock.ConfigureSettles` fixes; a failed proposal changes nothing. |
| `Fees.FeeBook.Configure` | programs/relayer/src/instructions/configure.rs:12-38 | Promote, then propose both legs, then validate, as the function whose outcome `FeeTimelock.ConfigureSettles`, `ConfigureWindow` and `ConfigureSucceedsIff` fix; a refused call changes nothing. |
| `FeeTimelock.RunInvariant` | programs/relayer/src/state.rs:104-161 | After every sequence of calls: fees validate, each staged leg is strictly above its live leg and equals the last accepted proposal on that leg, and the window reaches the full timelock past it. |
| `FeeTimelock.PromotionWasNoticed` | programs/relayer/src/state.rs:104-161 | Whenever a promotion changes a live leg it raises it, to exactly the most recent proposal on that leg, made at least 432000 slots earlier. |
| `FeeTimelock.FeesStayCapped` | programs/relayer/src/state.rs:79-92 | In every run, live fees stay within 1000 bps and staged fees lie strictly above the live ones and within 1000 bps. |
| `FeeTimelock.WindowNeverShortens` | programs/relayer/src/state.rs:155-159 | However calls continue, a pending window is never replaced by one that ends earlier. |
| `FeeTimelock.TwoDaysNotice` | programs/relayer/src/state.rs:133-161 | From any fee state seen at slot t, no call in the next 432000 slots makes a leg exceed what was then live or already staged. |
| `FeeTimelock.ConfigureSettles` | programs/relayer/src/state.rs:104-161 | After an accepted call, leg by leg: a proposal at or below the rate in force is live at once and clears what was staged; a raise is staged and leaves the rate; without a proposal a ripe rate becomes live and an unripe one stays staged. |
| `FeeTimelock.ConfigureWindow` | programs/relayer/src/state.rs:155-159 | In every history a raise sets the window to one timelock from now; otherwise an unripe window stays. |
| `FeeTimelock.ConfigureSucceedsIff` | programs/relayer/src/state.rs:79-92 | On valid fees a call is refused only for a proposal above 1000 bps or a raise too late for the clock. |
| `FeeTimelock.LatestProposalRules` | programs/relayer/src/state.rs:104-161 | In every history each leg holds, staged or live, exactly its last accepted proposal, or its first rate if there was none. |
| `FeeTimelock.RaiseLands` | programs/relayer/src/state.rs:104-116 | A raise left alone for 432000 slots is live after the next accepted call without a proposal on that leg. |
| `FeeHistory.FeesFollowCalls` | programs/relayer/src/instructions/configure.rs:12-38 | After any run from any state, a pair's fees are the fee machine's after exactly the `configure` calls that took effect, made in slot order. |
| `FeeHistory.FeesInEveryRun` | programs/relayer/src/instructions/initialize.rs:32-35 | In every run a pair's fees are the fee machine's from its creation, with valid fees and nothing staged, over its accepted calls. |
| `FeeHistory.EveryRaiseWasNoticed` | programs/relayer/src/state.rs:104-161 | In every run, a step that raises a live leg raises it to at most the most recent accepted proposal on that leg, at least 432000 slots old. |
| `FeeHistory.LatestProposalRulesInRuns` | programs/relayer/src/instructions/configure.rs:12-38 | In every run each leg of a pair holds, staged or live, exactly its last accepted proposal. |
| `FeeHistory.FeeWindow` | programs/relayer/src/state.rs:133-161 | For 432000 slots after any state of any run, no leg of a pair exceeds what was live or staged in that state. |
| `FeeHistory.FlowChargedAtMostCeiling` | programs/relayer/src/instructions/swap.rs:81-167 | A flow swapped within 432000 slots of its receipt is charged at most what was live or staged at receipt: on a withdraw of its input, on a deposit of its floor. |
| `Relayer.Ledger.HandleInitialize` | programs/relayer/src/instructions/initialize.rs:13-107 | The handler's new state, or its error, is the specified one: admin gate, both custody accounts created fresh, vault constraints, fee cap. |
| `Relayer.Ledger.HandleConfigure` | programs/relayer/src/instructions/configure.rs:6-91 | The handler's new state, or its error, is the specified one: fees, vault and proposed authority. |
| `Relayer.Ledger.HandleAcceptAuthority` | programs/relayer/src/instructions/accept_authority.rs:6-18 | Only the pending authority takes over, and the proposal is used up. |
| `Relayer.Ledger.DeliverInbound` | programs/relayer/src/instructions/receive.rs:72-110 | The skip path is re-validated, the split and every pinned slot of the redeem and release lists are compared, and otherwise the item is redeemed and released, with the errors in program order. |
| `Relayer.Ledger.BridgeIn` | programs/relayer/src/instructions/receive.rs:99-110 | Redeem, then release, each only with the authority in its list; the result is the item and balances of the two calls. |
| `Relayer.Ledger.AuthoritySeen` | programs/relayer/src/cpi.rs:31-42 | The loop finds whether the relayer authority is among the accounts of a call it must sign. |
| `Relayer.Ledger.OpenFlow` | programs/relayer/src/instructions/receive.rs:112-165 | Recipient binding, sweep of exactly the recorded amount, and the new flow. |
| `Relayer.Ledger.HandleReceive` | programs/relayer/src/instructions/receive.rs:21-168 | The whole handler, with the error of the first guard that fails; `Admission.ReceiveSucceedsIff` fixes when it succeeds and what it records. |
| `Relayer.Ledger.AccountsAllowed` | programs/relayer/src/instructions/swap.rs:39-49 | The loop accepts exactly the lists without the vault, the config, the flow, or any other token account the relayer owns. |
| `Relayer.Ledger.PrepareSwap` | programs/relayer/src/instructions/swap.rs:81-123 | The withdraw fee is taken, both accounts lose their delegates, and the chosen delegate gets exactly the budget. |
| `Relayer.Ledger.CheckSwap` | programs/relayer/src/instructions/swap.rs:146-159 | The balance deltas and account records after the router's call are judged as specified, and the result is the delivered output. |
| `Relayer.Ledger.SettleSwap` | programs/relayer/src/instructions/swap.rs:161-171 | The deposit fee is taken from the output and the flow gets the net amount and its new status. |
| `Relayer.Ledger.HandleSwap` | programs/relayer/src/instructions/swap.rs:24-184 | The whole handler against its specification, for an arbitrary router; `Admission.SwapSucceedsIff`, `Solvency.SwapEffect` and `FeePayment.SwapPaysVault` fix when it succeeds and where every unit goes. |
| `Relayer.Ledger.SkimFee` | programs/relayer/src/cpi.rs:57-80 | The transfer function, which `FeePayment.SwapPaysVault` shows to credit the vault with exactly the fee; a zero fee is no transfer. |
| `Relayer.Ledger.ApproveAndLock` | programs/relayer/src/cpi.rs:86-124 | The session authority is looked for, approved for exactly the amount, and the bridge debits at most that. |
| `Relayer.Ledger.HandleSend` | programs/relayer/src/instructions/send.rs:15-71 | The whole handler: status gate, output custody, payout and close, through the manager that `Progress.ClosesThroughPinnedManager` fixes. |
| `Relayer.Ledger.HandleRefund` | programs/relayer/src/instructions/refund.rs:20-93 | The whole handler: status and timeout gates, original custody, payout and close. |
| `Relayer.Ledger.Execute` | programs/relayer/src/instructions/swap.rs:24-184 | Any step on the mutable accounts equals the pure step, with a failed one rolled back. |
| `Governance.InitializeSucceedsIff` | programs/relayer/src/instructions/initialize.rs:13-107 | Succeeds exactly for the admin, a new pair of two mints without custody accounts, a vault of the asset mint and fees within 1000 bps; then every field is the one named and both custody accounts are empty. |
| `Governance.ConfigureSucceedsIff` | programs/relayer/src/instructions/configure.rs:6-91 | Succeeds exactly for the authority with a usable vault, an authority other than itself, and acceptable fees; then vault and proposal change as named and nothing else of who governs. |
| `Governance.ConfigureSettlesFees` | programs/relayer/src/instructions/configure.rs:12-24 | An accepted call settles both fee legs from the rates in force and the proposals alone. |
| `Governance.AcceptSucceedsIff` | programs/relayer/src/instructions/accept_authority.rs:6-18 | Succeeds exactly for the proposed key, which then governs, and the proposal is used up. |
| `Governance.EveryProposalWasMade` | programs/relayer/src/instructions/configure.rs:30-37 | In every run a standing proposal was made by a `configure` of the authority of its time. |
| `Governance.HandoverNeedsBoth` | programs/relayer/src/instructions/accept_authority.rs:6-18 | In every run a change of authority is signed by the new one and was proposed by an authority before it. |
| `Admission.ReceiveSucceedsIff` | programs/relayer/src/instructions/receive.rs:21-168 | On both paths and for both intent programs, succeeds exactly for the right pair, mint, manager, inbox, message, item, account positions and funds; then the flow names wallet, due amount, payer, floor and slot. |
| `Admission.EveryMessageCanBeReceived` | programs/relayer/src/instructions/receive.rs:66-110 | From every reachable state a named call receives any posted message of either intent program, exactly when its amount is positive and, if released earlier, still in the inbox. |
| `Admission.SwapSucceedsIff` | programs/relayer/src/instructions/swap.rs:24-184 | For any legal router, succeeds exactly when the flow waits for its swap, the accounts are harmless, the whole amount leaves input custody, at least the floor enters output custody, and accounts and signer come back clean. |
| `Solvency.OwedUpdate` | programs/relayer/src/state.rs:211-234 | Changing one flow moves the sum owed over all flows by that flow's change alone. |
| `Solvency.ReceiveKeepsSlack` | programs/relayer/src/instructions/receive.rs:121-157 | `receive` leaves custody minus owed exactly unchanged in every mint. |
| `Solvency.SwapEffect` | programs/relayer/src/instructions/swap.rs:81-171 | For any router that passes the checks, input custody falls by exactly the flow's old amount, output custody rises by exactly its new one, and neither keeps a delegate. |
| `Solvency.SwapFrame` | programs/relayer/src/instructions/swap.rs:39-49 | Every other account the relayer owns is untouched, whatever the router does. |
| `Solvency.SwapKeepsSlack` | programs/relayer/src/instructions/swap.rs:81-171 | `swap` leaves custody minus owed exactly unchanged in every mint. |
| `Solvency.SendCloses` | programs/relayer/src/instructions/send.rs:15-60 | A successful `send` closes a swapped flow, debits only its output custody, and leaves as allowance exactly what was not debited. |
| `Solvency.RefundCloses` | programs/relayer/src/instructions/refund.rs:20-82 | A successful `refund` closes a received flow, debits only its input custody, and leaves as allowance exactly what was not debited. |
| `Solvency.CloseKeepsSlack` | programs/relayer/src/instructions/send.rs:19-60 | Closing raises the slack by exactly the bridge dust and keeps the account covered. |
| `Solvency.InitializeFresh` | programs/relayer/src/instructions/initialize.rs:60-102 | A successful `initialize` means two different mints, neither of whose custody accounts existed. |
| `Solvency.StepInv` | programs/relayer/src/instructions/swap.rs:24-184 | Every legal step keeps the invariant: disjoint pairs, covered custody, positive flows. |
| `Solvency.AlwaysSolvent` | programs/relayer/src/instructions/swap.rs:81-171 | In every reachable state, for every pair, owed plus standing allowance is at most custody. |
| `Progress.SendSucceedsIff` | programs/relayer/src/instructions/send.rs:15-60 | A swapped flow can be sent exactly when the caller names the session authority of the manager pinned for the owed mint, and the bridge works: no balance stands in the way. |
| `Progress.RefundSucceedsIff` | programs/relayer/src/instructions/refund.rs:20-82 | A received flow can be refunded exactly when, besides the same for its owed mint, its timeout has passed. |
| `Progress.ClosesThroughPinnedManager` | programs/relayer/src/state.rs:187-204 | A successful close had among its accounts the session authority of the manager pinned for the owed mint, for exactly this amount and recipient, and leaves no other delegate. |
| `Progress.SwappedNeverStranded` | programs/relayer/src/instructions/send.rs:15-71 | From every reachable state one `send` closes a swapped flow and pays its recipient the recorded amount. |
| `Progress.ReceivedNeverStranded` | programs/relayer/src/instructions/refund.rs:20-93 | From every reachable state, after a clock advance, one `refund` closes a received flow and pays it in full, if and only if its timeout fits the 64-bit clock. |
| `Progress.ClosingCallSupplies` | programs/relayer/src/instructions/send.rs:37-60 | A named call with two accounts supplies what `send` or `refund` needs, exactly for debits up to the amount. |
| `Progress.EveryFlowCanBeClosed` | programs/relayer/src/instructions/refund.rs:20-93 | From every reachable state such a call closes and pays every open flow: at once when swapped, after the wait when received, if and only if its timeout fits the 64-bit clock. |
| `Progress.AuthorityStaysEmpty` | programs/relayer/src/instructions/swap.rs:125-148 | In every run the signing account never acquires data. |
| `Progress.PrepareSucceeds` | programs/relayer/src/instructions/swap.rs:81-123 | Fee and budget are always available, and the router gets clean accounts whatever residue there was. |
| `Progress.HonestSwapSucceeds` | programs/relayer/src/instructions/swap.rs:81-167 | A router that spends exactly its budget, as delegate or as owner, and meets the floor passes every later check and fee step, whatever it writes to the other accounts it was handed and whatever delegations were standing. |
| `Progress.HonestSwapNeverBlocked` | programs/relayer/src/instructions/swap.rs:24-184 | The same from every reachable state, for any route whose entry checks pass. |
| `Progress.PoolRouteIsHonest` | programs/relayer/src/instructions/swap.rs:131-144 | A route through pool accounts that keep the input and give up the output is such a router. |
| `Payout.FloorAfterFee` | programs/relayer/src/state.rs:79-92 | A gross output at the floor leaves, after a fee within the cap, at least the floor less the fee on it, and at least nine tenths of it. |
| `Payout.EveryInstancePaidOnce` | programs/relayer/src/instructions/swap.rs:150-171 | In every run the event monitor accepts: a refund returns exactly the received amount in the original mint, never after a swap nor before the timeout counted from the slot of receipt; a send pays the net output, at least the floor on a withdraw, and on a deposit at least the floor less the charged fee on it and nine tenths of it. |
| `Payout.SwapCreditsFloor` | programs/relayer/src/instructions/swap.rs:150-171 | A swap credits the flow at least its floor, on a deposit less the fee on it at the fee live right then. |
| `Payout.EveryLoggedFeeWasLive` | programs/relayer/src/instructions/swap.rs:161-171 | In every run the rate of each logged swap is the pair's live rate for its direction in the state the swap started from. |
| `FeePayment.SwapPaysVault` | programs/relayer/src/instructions/swap.rs:81-167 | A swap adds to its pair's vault exactly the logged fee: the live share of the gross input on a withdraw, of the output on a deposit, where the rest is what the flow is credited. |
| `FeePayment.VaultGetsEveryFee` | programs/relayer/src/cpi.rs:55-80 | In every run a vault's gain from swaps is the sum of the fees they logged. |
| `Payout.AcceptedLogPaysOnce` | programs/relayer/src/instructions/send.rs:62-68 | An accepted log has as many payouts as openings, except for one instance still open. |
| `Payout.OpensEqualPayouts` | programs/relayer/src/instructions/refund.rs:84-90 | In every run, openings equal payouts plus one for an open flow. |
| `Inbox.EveryFlowIsAuthorised` | programs/relayer/src/instructions/receive.rs:38-119 | In every run each flow ever opened carries the wallet and floor its message was sent to, from an allowed sender on Fogo, on both paths. |
| `Inbox.ItemFixesUser` | programs/relayer/src/instructions/receive.rs:72-80 | Two flows opened for one inbox item, at whatever times, name one recipient and one floor. |
| `Inbox.ReceiveDebitsItsInbox` | programs/relayer/src/instructions/receive.rs:121-157 | `receive` takes exactly the flow's amount from exactly the inbox of its wallet, floor and mint. |
| `Inbox.StepConserves` | programs/relayer/src/instructions/receive.rs:38-157 | Each step conserves inbox balance plus total opened, up to what it pays in, which is never negative. |
| `Inbox.InboxConserved` | programs/relayer/src/instructions/receive.rs:38-157 | In every run, inbox balance plus everything opened from it equals its first balance plus everything paid in, even when a released item is presented again. |
| `Isolation.PairsNeverShareMints` | programs/relayer/src/instructions/initialize.rs:60-102 | In every run a pair's mints differ, and two pairs share none. |
| `Isolation.SwapUntouched` | programs/relayer/src/instructions/swap.rs:39-49 | A swap leaves every other pair's custody records, flows, configuration and slack alone. |
| `Isolation.StepUntouched` | programs/relayer/src/instructions/swap.rs:24-184 | So does every instruction, successful or not, in any state that satisfies the invariant. |
| `Isolation.InstructionsAreIsolated` | programs/relayer/src/instructions/initialize.rs:60-102 | The same from every reachable state. |
| `Quote.ComputeMsgValueAndGasLimit` | programs/intent-transfer/src/bridge/processor/bridge_ntt_tokens.rs:528-541 | The accumulated message value is 9705000 lamports, or 11744280 with rent, so no addition saturates. |
| `Quote.SucceedsIff` | programs/intent-transfer/src/bridge/processor/bridge_ntt_tokens.rs:608-697 | The computation fails only for a zero source price, a product past 128 bits, or a total past 64 bits, and otherwise equals the unbounded formula. |
| `Quote.TermIsClose` | programs/intent-transfer/src/bridge/processor/bridge_ntt_tokens.rs:625-654 | A term floored once is never below the early-floored reference and exceeds it by at most its size over 10^27, rounded up. |
| `Quote.TermAgreesIff` | programs/intent-transfer/src/bridge/processor/bridge_ntt_tokens.rs:633-651 | The two roundings of a term agree exactly when a comparison of the two remainders holds. |
| `Quote.QuoteAgreesIff` | programs/intent-transfer/src/bridge/processor/bridge_ntt_tokens.rs:625-654 | In the stated range the amount equals the reference exactly when the remainder comparison holds for both terms. |
| `Quote.OverestimatesByAtMostTwo` | programs/intent-transfer/src/bridge/processor/bridge_ntt_tokens.rs:603-697 | For every quote in the stated range the amount covers the reference and exceeds it by at most two. |
| `Quote.TwoIsReached` | programs/intent-transfer/src/bridge/processor/bridge_ntt_tokens.rs:646-651 | A concrete quote, at the typical gas limit and message value, exceeds the reference by exactly two, where the comments conclude zero. |
| `Quote.SolanaNeverOverflows` | programs/intent-transfer/src/bridge/processor/bridge_ntt_tokens.rs:656-678 | With Solana's gas limit and message value no intermediate product overflows, for any 64-bit prices and a gas price up to 10^8. |
| `Bytes.BeRoundTrip` | packages/sdk/src/bridge/vaa.ts:46-46 | Big-endian writing and reading are inverse for numbers that fit. |
| `Bytes.LeRoundTrip` | programs/relayer/src/ntt.rs:157-180 | Little-endian writing and reading are inverse for numbers that fit. |
| `Vaa.ParseVaa` | packages/sdk/src/bridge/vaa.ts:38-87 | Accepts exactly the serializations of well-formed VAAs and returns that VAA; every read is in range. |
| `Vaa.ParseSignatures` | packages/sdk/src/bridge/vaa.ts:50-58 | The loop returns the consecutive 66-byte signatures, or fails exactly when they do not fit. |
| `Vaa.VaaInjective` | packages/sdk/src/bridge/vaa.ts:38-87 | Two VAAs with one serialization are equal. |
| `Vaa.ParseTransceiver` | packages/sdk/src/bridge/vaa.ts:103-133 | Accepts exactly the payloads that start with a transceiver message and returns it. |
| `Vaa.TransceiverUnique` | packages/sdk/src/bridge/vaa.ts:103-133 | A payload starts with at most one transceiver message. |
| `Vaa.ParseManagerMessage` | packages/sdk/src/bridge/vaa.ts:152-188 | Accepts exactly the wires of manager messages and returns the message. |
| `Vaa.WireUnique` | packages/sdk/src/bridge/vaa.ts:152-188 | A wire carries at most one manager message. |
| `Preimage.LayoutRoundTrip` | programs/relayer/src/ntt.rs:53-76 | The fixed offsets read back exactly what the account layout wrote. |
| `Preimage.FillNttWire` | programs/relayer/src/ntt.rs:184-192 | Filling the 79-byte buffer slice by slice gives the big-endian transfer wire. |
| `Preimage.DeriveInboxItemPreimage` | programs/relayer/src/ntt.rs:154-210 | Refuses exactly accounts that are too short, and otherwise yields the canonical hash input of the fields. |
| `Preimage.FillHashInput` | packages/sdk/src/bridge/vaa.ts:195-200 | The buffer is the big-endian chain id followed by the wire. |
| `Preimage.ResolveNttVaa` | packages/sdk/src/bridge/vaa.ts:237-268 | Succeeds exactly when the bytes have a reading, and returns it with its hash input. |
| `Preimage.ResolvesOnce` | packages/sdk/src/bridge/vaa.ts:237-268 | A VAA has at most one reading. |
| `Preimage.PreimagesAgreeIff` | programs/relayer/src/ntt.rs:149-210 | Client and chain hash the same bytes for one message exactly when its manager payload is 145 bytes long. |
| `Preimage.PreimageInjective` | programs/relayer/src/ntt.rs:194-207 | Different chains or messages never share a hash input. |
| `Preimage.PackBe` | programs/relayer/src/ntt.rs:15-28 | Filling the 43-byte buffer gives the packed transfer arguments. |
| `Preimage.PackedInjective` | programs/relayer/src/ntt.rs:15-33 | A session authority is bound to one amount, chain, recipient and queueing choice. |
| `TokenBucket.Limiter.constructor` | packages/sdk/src/rpc/connection.ts:30-42 | A full bucket with at least one token of capacity and a positive rate. |
| `TokenBucket.Limiter.Poll` | packages/sdk/src/rpc/connection.ts:56-62 | One pass of the loop refills up to capacity and grants exactly when a whole token is there. |
| `TokenBucket.Limiter.Acquire` | packages/sdk/src/rpc/connection.ts:47-68 | With a sleep at least as long as asked, the loop gets its token in at most two passes. |
| `TokenBucket.SecondPassSucceeds` | packages/sdk/src/rpc/connection.ts:63-63 | After the requested sleep a whole token has accrued. |
| `TokenBucket.TokensConserved` | packages/sdk/src/rpc/connection.ts:56-62 | In every run grants plus tokens left are at most the first tokens plus accrual. |
| `TokenBucket.BurstBound` | packages/sdk/src/rpc/connection.ts:56-62 | Grants from the first pass on are at most the capacity plus accrual since then, whatever the bucket held. |
| `TokenBucket.WindowBound` | packages/sdk/src/rpc/connection.ts:22-29 | In every run the grants in any time window are at most capacity plus rate times its length. |
| `TokenBucket.OptionsAreKept` | packages/sdk/src/rpc/connection.ts:31-32 | Rates from 0.001 and bursts from 1 are taken as given; without a burst the capacity is one second of rate. |
| `TokenBucket.SleepIsTight` | packages/sdk/src/rpc/connection.ts:63-63 | A failed pass sleeps long enough for a whole token, and a millisecond less would be too short. |
| `TokenBucket.BurstIsServed` | packages/sdk/src/rpc/connection.ts:56-62 | As many callers of one instant as there are whole tokens are all served at once. |
| `TokenBucket.PacedCallersAreServed` | packages/sdk/src/rpc/connection.ts:22-29 | Callers that keep to the rate are never delayed. |
| `TokenBucket.RateLimitedFetch` | packages/sdk/src/rpc/connection.ts:70-81 | One call makes at most maxRetries + 1 fetches, stops at the first status other than 429, returns 429 only when all were used, and waits between them what Retry-After or the capped exponential says, plus jitter. |
| `TokenBucket.WaitsAsAsked` | packages/sdk/src/rpc/connection.ts:109-120 | With a readable Retry-After the wait is never shorter than asked and at most half as long again. |
| `TokenBucket.BackoffDoubles` | packages/sdk/src/rpc/connection.ts:78-78 | Without a header the wait starts at the base and doubles up to the cap. |
| `Nav.TrimIsStable` | packages/sdk/src/utils/min-out.ts:33-42 | Trimming leaves whole bridge units, drops less than one, and trimming again changes nothing. |
| `Nav.RedemptionIs` | packages/sdk/src/utils/onre-nav.ts:42-53 | The redemption output is the whole part of its quotient, and fails exactly past 64 bits. |
| `Nav.DepositIs` | packages/sdk/src/utils/onre-nav.ts:60-74 | The deposit output is the whole part of its quotient, and fails exactly for a zero price or past 64 bits. |
| `Nav.RoundTripLoss` | packages/sdk/src/utils/onre-nav.ts:42-74 | Depositing and redeeming at one price gains nothing and loses less than the price of one output unit plus one. |
| `Nav.DepositFloorSurvives` | packages/sdk/src/utils/min-out.ts:69-107 | A deposit floor is met at every later price within the slippage. |
| `Nav.WithdrawFloorSurvives` | packages/sdk/src/utils/min-out.ts:69-107 | A withdraw floor is met at every later price within the slippage, when the withdraw fee has not risen. |
| `Nav.FloorIsTight` | packages/sdk/src/utils/min-out.ts:100-106 | The floor is positive and the whole part of the tolerated share of the expected output: one more would exceed it. |
| `Nav.FloorSucceedsIff` | packages/sdk/src/utils/min-out.ts:69-107 | A floor is computed exactly when options and fee are in range, the output fits, and a whole unit is left. |
| `Nav.NetIs` | packages/sdk/src/utils/min-out.ts:92-93 | The withdraw fee is the whole part of its share of the input. |
| `Nav.DepositFloorIsNearlyLargest` | packages/sdk/src/utils/min-out.ts:69-107 | At the worst tolerated deposit price the output exceeds the floor by at most one unit. |
| `Nav.WithdrawFloorIsNearlyLargest` | packages/sdk/src/utils/min-out.ts:69-107 | At the worst tolerated withdraw price the output exceeds the floor by at most one unit. |
| `Nav.ParseActiveOfferVector` | packages/sdk/src/utils/onre-nav.ts:81-107 | Returns the first of the latest-started vectors, and fails exactly for short data or when none has started. |
| `Nav.ActiveIsUnique` | packages/sdk/src/utils/onre-nav.ts:76-107 | At most one slot is active. |
| `Nav.StepEndIsAhead` | packages/sdk/src/utils/onre-nav.ts:121-123 | The price is taken at the end of the current step: a whole number of steps, strictly ahead, by at most one step. |
| `Nav.VectorLayout` | packages/sdk/src/utils/onre-nav.ts:88-95 | A slot holds five little-endian numbers at fixed places: start, base time, base price, rate, step length. |
| `Nav.StepPriceIs` | packages/sdk/src/utils/onre-nav.ts:114-131 | The price is the whole part of the base price grown by the yearly rate up to the step end, and fails exactly as stated. |
| `Nav.StepPriceNeverFalls` | packages/sdk/src/utils/onre-nav.ts:114-131 | Under one vector a later price is never lower, and never below the base price. |
| `Nav.ComputeMinSwapOut` | packages/sdk/src/utils/min-out.ts:69-107 | The floor is the one at the active vector's step price, with every error case. |
| `Bounded.BoundedMap.constructor` | packages/cranker/src/utils/bounded-map.ts:17-22 | An empty map with the given limit. |
| `Bounded.BoundedMap.Set` | packages/cranker/src/utils/bounded-map.ts:24-32 | A new key at the limit first drops the oldest; the size stays within the limit. |
| `Bounded.HitsAreLastWritten` | packages/cranker/src/utils/bounded-map.ts:24-32 | After every sequence of operations the size is within the limit and every hit is the last value written. |
| `Bounded.ActsLikePlain` | packages/cranker/src/utils/bounded-map.ts:24-32 | While at most the limit of keys are live the map equals the unlimited one. |
| `Bounded.EvictionIsFifo` | packages/cranker/src/utils/bounded-map.ts:11-15 | In every run the keys stand in the order of their current insertion, so the evicted key is the one inserted longest ago. |
| `Bounded.SetDropsOnlyOldest` | packages/cranker/src/utils/bounded-map.ts:24-32 | After any history a set keeps an existing place, appends a new key, and only at the limit loses the first key, with every other entry intact. |
| `FlowTracker.FlowStateTracker.constructor` | packages/cranker/src/state/flow-state.ts:61-70 | An empty tracker with the given options. |
| `FlowTracker.FlowStateTracker.BeginIfReady` | packages/cranker/src/state/flow-state.ts:79-102 | Grants the slot exactly as the per-flow machine says; otherwise changes nothing and names what the flow is busy with. |
| `FlowTracker.FlowStateTracker.RecordSuccess` | packages/cranker/src/state/flow-state.ts:104-106 | The flow is idle again; the others keep their order and state. |
| `FlowTracker.FlowStateTracker.RecordError` | packages/cranker/src/state/flow-state.ts:108-135 | The flow cools down or is poisoned as the per-flow machine says. |
| `FlowTracker.FlowStateTracker.ClearBackoff` | packages/cranker/src/state/flow-state.ts:168-182 | Exactly the cooling and poisoned flows are dropped, and reported in their buckets. |
| `FlowTracker.AttemptsCountErrors` | packages/cranker/src/state/flow-state.ts:79-135 | In every history `attempts` is the number of errors since the last reset, and a flow is in flight exactly while a begin is unanswered. |
| `FlowTracker.BeginsAreSpaced` | packages/cranker/src/state/flow-state.ts:83-90 | Two allowed begins with no record between are at least the in-flight timeout apart. |
| `FlowTracker.PoisonedPastThreshold` | packages/cranker/src/state/flow-state.ts:115-125 | In every history a poisoned flow has at least the threshold of attempts. |
| `FlowTracker.PoisonedStaysPoisoned` | packages/cranker/src/state/flow-state.ts:96-98 | A poisoned flow is never allowed again before a clear or a recorded success. |
| `FlowTracker.PoisonedIff` | packages/cranker/src/state/flow-state.ts:115-125 | In every history a flow is poisoned exactly when its streak of errors has reached the threshold. |
| `FlowTracker.PoisonRecords` | packages/cranker/src/state/flow-state.ts:115-125 | Quarantine records the latest error class and since when it has lasted. |
| `FlowTracker.RetriedAfterWait` | packages/cranker/src/state/flow-state.ts:127-134 | After an error below the threshold the flow is dispatched again exactly once its wait, doubled per error up to the maximum, is over. |
| `FlowTracker.StaleDispatchRetried` | packages/cranker/src/state/flow-state.ts:83-90 | An unanswered dispatch is given up exactly after the in-flight timeout. |
| `FlowTracker.IdleIsDispatched` | packages/cranker/src/state/flow-state.ts:79-106 | A fresh flow, one after a success, and one cleared while not in flight is dispatched at once. |
| `FlowTracker.QuarantineTakesTime` | packages/cranker/src/state/flow-state.ts:108-135 | Under begin-then-record, quarantine comes no sooner after the first error of the streak than the sum of the back-offs below the threshold. |
| `FlowTracker.DefaultQuarantine` | packages/cranker/src/state/flow-state.ts:43-46 | With the defaults that sum is 3810000 ms. |
| `FlowTracker.FlowsAreIndependent` | packages/cranker/src/state/flow-state.ts:57-135 | While no key is evicted, each flow in the shared map follows exactly its own state machine. |
| `Watermarks.KeyIsInjective` | packages/cranker/src/state/watermarks.ts:16-18 | Two chain and emitter pairs never share a key. |
| `Watermarks.WatermarkStore.RecordSeen` | packages/cranker/src/state/watermarks.ts:63-74 | The store after one record is the specified maximum update. |
| `Watermarks.ReplayIsMax` | packages/cranker/src/state/watermarks.ts:63-74 | After any records each watermark is the maximum recorded under its key. |
| `Watermarks.OrderDoesNotMatter` | packages/cranker/src/state/watermarks.ts:56-74 | Any interleaving of the same records gives the same store. |
| `Watermarks.SnapshotWatermarks` | packages/cranker/src/state/watermarks.ts:77-83 | The loop writes every entry as decimal text. |
| `Watermarks.RestoreWatermarks` | packages/cranker/src/state/watermarks.ts:91-105 | The loop keeps exactly the entries with a chain prefix whose text `BigInt` reads. |
| `BigIntText.PrintedIsRead` | packages/cranker/src/state/watermarks.ts:80-99 | Every integer is read back from its own print, past the blank, signed, hexadecimal, octal and binary spellings that are also read. |
| `BigIntText.PlusIsRead` | packages/cranker/src/state/watermarks.ts:99-99 | Blank text is zero, and a plus sign is ignored. |
| `BigIntText.HexIsRead` | packages/cranker/src/state/watermarks.ts:99-99 | A hexadecimal spelling is read by its value. |
| `Watermarks.SnapshotRoundTripIff` | packages/cranker/src/state/watermarks.ts:77-105 | For stores of any integers, saving and restoring is the identity exactly when every key has a chain prefix. |
| `Watermarks.BuiltStoresSurvive` | packages/cranker/src/state/watermarks.ts:63-105 | Every store built by recording survives saving and restoring. |
| `Paging.PageBelowFloor` | packages/cranker/src/state/watermarks.ts:38-54 | The loop decides exactly whether the page holds nothing above a non-zero floor. |
| `Paging.HarvestVaaPages` | packages/cranker/src/utils/wormholescan-pages.ts:51-76 | With the floor looked up from the watermarks, or zero on bypass or without any: the pages are the first ones, non-empty, none after one below the floor, and there is a reason to stop. |
| `Paging.NothingAboveFloorLost` | packages/cranker/src/utils/wormholescan-pages.ts:10-17 | On any newest-first listing every sequence above the floor, and with a zero floor every sequence, among the first maxPages pages is harvested, at its place. |
| `Paging.NothingNewLost` | packages/cranker/src/utils/wormholescan-pages.ts:51-76 | With the looked-up floor, every sequence above the watermark less five is harvested, and in a backstop scan every sequence. |
| `Paging.NothingNewSinceRecordsLost` | packages/cranker/src/state/watermarks.ts:20-74 | With watermarks built by recording, every sequence above the newest recorded one less five is harvested. |
| `Paging.AtMostOnePageBelow` | packages/cranker/src/utils/wormholescan-pages.ts:72-74 | At most one page wholly at or below the floor is yielded: the last. |
| `Paging.AtMostOneOldPage` | packages/cranker/src/utils/wormholescan-pages.ts:51-76 | With the looked-up floor at most one yielded page, the last, holds nothing above the watermark less five. |
| `WorkerPool.PoolInvariant` | packages/cranker/src/utils/concurrency.ts:28-41 | In every interleaving the dispatched indices are a prefix in order, each is in flight or finished exactly once, and at most max(1, concurrency) are in flight. |
| `WorkerPool.FreeWorkerDispatches` | packages/cranker/src/utils/concurrency.ts:31-37 | While items are left and no signal was given, any free worker takes the next one. |
| `WorkerPool.EndedPoolDidItsWork` | packages/cranker/src/utils/concurrency.ts:42-45 | When all workers returned, every dispatched index finished exactly once; the abort is thrown exactly when it was asked for and some index was left out, and without an abort signal none was. |
| `WorkerPool.RunsAreFinite` | packages/cranker/src/utils/concurrency.ts:28-41 | Every run has at most two steps per item, one per worker and one for the signal. |
| `WorkerPool.NeverStuck` | packages/cranker/src/utils/concurrency.ts:30-41 | Until all workers returned, one of them can take a step. |
| `Decimal.AmountRoundTrip` | packages/cli/src/commands/intent.ts:42-57 | Printing base units and reading them back gives the same number, for every precision. |
| `Decimal.FormatIsInjective` | packages/cli/src/commands/intent.ts:53-57 | Two amounts never print the same. |
| `Decimal.FormatIsShort` | packages/cli/src/commands/intent.ts:53-57 | A printed amount has no trailing zero or dot and no superfluous leading zero. |
| `Decimal.ReadsExactly` | packages/cli/src/commands/intent.ts:42-51 | Any digits with or without a fraction are read by their value; only a fraction that is too long is refused. |
| `Decimal.OnlyAmountsAreRead` | packages/cli/src/commands/intent.ts:43-45 | Nothing but digits, or digits around one dot, is read. |
| `Intent.ParseSignedMinOuts` | packages/sdk/src/bridge/signed-intent.ts:66-78 | The loop returns the matched floors within 64 bits, in order and without repeats. |
| `Intent.FindsEveryFloorIff` | packages/sdk/src/bridge/signed-intent.ts:23-78 | The pattern matches every line that states a floor exactly when no two consecutive lines state one. |
| `Intent.ReturnsEveryFloorIff` | packages/sdk/src/bridge/signed-intent.ts:60-78 | The returned values are all stated 64-bit floors exactly when each one on a missed line (second, fourth, ... of a block of stating lines) is also on a matched one. |
| `Intent.FloorsAreStated` | packages/sdk/src/bridge/signed-intent.ts:60-78 | No value is returned that no line states. |
| `Intent.MissedIffAdjacent` | packages/sdk/src/bridge/signed-intent.ts:27-27 | A line is missed exactly when two consecutive lines state a floor. |
| `Intent.SecondFloorMissed` | packages/sdk/src/bridge/signed-intent.ts:60-78 | Of two consecutive stating lines the second is not matched, and a different second floor is not returned. |
| `Intent.SignedFloorReadBack` | packages/sdk/src/builders/intent-transfer.ts:60-80 | From a built intent with newline-free fields exactly the signed floor is read, when it fits 64 bits, and nothing else. |
| `Intent.FieldsReadBack` | packages/sdk/src/builders/intent-transfer.ts:63-79 | Every field of a built intent stands under its own label, whatever newline-free text the others hold. |
| `Ed25519.IndexOfBytes` | packages/sdk/src/builders/intent-transfer.ts:91-93 | The first occurrence, or none if there is none. |
| `Ed25519.BuildIntentVerifierIx` | packages/sdk/src/builders/intent-transfer.ts:95-134 | Builds the short form exactly when the key occurs in the message, pointing at its first occurrence. |
| `Ed25519.FillVerifierData` | packages/sdk/src/builders/intent-transfer.ts:113-127 | Writing the buffer field by field gives the header, the signature and the message. |
| `Ed25519.Ed25519InlineMessages` | packages/sdk/src/bridge/signed-intent.ts:36-58 | The loop returns the inline message of every complete entry, in order. |
| `Ed25519.InlineMessageIff` | packages/sdk/src/bridge/signed-intent.ts:36-58 | A message is returned exactly when an announced, complete, inline and in-range entry carries it, at the positions of the precompile. |
| `Ed25519.VerifierRoundTrip` | packages/sdk/src/builders/intent-transfer.ts:106-127 | When lengths fit 16 bits the reader gets exactly the original message, and the one entry points, in this instruction, at the signature and at the signer's key. |

## Left out

- The internals of the NTT manager, Wormhole, SPL Token, OnRe and routers: they are environment steps with small contracts. NTT debits at most the approved amount and fixes an item's amount when it creates the item; SPL bounds a delegate by allowance and balance and clears it at zero; balances do not overflow, because a mint's supply is 64 bits wide; the runtime bars re-entry.
- Token-2022 extensions: a transfer credits exactly what it debits. The program also accepts mints of the newer token program; for a mint with a transfer fee `receive` would record more than custody got, and solvency would not hold.
- Signature checks, keccak and the address search: addresses are values built from their seeds.
- The account lists handed to NTT by `send` and `refund`, and the unpinned slots of `receive`: only the split and the presence of the session and relayer authorities are modelled. NTT itself insists on the peer of the chain a message came from.
- A router's effects on accounts that hold no tokens, other than the relayer authority: no property here reads them.
- Closing of custody and inbox token accounts: both are owned by program addresses that never sign a close.
- Creation and rotation of the global admin: easy members; the admin is a fixed parameter.
- `resolve_recipient`, `process_ntt_bridge` and the parsers of intent text on chain: the parsers rest on a crate that is not part of this model.
- "One flow for each message for all time" is not claimed: a released item can be presented again once its flow closed; conservation per inbox is what holds.
- "The watermark never passes an unprocessed message" is not claimed: recording is a plain maximum.
- Bounded.BoundedMap.constructor: requires a positive limit, where the source throws on any other.
- FlowTracker.FlowStateTracker.constructor: requires a positive limit, for the same reason.
- TokenBucket.Limiter.Acquire: uses exact reals, a clock that does not go backward, and one caller at a time; the promise chain that serializes callers is represented by that order.
- TokenBucket.RateLimitedFetch: takes a Retry-After header as the number or date it reads as; the spelling of numbers and dates is not modelled.
- Intent.ParseSignedMinOuts: works on characters; decoding UTF-8, and the binary envelope of hardware wallets, are not modelled.
- Ed25519.BuildIntentVerifierIx: the long form, written by a library when the key does not occur in the message, is not modelled.
- `stuckCounts`, `inspect`, the offer-buffer test helper and `WakeFlag`: easy members without a property across operations.
- The cranker's network drivers, the keeper, metrics, configuration, command-line commands and generated types: input and output.
