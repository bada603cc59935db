# ICS-20 swap endpoint: receive, reply and settlement

This project models the packet state machine of the `ics20-swap` CosmWasm contract
(`contracts/ics20-swap/src/ibc.rs`). The contract is an ICS-20 fungible-token-transfer
endpoint. An inbound transfer may carry an Osmosis action: swap, join or exit a pool,
create a lockup sub-account, or lock, claim or unlock through that account. The model
covers these parts of the contract:

- **Handshake guard.** Opening and connecting a channel require version `ics20-1` on
  this side, `ics20-1` on the counterparty whenever it states a version, and an
  unordered channel. Connecting records the channel. A close
  started on this side is refused.
- **Voucher parser.** `splitn(3, '/')` of the denomination must give the packet's
  source port and channel followed by the local denomination.
- **Receive pipeline.** The pipeline decodes the packet and resolves its voucher. It
  debits the escrow of (destination channel, local denom) and saves the single
  continuation record (`REPLY_ARGS`). Then it issues exactly one sub-message, chosen
  by the action, and acknowledges optimistically. Every error becomes an error
  acknowledgement with no sub-message.
- **Reply continuations.** The reply id selects what happens next:
  - credit the swap, pool or claim output;
  - give the debit back when the sub-call failed;
  - bind the new lockup account;
  - or only report.
- **Settlement.** A success acknowledgement changes nothing. An error acknowledgement
  or a timeout debits (source channel, denom) and refunds the sender.

Layout:

- `wrappers.dfy` holds Option and Result.
- `types.dfy` holds the entities: packets, acknowledgements, sub-messages, replies,
  errors and the storage `Store`.
- `voucher.dfy`, `handshake.dfy`, `ledger.dfy`, `receive.dfy`, `replies.dfy` and
  `settlement.dfy` are the specification. Each is a pure function from the old
  storage to a `Step`, which is the new storage plus a result.
- `contract.dfy` is the contract as a class. Its fields are the storage maps and the
  continuation slot, and its methods update them step by step. Each method is proved
  to produce exactly the storage and result of its specification function.
- `scenarios.dfy` holds properties that span several entry points. It also replays
  the exchanges of the contract's own unit tests, with their numbers.

The parts of the host the code calls into are parameters of the model:

- The JSON and protobuf decoders are `Wire<T>` values or fields of
  `SubMsgResponse` that are already decoded.
- The pool-id parser is `Env.parsePoolId`.
- The contract address is `Env.contractAddress`.

The ledger helpers live in `state.rs`, which is not part of this model. The model
gives them this behaviour:

- A debit fails with InsufficientFunds when the (channel, denom) pair was never
  credited or holds less than the amount. It never touches the total sent. The
  unit tests expect these refusals.
- A credit raises both the outstanding escrow and the total sent. The unit tests
  expect the resulting counters after swap, pool and claim replies.
- Giving a debit back (`restore_balance_reply`) raises the outstanding escrow
  only. No unit test checks the counters after a restoring reply, so this is an
  assumption of the model (see "## Left out").

`REPLY_ARGS` is loaded by the reply handlers and never cleared, as the code does.
The code debits the escrow and saves the continuation before it checks an action's
preconditions. The model keeps that order, so an action refused after the debit
leaves the debit in place (`Scenarios.RejectedActionKeepsDebit`).

## Model

| member | source | states |
|---|---|---|
| Ics20Types.AckSuccess | contracts/ics20-swap/src/ibc.rs:40-43 | the success acknowledgement is the result `1`; pinned by the ack ensures of `Receive.Dispatch` and `Receive.ReceivePacket` |
| Ics20Types.AckSuccessWithBody | contracts/ics20-swap/src/ibc.rs:34-37 | a success acknowledgement carries the given body as its result; pinned by `Replies.GammReplyCreditsOutput`, `Replies.ClaimReplyCreditsCoin`, `Replies.LockupReplyBinds` and `Replies.LockReplyPassesData` |
| Ics20Types.AckFail | contracts/ics20-swap/src/ibc.rs:46-49 | an error acknowledgement carries the given reason; pinned by `Replies.ReplyAckOnError`, `Replies.FailedReplyKeepsState` and `Receive.ReceiveRejectedBeforeDebit` |
| Voucher.Find | contracts/ics20-swap/src/ibc.rs:303 | the result is the index of the first occurrence of the separator, and None exactly when it does not occur |
| Voucher.SplitOnce | contracts/ics20-swap/src/ibc.rs:303 | None exactly when the separator is absent; otherwise the two parts joined by the separator give the input back, and the first part holds no separator |
| Voucher.SplitN3 | contracts/ics20-swap/src/ibc.rs:303 | `splitn(3, '/')`: one to three parts; the parts joined with '/' give the input back; only the last part may hold a '/' |
| Voucher.ParseVoucher | contracts/ics20-swap/src/ibc.rs:299-322 | an accepted voucher is exactly source port + "/" + source channel + "/" + the returned denom; every refusal is NoForeignTokens, FromOtherPort or FromOtherChannel |
| Voucher.SplitN3Of | contracts/ics20-swap/src/ibc.rs:303 | "p/c/d" splits into [p, c, d] whenever p and c hold no '/', whatever d holds |
| Voucher.VoucherRoundTrip | contracts/ics20-swap/src/ibc.rs:299-322 | prefixing a denom with the source port and channel and parsing it gives the denom back, including denoms such as "gamm/pool/1" |
| Voucher.VoucherTooFewParts | contracts/ics20-swap/src/ibc.rs:303-306 | a denomination with fewer than three parts is refused with NoForeignTokens |
| Voucher.VoucherFromOtherPort | contracts/ics20-swap/src/ibc.rs:308-312 | a first part other than the source port is refused with FromOtherPort naming that part |
| Voucher.VoucherFromOtherChannel | contracts/ics20-swap/src/ibc.rs:313-317 | a right port with another channel is refused with FromOtherChannel naming that channel |
| Handshake.EnforceOrderAndVersion | contracts/ics20-swap/src/ibc.rs:243-263 | succeeds exactly when the version is ics20-1, the counterparty version is absent or ics20-1, and the channel is unordered; a bad own version is reported first, then a bad counterparty version, and with both versions right an ordered channel is OnlyOrderedChannel |
| Handshake.ChannelOpen | contracts/ics20-swap/src/ibc.rs:212-220 | opening succeeds exactly under the version and ordering conditions |
| Handshake.ChannelConnect | contracts/ics20-swap/src/ibc.rs:224-241 | succeeds exactly when opening would; on success the channel is recorded under its own id, with that id, its counterparty and its connection; no channel record is added under any other id, other channel records and all other storage are unchanged; on failure nothing changes |
| Handshake.ChannelClose | contracts/ics20-swap/src/ibc.rs:266-276 | a counterparty-confirmed close is accepted; a locally started close fails with CannotClose |
| Ledger.ReduceChannelBalance | contracts/ics20-swap/src/ibc.rs:338 | fails with InsufficientFunds exactly when the pair is absent or short; otherwise the outstanding escrow drops by the amount, the total sent stays, and every other pair is unchanged |
| Ledger.IncreaseChannelBalance | contracts/ics20-swap/src/ibc.rs:95-100 | outstanding escrow and total sent both grow by the amount; every other pair is unchanged |
| Ledger.RestoreChannelBalance | contracts/ics20-swap/src/ibc.rs:105 | outstanding escrow grows by the amount, the total sent stays, and every other pair is unchanged |
| Ledger.RestoreUndoesReduce | contracts/ics20-swap/src/ibc.rs:338 | giving back a debit that succeeded yields exactly the ledger before it |
| Ledger.ReduceByZero | contracts/ics20-swap/src/ibc.rs:338 | a zero debit of a recorded pair leaves the ledger as it was |
| Receive.Nonpayable | contracts/ics20-swap/src/ibc.rs:619-625 | accepts exactly a zero amount, and otherwise fails with NonPayable |
| Receive.SendAmount | contracts/ics20-swap/src/ibc.rs:697-705 | a bank send of exactly the given coin to the recipient; pinned by the no-action ensures of `Receive.Dispatch` and by `Receive.ReceivePaysReceiver` |
| Receive.CreateLockupMsg | contracts/ics20-swap/src/ibc.rs:610-617 | an execute on the given sub-account with the given funds; pinned by the lock, claim and unlock ensures of `Receive.Dispatch` |
| Receive.SwapReceive | contracts/ics20-swap/src/ibc.rs:394-431 | a swap issued by this contract spending exactly the escrowed coin, under SWAP_ID, always reported; pinned by the swap ensures of `Receive.Dispatch` |
| Receive.ReceiveJoinPool | contracts/ics20-swap/src/ibc.rs:433-461 | a single-asset join issued by this contract spending exactly the escrowed coin, under JOIN_POOL_ID, always reported; pinned by the join ensures of `Receive.Dispatch` |
| Receive.ReceiveExitPool | contracts/ics20-swap/src/ibc.rs:463-490 | succeeds exactly when the pool id parses from the escrowed denom, else fails with the parser's error; on success one exit issued by this contract for that pool, with the escrowed amount as share amount |
| Receive.ReceiveCreateLockup | contracts/ics20-swap/src/ibc.rs:492-524 | succeeds exactly when (channel, sender) is unbound and the configuration exists; a bound pair is OnlyLockupByChannel, a missing configuration NotFound; on success one instantiation with no admin, an init message naming this contract, and no funds |
| Receive.ReceiveLockTokens | contracts/ics20-swap/src/ibc.rs:526-558 | succeeds exactly when (channel, sender) is bound, else LockupNotFound; on success one execute on the bound sub-account carrying exactly the escrowed coin |
| Receive.ReceiveClaimTokens | contracts/ics20-swap/src/ibc.rs:560-583 | succeeds exactly when (channel, sender) is bound, else LockupNotFound; on success one execute on the bound sub-account with no funds |
| Receive.ReceiveUnlockTokens | contracts/ics20-swap/src/ibc.rs:585-608 | succeeds exactly when (channel, sender) is bound, else LockupNotFound; on success one execute on the bound sub-account with no funds |
| Receive.ActionRejection | contracts/ics20-swap/src/ibc.rs:349-375 | the reference for the action preconditions in the order the code checks them (non-payable first, then binding and configuration, or the pool-id parse); pinned by the Err-iff ensures of `Receive.Dispatch` and by `Receive.ReceiveAckFollowsPreconditions` |
| Receive.Dispatch | contracts/ics20-swap/src/ibc.rs:350-391 | fails exactly when an action precondition fails, and then with the first failing precondition's error; on success the ack is the "1" success and there is exactly one sub-message, whose reply id and reply-on policy the action table gives, and whose target and funds are: a bank send of the escrowed coin to the packet's receiver (no action); a swap, join or exit issued by this contract with the escrowed coin as token in (the exit with its amount as share amount and the pool id parsed from its denom); an instantiation of the stored code id with no admin, an init message naming this contract as the lockup's admin, label "Lockup " + channel and no funds; a lock on the sender's bound sub-account carrying the escrowed coin; a claim or unlock on that sub-account with no funds |
| Receive.DoReceive | contracts/ics20-swap/src/ibc.rs:325-392 | the receive work never changes lockup bindings, channel records or configuration |
| Receive.ReceivePacket | contracts/ics20-swap/src/ibc.rs:279-297 | never fails; an error ack carries no sub-message; a success ack is the "1" success, and its one sub-message has the action's reply id and policy; a success needs a decoded packet whose voucher resolves, and its response is `Receive.Dispatch` of the packet with the escrowed coin (local denom, packet amount) from the debited storage, so it has the target and funds stated there |
| Receive.ReceivePaysReceiver | contracts/ics20-swap/src/ibc.rs:338-381 | a covered plain transfer is acknowledged with the "1" success and issues exactly one bank send of the amount, in the local denom, to the packet's receiver, under RECEIVE_ID and reported only on error |
| Receive.ReceiveRejectedBeforeDebit | contracts/ics20-swap/src/ibc.rs:330-336 | an undecodable packet or a refused voucher gives an error ack carrying that error, and the storage is untouched |
| Receive.ReceiveInsufficientFunds | contracts/ics20-swap/src/ibc.rs:338-347 | when the (destination channel, local denom) pair is absent or its escrow cannot cover the amount, the ack is InsufficientFunds, nothing is issued, and the storage (the continuation slot included) is untouched |
| Receive.ReceiveDebits | contracts/ics20-swap/src/ibc.rs:338-347 | a covered transfer lowers the escrow by exactly the amount, leaves the total sent and every other pair alone, and saves (destination channel, local denom, amount, sender) as the continuation |
| Receive.RejectionFramed | contracts/ics20-swap/src/ibc.rs:499-503 | only the lockup bindings and the configuration decide whether an action is refused |
| Receive.ReceiveAckFollowsPreconditions | contracts/ics20-swap/src/ibc.rs:350-375 | after a successful debit, the ack is a success exactly when the action's preconditions hold; otherwise it carries the first failing one |
| Replies.KindOf | contracts/ics20-swap/src/ibc.rs:63-80 | each of the nine reply ids selects its own continuation, and any other id selects none |
| Replies.RestoreBalanceReply | contracts/ics20-swap/src/ibc.rs:105 | fails exactly when no continuation was saved; otherwise only the ledger changes, and the saved amount is given back to the saved (channel, denom) |
| Replies.RestoreAndFail | contracts/ics20-swap/src/ibc.rs:103-113 | gives back the saved debit and acknowledges the failure message; pinned by `Replies.FailedReplyRestoresDebit` |
| Replies.ReplyGammResult | contracts/ics20-swap/src/ibc.rs:82-115 | a readable result credits the output and acknowledges it, anything else restores the debit; pinned by `Replies.GammReplyCreditsOutput` and `Replies.FailedReplyRestoresDebit` |
| Replies.ReplyLockupAccount | contracts/ics20-swap/src/ibc.rs:117-143 | a readable instantiation binds the account, an unreadable one or a failed call only reports; pinned by `Replies.LockupReplyBinds`, `Replies.UnreadableLockupReplyKeepsState` and `Replies.FailedReplyKeepsState` |
| Replies.ReplyClaimResult | contracts/ics20-swap/src/ibc.rs:145-174 | a returned coin is credited and acknowledged, missing data is a hard error, a failed call restores the debit; pinned by `Replies.ClaimReplyCreditsCoin`, `Replies.MissingDataIsHardError` and `Replies.FailedReplyRestoresDebit` |
| Replies.ReplyAckFromData | contracts/ics20-swap/src/ibc.rs:176-191 | the response bytes pass through, missing data is a hard error, a failed call restores the debit; pinned by `Replies.LockReplyPassesData`, `Replies.MissingDataIsHardError` and `Replies.FailedReplyRestoresDebit` |
| Replies.ReplyReceive | contracts/ics20-swap/src/ibc.rs:200-208 | a successful payout is silent and a failed one restores the debit; pinned by `Replies.QuietSuccess` and `Replies.FailedReplyRestoresDebit` |
| Replies.ExecuteResponseData | contracts/ics20-swap/src/ibc.rs:148-151 | succeeds exactly when the response carries decodable inner data, and then returns that inner data; an absent response or decoded response without inner data is MissingReplyData; an undecodable response is an External error carrying the decoder's reason |
| Replies.ReplyAckOnError | contracts/ics20-swap/src/ibc.rs:193-198 | never fails; success sets no data; failure sets an error ack whose message is the sub-call's error text |
| Replies.HandleReply | contracts/ics20-swap/src/ibc.rs:63-208 | a hard error changes nothing; the continuation slot, channel records and configuration never change; only a lockup creation whose instantiation result can be read changes bindings; only the six restoring or crediting ids change the ledger; an unknown id is refused; a failed sub-call that does not hit a hard error ends as an error ack with its message |
| Replies.GammReplyCreditsOutput | contracts/ics20-swap/src/ibc.rs:82-101 | a swap, join or exit result credits its output to the saved channel (escrow and total sent) and acknowledges the `{denom, amount}` record |
| Replies.ClaimReplyCreditsCoin | contracts/ics20-swap/src/ibc.rs:145-168 | a claim result credits the returned coin (escrow and total sent) to the saved channel, leaves every other pair and all other storage alone, and acknowledges it |
| Replies.MissingDataIsHardError | contracts/ics20-swap/src/ibc.rs:148-151 | a claim or lock reply without inner data fails with MissingReplyData and changes nothing |
| Replies.FailedReplyRestoresDebit | contracts/ics20-swap/src/ibc.rs:103-113 | a failed payout, swap, pool, lock or claim call gives back the saved debit (escrow only) and acknowledges the failure message |
| Replies.FailedReplyKeepsState | contracts/ics20-swap/src/ibc.rs:117-143 | a failed unlock, refund or lockup creation changes no state and acknowledges the failure message |
| Replies.UnreadableLockupReplyKeepsState | contracts/ics20-swap/src/ibc.rs:117-143 | a lockup creation that ran but whose instantiation result cannot be read binds nothing, changes no state, and acknowledges the reader's message as a failure |
| Replies.LockupReplyBinds | contracts/ics20-swap/src/ibc.rs:117-137 | a created lockup account is bound to the saved (channel, sender) and acknowledged with its address |
| Replies.LockReplyPassesData | contracts/ics20-swap/src/ibc.rs:176-185 | a successful lock passes the sub-account's response bytes through as the ack |
| Replies.QuietSuccess | contracts/ics20-swap/src/ibc.rs:193-204 | a successful payout, unlock or refund changes nothing and sets no data |
| Settlement.OnPacketSuccess | contracts/ics20-swap/src/ibc.rs:653-668 | succeeds exactly when the packet decodes, and then issues nothing |
| Settlement.RefundOf | contracts/ics20-swap/src/ibc.rs:679-681 | the refund of the packet's amount and denom to its sender under ACK_FAILURE_ID, reported only on error; pinned by `Settlement.OnPacketFailure` and `Settlement.PacketTimeout` |
| Settlement.OnPacketFailure | contracts/ics20-swap/src/ibc.rs:670-695 | settles the packet as failed (`Settlement.FailureSettled`): succeeds exactly when the packet decodes and the escrow of its (source channel, denom) pair exists and covers the amount; an undecodable packet is an External error and a decoded one that is not covered is InsufficientFunds; on success the escrow of (source channel, denom) drops by the amount, the total sent and other pairs stay, and exactly one refund bank send to the sender is issued under ACK_FAILURE_ID, reported on error; on failure nothing changes; only the ledger ever changes |
| Settlement.PacketAck | contracts/ics20-swap/src/ibc.rs:629-639 | an undecodable ack is an External error and changes nothing; a success ack changes nothing, issues nothing, and is accepted exactly when the packet decodes (an undecodable packet is an External error); an error ack settles the packet as failed (`Settlement.FailureSettled`): the refund is issued exactly when the packet decodes and its (source channel, denom) escrow covers the amount, an uncovered packet is InsufficientFunds and an undecodable one External with nothing changed, and on success that escrow drops by the amount while the total sent and every other pair stay; only the ledger ever changes |
| Settlement.PacketTimeout | contracts/ics20-swap/src/ibc.rs:643-651 | settles the packet as failed (`Settlement.FailureSettled`): the one refund to the sender is issued exactly when the packet decodes and its (source channel, denom) escrow covers the amount; an uncovered packet is InsufficientFunds and an undecodable one External, with nothing changed; on success that escrow drops by the amount, the total sent and every other pair stay, and only the ledger changes |
| Settlement.FailureReasonIrrelevant | contracts/ics20-swap/src/ibc.rs:670-695 | the failure reason only labels the event and changes neither the storage nor the refund |
| Settlement.ErrorAckSettlesLikeTimeout | contracts/ics20-swap/src/ibc.rs:629-651 | an error ack and a timeout settle a packet identically |
| Settlement.FailureInsufficientFunds | contracts/ics20-swap/src/ibc.rs:677 | a failure whose escrow pair is absent or cannot cover the amount fails with InsufficientFunds and changes nothing |
| Contract.Ics20Contract.IncreaseChannelBalance | contracts/ics20-swap/src/ibc.rs:95-100 | the ledger field becomes the specified credit of the old ledger |
| Contract.Ics20Contract.ReduceChannelBalance | contracts/ics20-swap/src/ibc.rs:338 | the ledger field becomes the specified debit, or stays unchanged with the debit's error |
| Contract.Ics20Contract.RestoreBalanceReply | contracts/ics20-swap/src/ibc.rs:105 | the storage becomes the specified restoration, or stays unchanged with its error |
| Contract.Ics20Contract.ChannelConnect | contracts/ics20-swap/src/ibc.rs:224-241 | the storage and result are those of `Handshake.ChannelConnect` |
| Contract.Ics20Contract.PacketReceive | contracts/ics20-swap/src/ibc.rs:279-297 | the storage and acknowledgement are those of `Receive.ReceivePacket` |
| Contract.Ics20Contract.DoPacketReceive | contracts/ics20-swap/src/ibc.rs:325-392 | the storage and result are those of `Receive.DoReceive`, including the debit kept when the action is refused |
| Contract.Ics20Contract.Reply | contracts/ics20-swap/src/ibc.rs:63-80 | the storage and result are those of `Replies.HandleReply` |
| Contract.Ics20Contract.RestoreAndFail | contracts/ics20-swap/src/ibc.rs:105-106 | restores the debit and then acknowledges the failure, as `Replies.RestoreAndFail` |
| Contract.Ics20Contract.ReplyGammResult | contracts/ics20-swap/src/ibc.rs:82-115 | the storage and result are those of `Replies.ReplyGammResult` |
| Contract.Ics20Contract.ReplyLockupAccount | contracts/ics20-swap/src/ibc.rs:117-143 | the storage and result are those of `Replies.ReplyLockupAccount` |
| Contract.Ics20Contract.ReplyClaimResult | contracts/ics20-swap/src/ibc.rs:145-174 | the storage and result are those of `Replies.ReplyClaimResult` |
| Contract.Ics20Contract.ReplyAckFromData | contracts/ics20-swap/src/ibc.rs:176-191 | the storage and result are those of `Replies.ReplyAckFromData` |
| Contract.Ics20Contract.ReplyReceive | contracts/ics20-swap/src/ibc.rs:200-208 | the storage and result are those of `Replies.ReplyReceive` |
| Contract.Ics20Contract.PacketAck | contracts/ics20-swap/src/ibc.rs:629-639 | the storage and result are those of `Settlement.PacketAck` |
| Contract.Ics20Contract.PacketTimeout | contracts/ics20-swap/src/ibc.rs:643-651 | the storage and result are those of `Settlement.PacketTimeout` |
| Contract.Ics20Contract.OnPacketFailure | contracts/ics20-swap/src/ibc.rs:670-695 | the storage and result are those of `Settlement.OnPacketFailure` |
| Scenarios.FailedContinuationRestoresEscrow | contracts/ics20-swap/src/ibc.rs:338-347 | an accepted transfer whose payout, swap, pool, lock or claim call then fails ends with exactly the ledger from before the packet, and with the failure as the ack |
| Scenarios.RejectedActionKeepsDebit | contracts/ics20-swap/src/ibc.rs:338-375 | an action refused after the debit gets an error ack, but the escrow stays reduced by the amount |
| Scenarios.SecondLockupRefused | contracts/ics20-swap/src/ibc.rs:492-502 | a second lockup account for the same (channel, sender) is refused with OnlyLockupByChannel, and the ledger and bindings are unchanged |
| Scenarios.FailedRefundKeepsDebit | contracts/ics20-swap/src/ibc.rs:670-695 | when the refund of a failed or timed-out packet itself fails, the reply only reports it, and the escrow stays debited |
| Scenarios.ReceiveBeforeSendScenario | contracts/ics20-swap/src/ibc.rs:904-909 | nothing can be received on a channel before anything was sent over it |
| Scenarios.ReceiveMoreThanSentScenario | contracts/ics20-swap/src/ibc.rs:925-929 | 1876543210 uatom cannot come back when only 987654321 were sent |
| Scenarios.NativeReceiveScenario | contracts/ics20-swap/src/ibc.rs:931-946 | 876543210 uatom are paid to local-rcpt, reported on error; 111111111 stay outstanding, and 987654321 stay sent |
| Scenarios.NativeReceiveStep | contracts/ics20-swap/src/ibc.rs:931-946 | the same payment from any storage holding 987654321 sent, for any matching packet |
| Scenarios.SwapScenario | contracts/ics20-swap/src/ibc.rs:949-1020 | the swap is issued with the contract as sender; its 36601070 uosmo result is credited (outstanding and sent) and acknowledged; uatom ends at 111111111 / 987654321 |
| Scenarios.SwapStep | contracts/ics20-swap/src/ibc.rs:983-989 | the swap of 876543210 uatom is issued under SWAP_ID, and the amount is debited |
| Scenarios.SwapReplyScenario | contracts/ics20-swap/src/ibc.rs:991-1019 | the swap's reply credits 36601070 uosmo to the channel and acknowledges it |
| Scenarios.JoinStep | contracts/ics20-swap/src/ibc.rs:1061-1067 | the join of 876543210 uosmo is issued under JOIN_POOL_ID, and the amount is debited |
| Scenarios.JoinReplyStep | contracts/ics20-swap/src/ibc.rs:1069-1079 | the join's reply credits 74196993097318119147 pool shares and acknowledges them |
| Scenarios.ExitStep | contracts/ics20-swap/src/ibc.rs:1081-1087 | the exit of 74196992097318119147 shares of pool 1 is issued under EXIT_POOL_ID, and the shares are debited |
| Scenarios.ExitReplyStep | contracts/ics20-swap/src/ibc.rs:1089-1116 | the exit's reply credits 9970022 uosmo and acknowledges them |
| Scenarios.JoinHalf | contracts/ics20-swap/src/ibc.rs:1061-1079 | the join is issued, and its reply leaves the pool shares credited beside the debited uosmo |
| Scenarios.ExitHalf | contracts/ics20-swap/src/ibc.rs:1081-1116 | the exit is issued, and its reply leaves 1000000000000 shares and 121081133 uosmo outstanding |
| Scenarios.LiquidityScenario | contracts/ics20-swap/src/ibc.rs:1022-1117 | the whole join-then-exit exchange, ending at shares 1000000000000 / 74196993097318119147 and uosmo 121081133 / 997624343 (outstanding / sent) |
| Scenarios.JoinPoolFailureScenario | contracts/ics20-swap/src/ibc.rs:1302-1339 | a join of all 1000 uosmo sent issues one sub-message and debits everything; its failure restores 1000 and acknowledges "Invalid operation" |
| Scenarios.ZeroValueReceive | contracts/ics20-swap/src/ibc.rs:338-347 | a zero-value transfer debits nothing: only the continuation slot is rewritten before dispatching |
| Scenarios.UnlockWithoutAccountStep | contracts/ics20-swap/src/ibc.rs:1146-1152 | unlocking without an account is refused with LockupNotFound, and nothing is issued |
| Scenarios.CreateLockupStep | contracts/ics20-swap/src/ibc.rs:1154-1159 | creating the account issues an instantiation of the configured code, labelled "Lockup channel-9", under LOCKUP_ID |
| Scenarios.LockStep | contracts/ics20-swap/src/ibc.rs:1170-1186 | locking forwards the 54321 escrowed shares to the bound account under LOCK_TOKEN_ID, reported always, and debits them |
| Scenarios.UnlockStep | contracts/ics20-swap/src/ibc.rs:1188-1201 | unlocking asks the bound account with no funds under UNLOCK_TOKEN_ID, reported on error |
| Scenarios.ClaimStep | contracts/ics20-swap/src/ibc.rs:1266-1281 | claiming asks the bound account with no funds under CLAIM_TOKEN_ID, reported always |
| Scenarios.LockupAccountScenario | contracts/ics20-swap/src/ibc.rs:1146-1168 | unlock refused, account created, and its reply binds "lockup-addr" |
| Scenarios.LockupActionsScenario | contracts/ics20-swap/src/ibc.rs:1170-1201 | the lock is issued and stays debited, and the unlock is issued; 987600000 stay outstanding |
| Scenarios.LockupScenario | contracts/ics20-swap/src/ibc.rs:1119-1217 | the whole lockup exchange: the unlock's failure is reported, and the channel ends at 987600000 outstanding / 987654321 sent |
| Scenarios.ClaimScenario | contracts/ics20-swap/src/ibc.rs:1219-1300 | account created and bound; the claim's 45679 uosmo reply is credited (987700000 outstanding and sent) and acknowledged |
| Scenarios.ClaimReplyStep | contracts/ics20-swap/src/ibc.rs:1283-1299 | the claim's reply credits the returned coin to the channel and acknowledges it |

## Left out

- Wire encodings are taken as already decoded: the JSON packet and ack bodies, the
  protobuf sub-message contents, the execute-response and instantiate-response
  parsers, the pool-module event parser and the pool-id parser. A decoder failure
  is an opaque error carrying its message.
- Event attributes (`add_attribute`, `attr`) are logging only and are not modelled.
- The display text of contract errors comes from `error.rs`, which is not part of
  this model. An error acknowledgement carries the error value itself, or the
  message the host or a decoder gave.
- Token amounts are unbounded naturals. The u128 overflow the ledger helpers would
  report is not modelled.
- The ledger helpers, the storage items and the query and outbound transfer paths
  live in `state.rs` and `contract.rs`, which are not part of this model. The model
  starts from a storage value, and `Scenarios.AfterTransfer` stands for a completed
  outbound transfer.
- Whether the host discards the storage writes of a receive whose acknowledgement
  is an error is host behaviour. The model keeps the code's order literally (debit,
  then continuation, then the action's checks) and claims no rollback.
- The `panic!()` on close variants other than CloseInit and CloseConfirm is host
  enum exhaustiveness. The model has only the two variants.
- `packages/osmo-proto/src/paths/osmosis.lockup.rs` only returns constant type-URL
  strings, so there is no behaviour to model.
- The route list of a swap is carried over as is. The field-by-field mapping into
  the Osmosis message type is not modelled.
- `restore_balance_reply` lives in `state.rs`, which is not part of this model. The
  model assumes it raises the outstanding escrow of the saved pair by the saved
  amount and leaves the total sent alone; no unit test checks the counters after a
  restoring reply. `Ledger.RestoreChannelBalance`, `Ledger.RestoreUndoesReduce` and
  `Scenarios.FailedContinuationRestoresEscrow` rest on this assumption.
- The unit tests' remote port constant is not part of this model. Their packets
  come from the endpoint ("transfer", "channel-1234").
- Scenarios.ReceiveBeforeSendScenario: the test starts from a contract that has
  channels registered. The model starts from storage with no ledger entries, which is
  the only part of the storage the receive reads.
