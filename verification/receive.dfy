/**
 * The receive pipeline: decode the transfer, resolve its voucher, debit the escrow,
 * save the continuation record, then issue exactly one sub-message chosen by the
 * embedded action and acknowledge optimistically. Every error becomes an error
 * acknowledgement with no sub-message.
 */
module Receive {
  import opened Wrappers
  import opened Ics20Types
  import Voucher
  import Ledger

  /** A bank transfer of `amount` to `recipient`. */
  function SendAmount(amount: Coin, recipient: string): CosmosMsg
  {
    BankSend(recipient, [amount])
  }

  /** Actions that move no value refuse a transfer that carries some. */
  function Nonpayable(amount: Coin): (r: Result<(), ContractError>)
    ensures r.Ok? <==> amount.amount == 0
    ensures r.Err? ==> r.error == NonPayable
  {
    if amount.amount == 0 then Ok(()) else Err(NonPayable)
  }

  /** A call on the lockup sub-account contract. */
  function CreateLockupMsg(contractAddr: string, msg: LockupExecuteMsg, funds: seq<Coin>): CosmosMsg
  {
    WasmExecute(contractAddr, msg, funds)
  }

  /** The optimistic response that issues `submsg`. */
  function Issue(submsg: SubMsg): ReceiveResponse
  {
    ReceiveResponse(AckSuccess(), [submsg])
  }

  function SwapReceive(swap: SwapPacket, tokenIn: Coin, contract: string): ReceiveResponse
  {
    Issue(SubMsg(SWAP_ID, SwapExactAmountIn(contract, tokenIn, swap.routes, swap.tokenOutMinAmount), Always))
  }

  function ReceiveJoinPool(joinPool: JoinPoolPacket, tokenIn: Coin, contract: string): ReceiveResponse
  {
    Issue(SubMsg(JOIN_POOL_ID, JoinSwapExternAmountIn(contract, tokenIn, joinPool.poolId, joinPool.shareOutMinAmount), Always))
  }

  /** Exiting a pool needs the pool id encoded in the escrowed pool-share denomination. */
  function ReceiveExitPool(env: Env, exitPool: ExitPoolPacket, tokenIn: Coin): (r: Result<ReceiveResponse, ContractError>)
    ensures r.Ok? <==> env.parsePoolId(tokenIn.denom).Ok?
    ensures r.Err? ==> r.error == External(env.parsePoolId(tokenIn.denom).error)
    ensures r.Ok? ==>
      && |r.value.messages| == 1
      && r.value.messages[0].msg.ExitSwapShareAmountIn?
      && r.value.messages[0].msg.sender == env.contractAddress
      && r.value.messages[0].msg.poolId == env.parsePoolId(tokenIn.denom).value
      && r.value.messages[0].msg.shareInAmount == tokenIn.amount
  {
    match env.parsePoolId(tokenIn.denom)
    case Err(reason) => Err(External(reason))
    case Ok(poolId) =>
      Ok(Issue(SubMsg(EXIT_POOL_ID,
        ExitSwapShareAmountIn(env.contractAddress, poolId, exitPool.tokenOutDenom, tokenIn.amount, exitPool.tokenOutMinAmount),
        Always)))
  }

  /** At most one lockup sub-account per (channel, sender); creating it needs the stored code id. */
  function ReceiveCreateLockup(s: Store, channel: string, sender: string, contract: string): (r: Result<ReceiveResponse, ContractError>)
    ensures r.Ok? <==> (channel, sender) !in s.lockup && s.config.Some?
    ensures (channel, sender) in s.lockup ==> r == Err(OnlyLockupByChannel)
    ensures (channel, sender) !in s.lockup && s.config.None? ==> r == Err(NotFound(ConfigItem))
    ensures r.Ok? ==>
      && |r.value.messages| == 1
      && r.value.messages[0].msg.WasmInstantiate?
      && r.value.messages[0].msg.admin.None?
      && r.value.messages[0].msg.initMsg.admin == contract
      && r.value.messages[0].msg.funds == []
  {
    if (channel, sender) in s.lockup then Err(OnlyLockupByChannel)
    else
      match s.config
      case None => Err(NotFound(ConfigItem))
      case Some(config) =>
        Ok(Issue(SubMsg(LOCKUP_ID, WasmInstantiate(None, config.lockupCodeId, LockupInitMsg(contract), "Lockup " + channel, []), Always)))
  }

  /** Forwards the escrowed funds to the sender's bound sub-account. */
  function ReceiveLockTokens(s: Store, channel: string, lock: LockPacket, sender: string, tokenIn: Coin): (r: Result<ReceiveResponse, ContractError>)
    ensures r.Ok? <==> (channel, sender) in s.lockup
    ensures r.Err? ==> r.error == LockupNotFound
    ensures r.Ok? ==>
      && |r.value.messages| == 1
      && r.value.messages[0].msg.WasmExecute?
      && r.value.messages[0].msg.contractAddr == s.lockup[(channel, sender)]
      && r.value.messages[0].msg.funds == [tokenIn]
  {
    if (channel, sender) !in s.lockup then Err(LockupNotFound)
    else
      var exec := CreateLockupMsg(s.lockup[(channel, sender)], ExecuteLock(lock.duration), [tokenIn]);
      Ok(Issue(SubMsg(LOCK_TOKEN_ID, exec, Always)))
  }

  function ReceiveClaimTokens(s: Store, channel: string, claim: ClaimPacket, sender: string): (r: Result<ReceiveResponse, ContractError>)
    ensures r.Ok? <==> (channel, sender) in s.lockup
    ensures r.Err? ==> r.error == LockupNotFound
    ensures r.Ok? ==>
      && |r.value.messages| == 1
      && r.value.messages[0].msg.WasmExecute?
      && r.value.messages[0].msg.contractAddr == s.lockup[(channel, sender)]
      && r.value.messages[0].msg.funds == []
  {
    if (channel, sender) !in s.lockup then Err(LockupNotFound)
    else
      var exec := CreateLockupMsg(s.lockup[(channel, sender)], ExecuteClaim(claim.denom), []);
      Ok(Issue(SubMsg(CLAIM_TOKEN_ID, exec, Always)))
  }

  function ReceiveUnlockTokens(s: Store, channel: string, unlock: UnlockPacket, sender: string): (r: Result<ReceiveResponse, ContractError>)
    ensures r.Ok? <==> (channel, sender) in s.lockup
    ensures r.Err? ==> r.error == LockupNotFound
    ensures r.Ok? ==>
      && |r.value.messages| == 1
      && r.value.messages[0].msg.WasmExecute?
      && r.value.messages[0].msg.contractAddr == s.lockup[(channel, sender)]
      && r.value.messages[0].msg.funds == []
  {
    if (channel, sender) !in s.lockup then Err(LockupNotFound)
    else
      var exec := CreateLockupMsg(s.lockup[(channel, sender)], ExecuteUnlock(unlock.id), []);
      Ok(Issue(SubMsg(UNLOCK_TOKEN_ID, exec, OnError)))
  }

  /** The reply id of the sub-message each kind of transfer issues. */
  function ReplyIdFor(action: Option<OsmoPacket>): nat
  {
    match action
    case None => RECEIVE_ID
    case Some(Swap(_)) => SWAP_ID
    case Some(JoinPool(_)) => JOIN_POOL_ID
    case Some(ExitPool(_)) => EXIT_POOL_ID
    case Some(LockupAccount) => LOCKUP_ID
    case Some(Lock(_)) => LOCK_TOKEN_ID
    case Some(Claim(_)) => CLAIM_TOKEN_ID
    case Some(Unlock(_)) => UNLOCK_TOKEN_ID
  }

  /** Plain payouts and unlocks are reported back only when they fail; every other action always. */
  function ReplyOnFor(action: Option<OsmoPacket>): ReplyOn
  {
    match action
    case None => OnError
    case Some(Unlock(_)) => OnError
    case Some(_) => Always
  }

  /**
   * The preconditions of each action, checked in the order the code checks them,
   * and the error the first one that fails raises.
   */
  function ActionRejection(s: Store, env: Env, channel: string, msg: Ics20Packet, denom: string): Option<ContractError>
  {
    var bound := (channel, msg.sender) in s.lockup;
    match msg.action
    case None => None
    case Some(Swap(_)) => None
    case Some(JoinPool(_)) => None
    case Some(ExitPool(_)) =>
      var poolId := env.parsePoolId(denom);
      if poolId.Err? then Some(External(poolId.error)) else None
    case Some(LockupAccount) =>
      if msg.amount != 0 then Some(NonPayable)
      else if bound then Some(OnlyLockupByChannel)
      else if s.config.None? then Some(NotFound(ConfigItem))
      else None
    case Some(Lock(_)) =>
      if !bound then Some(LockupNotFound) else None
    case Some(Claim(_)) =>
      if msg.amount != 0 then Some(NonPayable) else if !bound then Some(LockupNotFound) else None
    case Some(Unlock(_)) =>
      if msg.amount != 0 then Some(NonPayable) else if !bound then Some(LockupNotFound) else None
  }

  /**
   * Builds the response for a transfer whose escrow is already debited: the single
   * sub-message its action calls for, or the error of the first failed precondition.
   */
  function Dispatch(s: Store, env: Env, channel: string, msg: Ics20Packet, toSend: Coin): (r: Result<ReceiveResponse, ContractError>)
    requires toSend.amount == msg.amount
    ensures r.Err? <==> ActionRejection(s, env, channel, msg, toSend.denom).Some?
    ensures r.Err? ==> r.error == ActionRejection(s, env, channel, msg, toSend.denom).value
    ensures r.Ok? ==>
      && r.value.ack == AckSuccess()
      && |r.value.messages| == 1
      && r.value.messages[0].id == ReplyIdFor(msg.action)
      && r.value.messages[0].replyOn == ReplyOnFor(msg.action)
    // what each action issues: its target, and which funds go along
    ensures r.Ok? && msg.action.None? ==> r.value.messages[0].msg == BankSend(msg.receiver, [toSend])
    ensures r.Ok? && msg.action.Some? && msg.action.value.Swap? ==>
      var swap := msg.action.value.swap;
      r.value.messages[0].msg == SwapExactAmountIn(env.contractAddress, toSend, swap.routes, swap.tokenOutMinAmount)
    ensures r.Ok? && msg.action.Some? && msg.action.value.JoinPool? ==>
      var join := msg.action.value.joinPool;
      r.value.messages[0].msg == JoinSwapExternAmountIn(env.contractAddress, toSend, join.poolId, join.shareOutMinAmount)
    ensures r.Ok? && msg.action.Some? && msg.action.value.ExitPool? ==>
      var exit := msg.action.value.exitPool;
      && env.parsePoolId(toSend.denom).Ok?
      && r.value.messages[0].msg ==
         ExitSwapShareAmountIn(env.contractAddress, env.parsePoolId(toSend.denom).value, exit.tokenOutDenom, toSend.amount, exit.tokenOutMinAmount)
    ensures r.Ok? && msg.action == Some(LockupAccount) ==>
      && (channel, msg.sender) !in s.lockup
      && s.config.Some?
      && r.value.messages[0].msg == WasmInstantiate(None, s.config.value.lockupCodeId, LockupInitMsg(env.contractAddress), "Lockup " + channel, [])
    ensures r.Ok? && msg.action.Some? && msg.action.value.Lock? ==>
      && (channel, msg.sender) in s.lockup
      && r.value.messages[0].msg == WasmExecute(s.lockup[(channel, msg.sender)], ExecuteLock(msg.action.value.lock.duration), [toSend])
    ensures r.Ok? && msg.action.Some? && msg.action.value.Claim? ==>
      && (channel, msg.sender) in s.lockup
      && r.value.messages[0].msg == WasmExecute(s.lockup[(channel, msg.sender)], ExecuteClaim(msg.action.value.claim.denom), [])
    ensures r.Ok? && msg.action.Some? && msg.action.value.Unlock? ==>
      && (channel, msg.sender) in s.lockup
      && r.value.messages[0].msg == WasmExecute(s.lockup[(channel, msg.sender)], ExecuteUnlock(msg.action.value.unlock.id), [])
  {
    match msg.action
    case None =>
      Ok(Issue(SubMsg(RECEIVE_ID, SendAmount(toSend, msg.receiver), OnError)))
    case Some(action) =>
      var contract := env.contractAddress;
      match action
      case Swap(swap) => Ok(SwapReceive(swap, toSend, contract))
      case JoinPool(joinPool) => Ok(ReceiveJoinPool(joinPool, toSend, contract))
      case ExitPool(exitPool) => ReceiveExitPool(env, exitPool, toSend)
      case LockupAccount =>
        if Nonpayable(toSend).Err? then Err(NonPayable)
        else ReceiveCreateLockup(s, channel, msg.sender, contract)
      case Lock(lock) => ReceiveLockTokens(s, channel, lock, msg.sender, toSend)
      case Claim(claim) =>
        if Nonpayable(toSend).Err? then Err(NonPayable)
        else ReceiveClaimTokens(s, channel, claim, msg.sender)
      case Unlock(unlock) =>
        if Nonpayable(toSend).Err? then Err(NonPayable)
        else ReceiveUnlockTokens(s, channel, unlock, msg.sender)
  }

  /**
   * The receive work proper: decode, resolve the voucher against the source endpoint,
   * debit (destination channel, local denom), save the continuation record, dispatch.
   * Storage changes made before an error are kept.
   */
  function DoReceive(s: Store, env: Env, packet: IbcPacket): (r: Step<ReceiveResponse>)
    ensures r.store.lockup == s.lockup && r.store.channels == s.channels && r.store.config == s.config
  {
    match packet.data
    case Undecodable(reason) => Step(s, Err(External(reason)))
    case Decoded(msg) =>
      var channel := packet.dest.channelId;
      match Voucher.ParseVoucher(msg.denom, packet.src)
      case Err(e) => Step(s, Err(e))
      case Ok(voucher) =>
        match Ledger.ReduceChannelBalance(s.ledger, channel, voucher.denom, msg.amount)
        case Err(e) => Step(s, Err(e))
        case Ok(ledger) =>
          var s' := AfterDebit(s, ledger, channel, voucher.denom, msg.amount, msg.sender);
          Step(s', Dispatch(s', env, channel, msg, Coin(voucher.denom, msg.amount)))
  }

  /**
   * `ibc_packet_receive`: never fails. An error becomes an error acknowledgement
   * with no sub-message; a success acknowledges optimistically with exactly one
   * sub-message, whose id and policy the action table gives.
   */
  function ReceivePacket(s: Store, env: Env, packet: IbcPacket): (r: Step<ReceiveResponse>)
    ensures r.out.Ok?
    ensures |r.out.value.messages| == (if r.out.value.ack.AckResult? then 1 else 0)
    ensures r.out.value.ack.AckResult? ==>
      && r.out.value.ack == AckSuccess()
      && packet.data.Decoded?
      && r.out.value.messages[0].id == ReplyIdFor(packet.data.value.action)
      && r.out.value.messages[0].replyOn == ReplyOnFor(packet.data.value.action)
    ensures r.out.value.ack.AckResult? ==>
      && packet.data.Decoded?
      && var voucher := Voucher.ParseVoucher(packet.data.value.denom, packet.src);
         && voucher.Ok?
         && Ok(r.out.value) == Dispatch(r.store, env, packet.dest.channelId, packet.data.value, Coin(voucher.value.denom, packet.data.value.amount))
    ensures r.store.lockup == s.lockup && r.store.channels == s.channels && r.store.config == s.config
  {
    var r := DoReceive(s, env, packet);
    match r.out
    case Ok(response) => r
    case Err(e) => Step(r.store, Ok(ReceiveResponse(AckFail(Contract(e)), [])))
  }

  // ----- properties of a single receive -----

  /** A packet that cannot be decoded, or whose voucher is refused, changes nothing. */
  lemma ReceiveRejectedBeforeDebit(s: Store, env: Env, packet: IbcPacket)
    requires packet.data.Undecodable? || Voucher.ParseVoucher(packet.data.value.denom, packet.src).Err?
    ensures var e := if packet.data.Undecodable? then External(packet.data.reason)
                     else Voucher.ParseVoucher(packet.data.value.denom, packet.src).error;
      ReceivePacket(s, env, packet) == Step(s, Ok(ReceiveResponse(AckError(Contract(e)), [])))
  {
  }

  /**
   * When the escrow of (destination channel, local denom) cannot cover the amount,
   * the acknowledgement is InsufficientFunds, nothing is issued and the storage,
   * the continuation slot included, is untouched.
   */
  lemma ReceiveInsufficientFunds(s: Store, env: Env, packet: IbcPacket, denom: string)
    requires packet.data.Decoded?
    requires Voucher.ParseVoucher(packet.data.value.denom, packet.src) == Ok(Voucher.Voucher(denom))
    requires var key := (packet.dest.channelId, denom);
      key !in s.ledger || s.ledger[key].outstanding < packet.data.value.amount
    ensures ReceivePacket(s, env, packet) == Step(s, Ok(ReceiveResponse(AckError(Contract(InsufficientFunds)), [])))
  {
  }

  /** The storage right after a successful debit: escrow reduced, continuation record saved. */
  function AfterDebit(s: Store, l: Balances, channel: string, denom: string, amount: nat, sender: string): Store
  {
    s.(ledger := l, replyArgs := Some(ReplyArgs(channel, denom, amount, sender)))
  }

  /** Once the debit succeeds, receiving is dispatching from the debited storage. */
  lemma DoReceiveAfterDebit(s: Store, env: Env, packet: IbcPacket, denom: string)
    requires packet.data.Decoded?
    requires Voucher.ParseVoucher(packet.data.value.denom, packet.src) == Ok(Voucher.Voucher(denom))
    requires (packet.dest.channelId, denom) in s.ledger
    requires packet.data.value.amount <= Ledger.Outstanding(s.ledger, packet.dest.channelId, denom)
    ensures var msg := packet.data.value;
      var channel := packet.dest.channelId;
      var l := Ledger.ReduceChannelBalance(s.ledger, channel, denom, msg.amount);
      && l.Ok?
      && var s' := AfterDebit(s, l.value, channel, denom, msg.amount, msg.sender);
         DoReceive(s, env, packet) == Step(s', Dispatch(s', env, channel, msg, Coin(denom, msg.amount)))
  {
  }

  /**
   * When the debit succeeds, the escrow drops by exactly the amount, the continuation
   * record is (destination channel, local denom, amount, sender), and the acknowledgement
   * is a success exactly when the action's preconditions hold; otherwise it carries the
   * first failed precondition, and the debit stays in place.
   */
  lemma ReceiveDebits(s: Store, env: Env, packet: IbcPacket, denom: string)
    requires packet.data.Decoded?
    requires Voucher.ParseVoucher(packet.data.value.denom, packet.src) == Ok(Voucher.Voucher(denom))
    requires (packet.dest.channelId, denom) in s.ledger
    requires packet.data.value.amount <= Ledger.Outstanding(s.ledger, packet.dest.channelId, denom)
    ensures var msg := packet.data.value;
      var channel := packet.dest.channelId;
      var r := ReceivePacket(s, env, packet);
      && Ledger.Outstanding(r.store.ledger, channel, denom) == Ledger.Outstanding(s.ledger, channel, denom) - msg.amount
      && Ledger.TotalSent(r.store.ledger, channel, denom) == Ledger.TotalSent(s.ledger, channel, denom)
      && Ledger.SameElsewhere(s.ledger, r.store.ledger, (channel, denom))
      && r.store.replyArgs == Some(ReplyArgs(channel, denom, msg.amount, msg.sender))
  {
    DoReceiveAfterDebit(s, env, packet, denom);
  }

  /**
   * A plain transfer whose escrow covers it pays exactly the amount, in the local
   * denomination, to the receiver the packet names, reported back only on failure.
   */
  lemma ReceivePaysReceiver(s: Store, env: Env, packet: IbcPacket, denom: string)
    requires packet.data.Decoded? && packet.data.value.action.None?
    requires Voucher.ParseVoucher(packet.data.value.denom, packet.src) == Ok(Voucher.Voucher(denom))
    requires (packet.dest.channelId, denom) in s.ledger
    requires packet.data.value.amount <= Ledger.Outstanding(s.ledger, packet.dest.channelId, denom)
    ensures var msg := packet.data.value;
      ReceivePacket(s, env, packet).out.value ==
        ReceiveResponse(AckSuccess(), [SubMsg(RECEIVE_ID, BankSend(msg.receiver, [Coin(denom, msg.amount)]), OnError)])
  {
    DoReceiveAfterDebit(s, env, packet, denom);
  }

  /** Only the lockup bindings and the configuration decide whether an action is refused. */
  lemma RejectionFramed(s: Store, s': Store, env: Env, channel: string, msg: Ics20Packet, denom: string)
    requires s'.lockup == s.lockup && s'.config == s.config
    ensures ActionRejection(s', env, channel, msg, denom) == ActionRejection(s, env, channel, msg, denom)
  {
  }

  /** An error of the receive work becomes an error acknowledgement with no sub-message. */
  lemma ReceiveWrapsError(s: Store, env: Env, packet: IbcPacket)
    ensures var d := DoReceive(s, env, packet);
      ReceivePacket(s, env, packet) ==
        Step(d.store, Ok(if d.out.Err? then ReceiveResponse(AckError(Contract(d.out.error)), []) else d.out.value))
  {
  }

  /**
   * After a successful debit the acknowledgement is a success exactly when the
   * action's preconditions hold; otherwise it carries the first failed precondition
   * and nothing is issued.
   */
  lemma ReceiveAckFollowsPreconditions(s: Store, env: Env, packet: IbcPacket, denom: string)
    requires packet.data.Decoded?
    requires Voucher.ParseVoucher(packet.data.value.denom, packet.src) == Ok(Voucher.Voucher(denom))
    requires (packet.dest.channelId, denom) in s.ledger
    requires packet.data.value.amount <= Ledger.Outstanding(s.ledger, packet.dest.channelId, denom)
    ensures var r := ReceivePacket(s, env, packet);
      var rejection := ActionRejection(s, env, packet.dest.channelId, packet.data.value, denom);
      && (r.out.value.ack.AckResult? <==> rejection.None?)
      && (rejection.Some? ==> r.out.value == ReceiveResponse(AckError(Contract(rejection.value)), []))
  {
    var msg := packet.data.value;
    var channel := packet.dest.channelId;
    DoReceiveAfterDebit(s, env, packet, denom);
    var s' := AfterDebit(s, Ledger.ReduceChannelBalance(s.ledger, channel, denom, msg.amount).value, channel, denom, msg.amount, msg.sender);
    RejectionFramed(s, s', env, channel, msg, denom);
    ReceiveWrapsError(s, env, packet);
  }
}
