/**
 * The reply continuation handler: when a sub-message resolves, its reply id selects
 * how the ledger is settled (credit the output, restore the debit, bind a lockup
 * account, or nothing) and what acknowledgement data replaces the optimistic one.
 */
module Replies {
  import opened Wrappers
  import opened Ics20Types
  import Ledger

  /** The nine continuations a reply id can select. */
  datatype ReplyKind =
    | ReceiveReply | SwapReply | JoinPoolReply | ExitPoolReply | AckFailureReply
    | LockupReply | LockTokenReply | ClaimTokenReply | UnlockTokenReply

  function IdOf(kind: ReplyKind): nat
  {
    match kind
    case ReceiveReply => RECEIVE_ID
    case SwapReply => SWAP_ID
    case JoinPoolReply => JOIN_POOL_ID
    case ExitPoolReply => EXIT_POOL_ID
    case AckFailureReply => ACK_FAILURE_ID
    case LockupReply => LOCKUP_ID
    case LockTokenReply => LOCK_TOKEN_ID
    case ClaimTokenReply => CLAIM_TOKEN_ID
    case UnlockTokenReply => UNLOCK_TOKEN_ID
  }

  /** The continuation a reply id selects; ids outside the table select none. */
  function KindOf(id: nat): (r: Option<ReplyKind>)
    ensures r.Some? ==> IdOf(r.value) == id
    ensures r.None? ==> forall kind :: IdOf(kind) != id
  {
    if id == RECEIVE_ID then Some(ReceiveReply)
    else if id == SWAP_ID then Some(SwapReply)
    else if id == JOIN_POOL_ID then Some(JoinPoolReply)
    else if id == EXIT_POOL_ID then Some(ExitPoolReply)
    else if id == ACK_FAILURE_ID then Some(AckFailureReply)
    else if id == LOCKUP_ID then Some(LockupReply)
    else if id == LOCK_TOKEN_ID then Some(LockTokenReply)
    else if id == CLAIM_TOKEN_ID then Some(ClaimTokenReply)
    else if id == UNLOCK_TOKEN_ID then Some(UnlockTokenReply)
    else None
  }

  /** The new acknowledgement a reply sets; None leaves the one already returned. */
  type ReplyData = Option<Ics20Ack>

  /** Ids whose failure hands the debited escrow back. */
  const RESTORING_IDS: set<nat> := {RECEIVE_ID, SWAP_ID, JOIN_POOL_ID, EXIT_POOL_ID, LOCK_TOKEN_ID, CLAIM_TOKEN_ID}

  /**
   * Gives back the debit recorded in the continuation slot. Fails when the slot
   * was never written; only the ledger changes.
   */
  function RestoreBalanceReply(s: Store): (r: Result<Store, ContractError>)
    ensures r.Err? <==> s.replyArgs.None?
    ensures r.Err? ==> r.error == NotFound(ReplyArgsItem)
    ensures r.Ok? ==>
      var a := s.replyArgs.value;
      && r.value == s.(ledger := r.value.ledger)
      && Ledger.Outstanding(r.value.ledger, a.channel, a.denom) == Ledger.Outstanding(s.ledger, a.channel, a.denom) + a.amount
      && Ledger.TotalSent(r.value.ledger, a.channel, a.denom) == Ledger.TotalSent(s.ledger, a.channel, a.denom)
      && Ledger.SameElsewhere(s.ledger, r.value.ledger, (a.channel, a.denom))
  {
    match s.replyArgs
    case None => Err(NotFound(ReplyArgsItem))
    case Some(a) => Ok(s.(ledger := Ledger.RestoreChannelBalance(s.ledger, a.channel, a.denom, a.amount)))
  }

  /** Restore the debit, then finalise the acknowledgement as an error with `msg`. */
  function RestoreAndFail(s: Store, msg: string): Step<ReplyData>
  {
    match RestoreBalanceReply(s)
    case Err(e) => Step(s, Err(e))
    case Ok(s') => Step(s', Ok(Some(AckFail(Message(msg)))))
  }

  /** Swap, join-pool and exit-pool results: credit the output asset, or restore the input. */
  function ReplyGammResult(s: Store, result: SubMsgResult): Step<ReplyData>
  {
    match result
    case SubOk(tx) =>
      (match tx.gamm
       case Ok(ack) =>
         (match s.replyArgs
          case None => Step(s, Err(NotFound(ReplyArgsItem)))
          case Some(args) =>
            Step(s.(ledger := Ledger.IncreaseChannelBalance(s.ledger, args.channel, ack.denom, ack.amount)),
                 Ok(Some(AckSuccessWithBody(AmountResult(ack))))))
       case Err(e) => RestoreAndFail(s, e))
    case SubErr(e) => RestoreAndFail(s, e)
  }

  /** Lockup account creation: bind the new account to (channel, sender); a failure moves no value. */
  function ReplyLockupAccount(s: Store, result: SubMsgResult): Step<ReplyData>
  {
    match result
    case SubOk(tx) =>
      (match tx.instantiate
       case Ok(address) =>
         (match s.replyArgs
          case None => Step(s, Err(NotFound(ReplyArgsItem)))
          case Some(args) =>
            Step(s.(lockup := s.lockup[(args.channel, args.sender) := address]),
                 Ok(Some(AckSuccessWithBody(LockupResult(address))))))
       case Err(e) => Step(s, Ok(Some(AckFail(Message(e))))))
    case SubErr(e) => Step(s, Ok(Some(AckFail(Message(e)))))
  }

  /** The inner data of an executed contract call; its absence is MissingReplyData. */
  function ExecuteResponseData(tx: SubMsgResponse): (r: Result<Payload, ContractError>)
    ensures r.Ok? <==> tx.executeData.Some? && tx.executeData.value.Decoded? && tx.executeData.value.value.data.Some?
    ensures tx.executeData.None? ==> r == Err(MissingReplyData)
    ensures tx.executeData.Some? && tx.executeData.value.Undecodable? ==> r == Err(External(tx.executeData.value.reason))
    ensures tx.executeData.Some? && tx.executeData.value.Decoded? && tx.executeData.value.value.data.None? ==>
      r == Err(MissingReplyData)
    ensures r.Ok? ==> r.value == tx.executeData.value.value.data.value
  {
    match tx.executeData
    case None => Err(MissingReplyData)
    case Some(Undecodable(reason)) => Err(External(reason))
    case Some(Decoded(response)) =>
      match response.data
      case None => Err(MissingReplyData)
      case Some(payload) => Ok(payload)
  }

  /** Claimed rewards: credit the returned coin, or restore the (zero) debit. */
  function ReplyClaimResult(s: Store, result: SubMsgResult): Step<ReplyData>
  {
    match result
    case SubOk(tx) =>
      (match ExecuteResponseData(tx)
       case Err(e) => Step(s, Err(e))
       case Ok(payload) =>
         (match payload.asCoin
          case Undecodable(reason) => Step(s, Err(External(reason)))
          case Decoded(token) =>
            (match s.replyArgs
             case None => Step(s, Err(NotFound(ReplyArgsItem)))
             case Some(args) =>
               Step(s.(ledger := Ledger.IncreaseChannelBalance(s.ledger, args.channel, token.denom, token.amount)),
                    Ok(Some(AckSuccessWithBody(AmountResult(AmountResultAck(token.denom, token.amount)))))))))
    case SubErr(e) => RestoreAndFail(s, e)
  }

  /** Locked tokens: pass the sub-account's response data through, or restore the debit. */
  function ReplyAckFromData(s: Store, result: SubMsgResult): Step<ReplyData>
  {
    match result
    case SubOk(tx) =>
      (match ExecuteResponseData(tx)
       case Err(e) => Step(s, Err(e))
       case Ok(payload) => Step(s, Ok(Some(AckSuccessWithBody(Bytes(payload.bytes))))))
    case SubErr(e) => RestoreAndFail(s, e)
  }

  /** Unlock and settlement payouts: report a failure, touch nothing. */
  function ReplyAckOnError(result: SubMsgResult): (r: Result<ReplyData, ContractError>)
    ensures r.Ok?
    ensures r.value.None? <==> result.SubOk?
    ensures r.value.Some? ==> r.value.value.AckError?
    ensures result.SubErr? ==> r == Ok(Some(AckFail(Message(result.error))))
  {
    match result
    case SubOk(_) => Ok(None)
    case SubErr(e) => Ok(Some(AckFail(Message(e))))
  }

  /** Plain payouts: nothing on success, restore the debit on failure. */
  function ReplyReceive(s: Store, result: SubMsgResult): Step<ReplyData>
  {
    match result
    case SubOk(_) => Step(s, Ok(None))
    case SubErr(e) => RestoreAndFail(s, e)
  }

  /**
   * The `reply` entry point. A hard error changes nothing; the continuation slot,
   * the channel registry and the configuration are never changed; only a successful
   * lockup creation binds an account; only the six restoring or crediting
   * continuations touch the ledger; a failed sub-call always ends as an error
   * acknowledgement with its message; an unknown id is refused.
   */
  function HandleReply(s: Store, reply: Reply): (r: Step<ReplyData>)
    ensures r.out.Err? ==> r.store == s
    ensures r.store.channels == s.channels && r.store.config == s.config && r.store.replyArgs == s.replyArgs
    ensures r.store.lockup != s.lockup ==>
      reply.id == LOCKUP_ID && reply.result.SubOk? && reply.result.response.instantiate.Ok?
    ensures r.store.ledger != s.ledger ==> reply.id in RESTORING_IDS
    ensures KindOf(reply.id).None? ==> r == Step(s, Err(UnknownReplyId(reply.id)))
    ensures reply.result.SubErr? && r.out.Ok? ==> r.out.value == Some(AckError(Message(reply.result.error)))
    ensures r.out.Ok? && r.out.value.Some? && r.out.value.value.AckResult? ==> reply.result.SubOk?
  {
    match KindOf(reply.id)
    case None => Step(s, Err(UnknownReplyId(reply.id)))
    case Some(kind) =>
      match kind
      case ReceiveReply => ReplyReceive(s, reply.result)
      case SwapReply => ReplyGammResult(s, reply.result)
      case JoinPoolReply => ReplyGammResult(s, reply.result)
      case ExitPoolReply => ReplyGammResult(s, reply.result)
      case LockupReply => ReplyLockupAccount(s, reply.result)
      case LockTokenReply => ReplyAckFromData(s, reply.result)
      case ClaimTokenReply => ReplyClaimResult(s, reply.result)
      case UnlockTokenReply => Step(s, ReplyAckOnError(reply.result))
      case AckFailureReply => Step(s, ReplyAckOnError(reply.result))
  }

  // ----- properties of a single reply -----

  /**
   * A swap, join-pool or exit-pool result credits its output `{denom, amount}` to the
   * continuation's channel (escrow and total sent) and acknowledges it.
   */
  lemma GammReplyCreditsOutput(s: Store, id: nat, tx: SubMsgResponse)
    requires id in {SWAP_ID, JOIN_POOL_ID, EXIT_POOL_ID}
    requires tx.gamm.Ok? && s.replyArgs.Some?
    ensures var r := HandleReply(s, Reply(id, SubOk(tx)));
      var a := s.replyArgs.value;
      var out := tx.gamm.value;
      && r.out == Ok(Some(AckResult(AmountResult(out))))
      && r.store == s.(ledger := r.store.ledger)
      && Ledger.Outstanding(r.store.ledger, a.channel, out.denom) == Ledger.Outstanding(s.ledger, a.channel, out.denom) + out.amount
      && Ledger.TotalSent(r.store.ledger, a.channel, out.denom) == Ledger.TotalSent(s.ledger, a.channel, out.denom) + out.amount
      && Ledger.SameElsewhere(s.ledger, r.store.ledger, (a.channel, out.denom))
  {
  }

  /** A claim result credits the returned coin to the continuation's channel and acknowledges it. */
  lemma ClaimReplyCreditsCoin(s: Store, tx: SubMsgResponse, payload: Payload, token: Coin)
    requires tx.executeData == Some(Decoded(ExecuteData(Some(payload)))) && payload.asCoin == Decoded(token)
    requires s.replyArgs.Some?
    ensures var r := HandleReply(s, Reply(CLAIM_TOKEN_ID, SubOk(tx)));
      var a := s.replyArgs.value;
      && r.out == Ok(Some(AckResult(AmountResult(AmountResultAck(token.denom, token.amount)))))
      && r.store == s.(ledger := r.store.ledger)
      && Ledger.Outstanding(r.store.ledger, a.channel, token.denom) == Ledger.Outstanding(s.ledger, a.channel, token.denom) + token.amount
      && Ledger.TotalSent(r.store.ledger, a.channel, token.denom) == Ledger.TotalSent(s.ledger, a.channel, token.denom) + token.amount
      && Ledger.SameElsewhere(s.ledger, r.store.ledger, (a.channel, token.denom))
  {
  }

  /** Missing response data is a hard error for claim and lock replies. */
  lemma MissingDataIsHardError(s: Store, id: nat, tx: SubMsgResponse)
    requires id in {CLAIM_TOKEN_ID, LOCK_TOKEN_ID}
    requires tx.executeData.None? || (tx.executeData.value.Decoded? && tx.executeData.value.value.data.None?)
    ensures HandleReply(s, Reply(id, SubOk(tx))) == Step(s, Err(MissingReplyData))
  {
  }

  /**
   * A failed swap, pool, lock, claim or plain payout gives back the debit recorded
   * in the continuation slot (escrow only) and finalises an error acknowledgement.
   * A swap, join or exit whose result cannot be read does the same.
   */
  lemma FailedReplyRestoresDebit(s: Store, id: nat, result: SubMsgResult, msg: string)
    requires id in RESTORING_IDS
    requires result == SubErr(msg) || (id in {SWAP_ID, JOIN_POOL_ID, EXIT_POOL_ID} && result.SubOk? && result.response.gamm == Err(msg))
    requires s.replyArgs.Some?
    ensures var r := HandleReply(s, Reply(id, result));
      var a := s.replyArgs.value;
      && r.out == Ok(Some(AckError(Message(msg))))
      && r.store == s.(ledger := Ledger.RestoreChannelBalance(s.ledger, a.channel, a.denom, a.amount))
  {
  }

  /** A failed unlock, settlement payout or lockup creation changes no state. */
  lemma FailedReplyKeepsState(s: Store, id: nat, msg: string)
    requires id in {UNLOCK_TOKEN_ID, ACK_FAILURE_ID, LOCKUP_ID}
    ensures HandleReply(s, Reply(id, SubErr(msg))) == Step(s, Ok(Some(AckError(Message(msg)))))
  {
  }

  /**
   * A lockup creation that ran but whose instantiation result cannot be read is
   * reported as a failure carrying the reader's message, and binds nothing.
   */
  lemma UnreadableLockupReplyKeepsState(s: Store, tx: SubMsgResponse)
    requires tx.instantiate.Err?
    ensures HandleReply(s, Reply(LOCKUP_ID, SubOk(tx))) == Step(s, Ok(Some(AckError(Message(tx.instantiate.error)))))
  {
  }

  /** A created lockup account is bound to the continuation's (channel, sender) and acknowledged. */
  lemma LockupReplyBinds(s: Store, tx: SubMsgResponse)
    requires tx.instantiate.Ok? && s.replyArgs.Some?
    ensures var a := s.replyArgs.value;
      HandleReply(s, Reply(LOCKUP_ID, SubOk(tx))) ==
        Step(s.(lockup := s.lockup[(a.channel, a.sender) := tx.instantiate.value]),
             Ok(Some(AckResult(LockupResult(tx.instantiate.value)))))
  {
  }

  /** A successful lock passes the sub-account's response data through unchanged. */
  lemma LockReplyPassesData(s: Store, tx: SubMsgResponse, payload: Payload)
    requires tx.executeData == Some(Decoded(ExecuteData(Some(payload))))
    ensures HandleReply(s, Reply(LOCK_TOKEN_ID, SubOk(tx))) == Step(s, Ok(Some(AckResult(Bytes(payload.bytes)))))
  {
  }

  /** Successful plain payouts, unlocks and settlement payouts change nothing and set no data. */
  lemma QuietSuccess(s: Store, id: nat, tx: SubMsgResponse)
    requires id in {RECEIVE_ID, UNLOCK_TOKEN_ID, ACK_FAILURE_ID}
    ensures HandleReply(s, Reply(id, SubOk(tx))) == Step(s, Ok(None))
  {
  }
}
