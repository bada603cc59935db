/**
 * Properties that span several entry points: a receive followed by the reply to
 * the sub-message it issued, a settlement followed by the reply to its refund,
 * and the concrete exchanges the contract's own unit tests walk through.
 */
module Scenarios {
  import opened Wrappers
  import opened Ics20Types
  import Voucher
  import Ledger
  import Receive
  import Replies
  import Settlement

  // ----- receive, then reply -----

  /**
   * Escrow is conserved across a failed continuation: when a transfer is accepted
   * and the sub-message it issued is a payout, swap, pool, lock or claim call that
   * then fails, the reply gives the debit back, so the ledger is exactly what it
   * was before the packet arrived, and the acknowledgement becomes the failure.
   */
  lemma {:induction false} FailedContinuationRestoresEscrow(s: Store, env: Env, packet: IbcPacket, denom: string, failure: string)
    requires packet.data.Decoded?
    requires Voucher.ParseVoucher(packet.data.value.denom, packet.src) == Ok(Voucher.Voucher(denom))
    requires (packet.dest.channelId, denom) in s.ledger
    requires packet.data.value.amount <= Ledger.Outstanding(s.ledger, packet.dest.channelId, denom)
    requires Receive.ReceivePacket(s, env, packet).out.value.ack.AckResult?
    requires Receive.ReplyIdFor(packet.data.value.action) in Replies.RESTORING_IDS
    ensures var r1 := Receive.ReceivePacket(s, env, packet);
      var r2 := Replies.HandleReply(r1.store, Reply(r1.out.value.messages[0].id, SubErr(failure)));
      && r2.out == Ok(Some(AckError(Message(failure))))
      && r2.store.ledger == s.ledger
      && r2.store == r1.store.(ledger := s.ledger)
  {
    var msg := packet.data.value;
    var channel := packet.dest.channelId;
    var r1 := Receive.ReceivePacket(s, env, packet);
    var debited := Ledger.ReduceChannelBalance(s.ledger, channel, denom, msg.amount);
    Receive.DoReceiveAfterDebit(s, env, packet, denom);
    Receive.ReceiveWrapsError(s, env, packet);
    assert r1.store == Receive.AfterDebit(s, debited.value, channel, denom, msg.amount, msg.sender);
    Replies.FailedReplyRestoresDebit(r1.store, r1.out.value.messages[0].id, SubErr(failure), failure);
    Ledger.RestoreUndoesReduce(s.ledger, channel, denom, msg.amount);
  }

  /**
   * An action refused after the debit (a non-zero amount for a value-free action,
   * a missing or existing lockup binding, an unreadable pool denomination) keeps
   * the debit: the escrow stays reduced by the amount, although the error
   * acknowledgement tells the sender's chain that the transfer failed.
   */
  lemma {:induction false} RejectedActionKeepsDebit(s: Store, env: Env, packet: IbcPacket, denom: string)
    requires packet.data.Decoded?
    requires Voucher.ParseVoucher(packet.data.value.denom, packet.src) == Ok(Voucher.Voucher(denom))
    requires (packet.dest.channelId, denom) in s.ledger
    requires packet.data.value.amount <= Ledger.Outstanding(s.ledger, packet.dest.channelId, denom)
    requires Receive.ActionRejection(s, env, packet.dest.channelId, packet.data.value, denom).Some?
    ensures var r := Receive.ReceivePacket(s, env, packet);
      var e := Receive.ActionRejection(s, env, packet.dest.channelId, packet.data.value, denom).value;
      && r.out.value == ReceiveResponse(AckError(Contract(e)), [])
      && Ledger.Outstanding(r.store.ledger, packet.dest.channelId, denom)
         == Ledger.Outstanding(s.ledger, packet.dest.channelId, denom) - packet.data.value.amount
  {
    Receive.ReceiveAckFollowsPreconditions(s, env, packet, denom);
    Receive.ReceiveDebits(s, env, packet, denom);
  }

  /** A second lockup account for the same (channel, sender) is refused. */
  lemma {:induction false} SecondLockupRefused(s: Store, env: Env, packet: IbcPacket, denom: string)
    requires packet.data.Decoded? && packet.data.value.action == Some(LockupAccount) && packet.data.value.amount == 0
    requires Voucher.ParseVoucher(packet.data.value.denom, packet.src) == Ok(Voucher.Voucher(denom))
    requires (packet.dest.channelId, denom) in s.ledger
    requires (packet.dest.channelId, packet.data.value.sender) in s.lockup
    ensures var r := Receive.ReceivePacket(s, env, packet);
      && r.out.value == ReceiveResponse(AckError(Contract(OnlyLockupByChannel)), [])
      && r.store.ledger == s.ledger
      && r.store.lockup == s.lockup
  {
    Receive.ReceiveAckFollowsPreconditions(s, env, packet, denom);
    Receive.DoReceiveAfterDebit(s, env, packet, denom);
    Ledger.ReduceByZero(s.ledger, packet.dest.channelId, denom);
  }

  // ----- settle, then reply -----

  /**
   * When the refund paid out on an error acknowledgement or a timeout itself fails,
   * the reply only reports it: the escrow stays debited and no state is rolled back.
   */
  lemma {:induction false} FailedRefundKeepsDebit(s: Store, packet: IbcPacket, reason: AckReason, failure: string)
    requires Settlement.OnPacketFailure(s, packet, reason).out.Ok?
    ensures var r1 := Settlement.OnPacketFailure(s, packet, reason);
      var r2 := Replies.HandleReply(r1.store, Reply(r1.out.value[0].id, SubErr(failure)));
      && r1.out.value[0].id == ACK_FAILURE_ID
      && r2 == Step(r1.store, Ok(Some(AckError(Message(failure)))))
  {
    var r1 := Settlement.OnPacketFailure(s, packet, reason);
    Replies.FailedReplyKeepsState(r1.store, ACK_FAILURE_ID, failure);
  }

  // ----- the unit tests' exchanges -----

  const REMOTE: IbcEndpoint := IbcEndpoint("transfer", "channel-1234")
  const SENDER: string := "remote-sender"

  /** A transfer from REMOTE to `channel` giving back `amount` of our `denom`. */
  function Incoming(channel: string, amount: nat, denom: string, receiver: string, action: Option<OsmoPacket>): IbcPacket
  {
    var data := Ics20Packet(amount, REMOTE.portId + "/" + REMOTE.channelId + "/" + denom, SENDER, receiver, action);
    IbcPacket(Decoded(data), REMOTE, IbcEndpoint("ics20-swap", channel))
  }

  /** Every test packet carries a well-formed voucher for REMOTE. */
  lemma IncomingVoucher(channel: string, amount: nat, denom: string, receiver: string, action: Option<OsmoPacket>)
    ensures var p := Incoming(channel, amount, denom, receiver, action);
      Voucher.ParseVoucher(p.data.value.denom, p.src) == Ok(Voucher.Voucher(denom))
  {
    Voucher.VoucherRoundTrip(REMOTE.portId, REMOTE.channelId, denom);
  }

  /** Storage holding only what one outbound transfer of `amount` `denom` on `channel` recorded. */
  function AfterTransfer(channel: string, denom: string, amount: nat, config: Option<Config>): Store
  {
    Store(map[(channel, denom) := ChannelState(amount, amount)], map[], map[], None, config)
  }

  /** Nothing can be received on a channel before anything was sent over it. */
  lemma {:induction false} ReceiveBeforeSendScenario(env: Env)
    ensures var p := Incoming("channel-9", 876543210, "uatom", "local-rcpt", None);
      var empty := Store(map[], map[], map[], None, None);
      Receive.ReceivePacket(empty, env, p) == Step(empty, Ok(ReceiveResponse(AckError(Contract(InsufficientFunds)), [])))
  {
    var empty := Store(map[], map[], map[], None, None);
    IncomingVoucher("channel-9", 876543210, "uatom", "local-rcpt", None);
    Receive.ReceiveInsufficientFunds(empty, env, Incoming("channel-9", 876543210, "uatom", "local-rcpt", None), "uatom");
  }

  /** 1876543210 uatom cannot come back when only 987654321 were sent. */
  lemma {:induction false} ReceiveMoreThanSentScenario(env: Env)
    ensures var p := Incoming("channel-9", 1876543210, "uatom", "local-rcpt", None);
      var s := AfterTransfer("channel-9", "uatom", 987654321, None);
      Receive.ReceivePacket(s, env, p) == Step(s, Ok(ReceiveResponse(AckError(Contract(InsufficientFunds)), [])))
  {
    var s := AfterTransfer("channel-9", "uatom", 987654321, None);
    IncomingVoucher("channel-9", 1876543210, "uatom", "local-rcpt", None);
    Receive.ReceiveInsufficientFunds(s, env, Incoming("channel-9", 1876543210, "uatom", "local-rcpt", None), "uatom");
  }

  /**
   * 876543210 out of 987654321 sent is paid to the receiver, leaving 111111111
   * outstanding and the total sent as it was.
   */
  lemma {:induction false} NativeReceiveScenario(env: Env)
    ensures var p := Incoming("channel-9", 876543210, "uatom", "local-rcpt", None);
      var r := Receive.ReceivePacket(AfterTransfer("channel-9", "uatom", 987654321, None), env, p);
      && r.out.value == ReceiveResponse(AckSuccess(), [SubMsg(RECEIVE_ID, BankSend("local-rcpt", [Coin("uatom", 876543210)]), OnError)])
      && r.store.ledger == map[("channel-9", "uatom") := ChannelState(111111111, 987654321)]
  {
    IncomingVoucher("channel-9", 876543210, "uatom", "local-rcpt", None);
    NativeReceiveStep(AfterTransfer("channel-9", "uatom", 987654321, None), env,
                      Incoming("channel-9", 876543210, "uatom", "local-rcpt", None));
  }

  /** Paying 876543210 uatom out of the 987654321 sent to "local-rcpt". */
  lemma {:induction false} NativeReceiveStep(s: Store, env: Env, packet: IbcPacket)
    requires FromSender(packet, 876543210, "uatom", None) && packet.data.value.receiver == "local-rcpt"
    requires s.ledger == map[("channel-9", "uatom") := ChannelState(987654321, 987654321)]
    ensures var r := Receive.ReceivePacket(s, env, packet);
      && r.out.value == ReceiveResponse(AckSuccess(), [SubMsg(RECEIVE_ID, BankSend("local-rcpt", [Coin("uatom", 876543210)]), OnError)])
      && r.store == Debited(s, "uatom", 876543210)
      && r.store.ledger == map[("channel-9", "uatom") := ChannelState(111111111, 987654321)]
  {
    var response := ReceiveResponse(AckSuccess(), [SubMsg(RECEIVE_ID, BankSend("local-rcpt", [Coin("uatom", 876543210)]), OnError)]);
    assert Receive.Dispatch(Debited(s, "uatom", 876543210), env, "channel-9", packet.data.value, Coin("uatom", 876543210)) == Ok(response);
    CoveredReceive(s, env, packet, "uatom", 876543210, None, Ok(response));
    assert Debited(s, "uatom", 876543210).ledger == map[("channel-9", "uatom") := ChannelState(111111111, 987654321)] by {
      PaidOut(s, "uatom");
    }
  }

  /** 876543210 of 987654321 sent, once debited, leave 111111111 outstanding. */
  lemma PaidOut(s: Store, denom: string)
    requires s.ledger == map[("channel-9", denom) := ChannelState(987654321, 987654321)]
    ensures Debited(s, denom, 876543210).ledger == map[("channel-9", denom) := ChannelState(111111111, 987654321)]
  {
  }

  /**
   * A swap of 876543210 uatom out of 987654321 sent: the swap is issued with the
   * contract as sender, and its result of 36601070 uosmo is credited to the channel
   * (outstanding and total sent) and acknowledged.
   */
  lemma {:induction false} SwapScenario(env: Env, tx: SubMsgResponse)
    requires tx.gamm == Ok(AmountResultAck("uosmo", 36601070))
    ensures var routes := [SwapAmountInRoute(1, "uosmo")];
      var p := Incoming("channel-9", 876543210, "uatom", "", Some(Swap(SwapPacket(routes, 1))));
      var r1 := Receive.ReceivePacket(AfterTransfer("channel-9", "uatom", 987654321, None), env, p);
      var r2 := Replies.HandleReply(r1.store, Reply(SWAP_ID, SubOk(tx)));
      && r1.out.value == ReceiveResponse(AckSuccess(),
           [SubMsg(SWAP_ID, SwapExactAmountIn(env.contractAddress, Coin("uatom", 876543210), routes, 1), Always)])
      && r2.out == Ok(Some(AckResult(AmountResult(AmountResultAck("uosmo", 36601070)))))
      && r2.store.ledger == map[("channel-9", "uatom") := ChannelState(111111111, 987654321),
                                ("channel-9", "uosmo") := ChannelState(36601070, 36601070)]
  {
    var swap := SwapPacket([SwapAmountInRoute(1, "uosmo")], 1);
    var s := AfterTransfer("channel-9", "uatom", 987654321, None);
    var p := Incoming("channel-9", 876543210, "uatom", "", Some(Swap(swap)));
    IncomingFromSender(876543210, "uatom", Some(Swap(swap)));
    SwapStep(s, env, p, swap);
    SwapReplyScenario(Debited(s, "uatom", 876543210), tx);
  }

  /** Swapping 876543210 of the 987654321 uatom sent: the swap is issued, the amount debited. */
  lemma {:induction false} SwapStep(s: Store, env: Env, packet: IbcPacket, swap: SwapPacket)
    requires FromSender(packet, 876543210, "uatom", Some(Swap(swap)))
    requires s.ledger == map[("channel-9", "uatom") := ChannelState(987654321, 987654321)]
    ensures var r := Receive.ReceivePacket(s, env, packet);
      && r.out.value == ReceiveResponse(AckSuccess(),
           [SubMsg(SWAP_ID, SwapExactAmountIn(env.contractAddress, Coin("uatom", 876543210), swap.routes, swap.tokenOutMinAmount), Always)])
      && r.store == Debited(s, "uatom", 876543210)
      && r.store.ledger == map[("channel-9", "uatom") := ChannelState(111111111, 987654321)]
  {
    var response := Receive.SwapReceive(swap, Coin("uatom", 876543210), env.contractAddress);
    assert Receive.Dispatch(Debited(s, "uatom", 876543210), env, "channel-9", packet.data.value, Coin("uatom", 876543210)) == Ok(response);
    CoveredReceive(s, env, packet, "uatom", 876543210, Some(Swap(swap)), Ok(response));
    assert Debited(s, "uatom", 876543210).ledger == map[("channel-9", "uatom") := ChannelState(111111111, 987654321)] by {
      PaidOut(s, "uatom");
    }
  }

  /** The swap's reply, from the storage the swap's receive left. */
  lemma {:induction false} SwapReplyScenario(s1: Store, tx: SubMsgResponse)
    requires s1.ledger == map[("channel-9", "uatom") := ChannelState(111111111, 987654321)]
    requires s1.replyArgs == Some(ReplyArgs("channel-9", "uatom", 876543210, SENDER))
    requires tx.gamm == Ok(AmountResultAck("uosmo", 36601070))
    ensures var r2 := Replies.HandleReply(s1, Reply(SWAP_ID, SubOk(tx)));
      && r2.out == Ok(Some(AckResult(AmountResult(AmountResultAck("uosmo", 36601070)))))
      && r2.store.ledger == map[("channel-9", "uatom") := ChannelState(111111111, 987654321),
                                ("channel-9", "uosmo") := ChannelState(36601070, 36601070)]
  {
    assert ("channel-9", "uosmo") !in s1.ledger;
  }

  /**
   * A join of 1000 uosmo, all that was sent, fails in the pool module: the escrow
   * goes back to 1000 and the acknowledgement carries the pool module's message.
   */
  lemma {:induction false} JoinPoolFailureScenario(env: Env)
    ensures var p := Incoming("channel-9", 1000, "uosmo", "", Some(JoinPool(JoinPoolPacket(1, 1))));
      var s := AfterTransfer("channel-9", "uosmo", 1000, None);
      var r1 := Receive.ReceivePacket(s, env, p);
      var r2 := Replies.HandleReply(r1.store, Reply(JOIN_POOL_ID, SubErr("Invalid operation")));
      && |r1.out.value.messages| == 1
      && Ledger.Outstanding(r1.store.ledger, "channel-9", "uosmo") == 0
      && r2.out == Ok(Some(AckError(Message("Invalid operation"))))
      && r2.store.ledger == s.ledger
  {
    var p := Incoming("channel-9", 1000, "uosmo", "", Some(JoinPool(JoinPoolPacket(1, 1))));
    var s := AfterTransfer("channel-9", "uosmo", 1000, None);
    IncomingVoucher("channel-9", 1000, "uosmo", "", Some(JoinPool(JoinPoolPacket(1, 1))));
    Receive.ReceiveAckFollowsPreconditions(s, env, p, "uosmo");
    Receive.ReceiveDebits(s, env, p, "uosmo");
    FailedContinuationRestoresEscrow(s, env, p, "uosmo", "Invalid operation");
  }

  // pool liquidity: 987654321 uosmo sent; 876543210 of them join pool 1, whose shares then exit

  /** Storage after the join's reply: the pool shares credited beside the debited uosmo. */
  function Joined(s: Store): Store
  {
    s.(ledger := map[("channel-9", "uosmo") := ChannelState(111111111, 987654321),
                     ("channel-9", "gamm/pool/1") := ChannelState(74196993097318119147, 74196993097318119147)])
  }

  /** Joining pool 1 with 876543210 of the 987654321 uosmo sent: the join is issued, the amount debited. */
  lemma {:induction false} JoinStep(s: Store, env: Env, packet: IbcPacket, join: JoinPoolPacket)
    requires FromSender(packet, 876543210, "uosmo", Some(JoinPool(join)))
    requires s.ledger == map[("channel-9", "uosmo") := ChannelState(987654321, 987654321)]
    ensures var r := Receive.ReceivePacket(s, env, packet);
      && r.out.value == Receive.ReceiveJoinPool(join, Coin("uosmo", 876543210), env.contractAddress)
      && r.store == Debited(s, "uosmo", 876543210)
  {
    var response := Receive.ReceiveJoinPool(join, Coin("uosmo", 876543210), env.contractAddress);
    assert Receive.Dispatch(Debited(s, "uosmo", 876543210), env, "channel-9", packet.data.value, Coin("uosmo", 876543210)) == Ok(response);
    CoveredReceive(s, env, packet, "uosmo", 876543210, Some(JoinPool(join)), Ok(response));
  }

  /** The join's reply credits 74196993097318119147 pool shares to the channel and acknowledges them. */
  lemma {:induction false} JoinReplyStep(s1: Store, tx: SubMsgResponse)
    requires s1.ledger == map[("channel-9", "uosmo") := ChannelState(111111111, 987654321)]
    requires s1.replyArgs.Some? && s1.replyArgs.value.channel == "channel-9"
    requires tx.gamm == Ok(AmountResultAck("gamm/pool/1", 74196993097318119147))
    ensures Replies.HandleReply(s1, Reply(JOIN_POOL_ID, SubOk(tx)))
      == Step(Joined(s1), Ok(Some(AckResult(AmountResult(AmountResultAck("gamm/pool/1", 74196993097318119147))))))
  {
    assert ("channel-9", "gamm/pool/1") !in s1.ledger;
  }

  /** Exiting pool 1 with 74196992097318119147 of its shares: the exit is issued, the shares debited. */
  lemma {:induction false} ExitStep(s: Store, env: Env, packet: IbcPacket, exit: ExitPoolPacket)
    requires FromSender(packet, 74196992097318119147, "gamm/pool/1", Some(ExitPool(exit)))
    requires env.parsePoolId("gamm/pool/1") == Ok(1)
    requires s.ledger == Joined(s).ledger
    ensures var r := Receive.ReceivePacket(s, env, packet);
      && r.out.value == Receive.Issue(SubMsg(EXIT_POOL_ID,
           ExitSwapShareAmountIn(env.contractAddress, 1, exit.tokenOutDenom, 74196992097318119147, exit.tokenOutMinAmount), Always))
      && r.store == Debited(s, "gamm/pool/1", 74196992097318119147)
  {
    var response := Receive.Issue(SubMsg(EXIT_POOL_ID,
      ExitSwapShareAmountIn(env.contractAddress, 1, exit.tokenOutDenom, 74196992097318119147, exit.tokenOutMinAmount), Always));
    assert Receive.Dispatch(Debited(s, "gamm/pool/1", 74196992097318119147), env, "channel-9", packet.data.value,
                            Coin("gamm/pool/1", 74196992097318119147)) == Ok(response);
    CoveredReceive(s, env, packet, "gamm/pool/1", 74196992097318119147, Some(ExitPool(exit)), Ok(response));
  }

  /** The exit's reply credits its 9970022 uosmo to the channel and acknowledges them. */
  lemma {:induction false} ExitReplyStep(s3: Store, tx: SubMsgResponse)
    requires s3.ledger == map[("channel-9", "uosmo") := ChannelState(111111111, 987654321),
                              ("channel-9", "gamm/pool/1") := ChannelState(1000000000000, 74196993097318119147)]
    requires s3.replyArgs.Some? && s3.replyArgs.value.channel == "channel-9"
    requires tx.gamm == Ok(AmountResultAck("uosmo", 9970022))
    ensures var r := Replies.HandleReply(s3, Reply(EXIT_POOL_ID, SubOk(tx)));
      && r.out == Ok(Some(AckResult(AmountResult(AmountResultAck("uosmo", 9970022)))))
      && r.store.ledger == map[("channel-9", "uosmo") := ChannelState(121081133, 997624343),
                               ("channel-9", "gamm/pool/1") := ChannelState(1000000000000, 74196993097318119147)]
  {
    var r := Replies.HandleReply(s3, Reply(EXIT_POOL_ID, SubOk(tx)));
    assert r.store.ledger == s3.ledger[("channel-9", "uosmo") := ChannelState(121081133, 997624343)];
  }

  /** 74196992097318119147 of 74196993097318119147 pool shares exit, leaving 1000000000000. */
  lemma SharesExited(s: Store)
    requires s.ledger == Joined(s).ledger
    ensures Debited(s, "gamm/pool/1", 74196992097318119147).ledger
      == map[("channel-9", "uosmo") := ChannelState(111111111, 987654321),
             ("channel-9", "gamm/pool/1") := ChannelState(1000000000000, 74196993097318119147)]
  {
  }

  /** First half of the liquidity exchange: the join is issued and its reply credits the pool shares. */
  lemma {:induction false} JoinHalf(env: Env, s0: Store, join: IbcPacket, joined: SubMsgResponse)
    requires FromSender(join, 876543210, "uosmo", Some(JoinPool(JoinPoolPacket(1, 1))))
    requires s0.ledger == map[("channel-9", "uosmo") := ChannelState(987654321, 987654321)]
    requires joined.gamm == Ok(AmountResultAck("gamm/pool/1", 74196993097318119147))
    ensures var r1 := Receive.ReceivePacket(s0, env, join);
      var r2 := Replies.HandleReply(r1.store, Reply(JOIN_POOL_ID, SubOk(joined)));
      && r1.out.value == Receive.Issue(SubMsg(JOIN_POOL_ID,
           JoinSwapExternAmountIn(env.contractAddress, Coin("uosmo", 876543210), 1, 1), Always))
      && r2 == Step(Joined(Debited(s0, "uosmo", 876543210)),
                    Ok(Some(AckResult(AmountResult(AmountResultAck("gamm/pool/1", 74196993097318119147))))))
  {
    var s1 := Debited(s0, "uosmo", 876543210);
    JoinStep(s0, env, join, JoinPoolPacket(1, 1));
    PaidOut(s0, "uosmo");
    JoinReplyStep(s1, joined);
  }

  /** Second half: the exit is issued and its reply credits the uosmo it returned. */
  lemma {:induction false} ExitHalf(env: Env, s2: Store, exit: IbcPacket, exited: SubMsgResponse)
    requires FromSender(exit, 74196992097318119147, "gamm/pool/1", Some(ExitPool(ExitPoolPacket("uosmo", 1))))
    requires env.parsePoolId("gamm/pool/1") == Ok(1)
    requires s2.ledger == Joined(s2).ledger
    requires exited.gamm == Ok(AmountResultAck("uosmo", 9970022))
    ensures var r3 := Receive.ReceivePacket(s2, env, exit);
      var r4 := Replies.HandleReply(r3.store, Reply(EXIT_POOL_ID, SubOk(exited)));
      && r3.out.value == Receive.Issue(SubMsg(EXIT_POOL_ID,
           ExitSwapShareAmountIn(env.contractAddress, 1, "uosmo", 74196992097318119147, 1), Always))
      && r4.out == Ok(Some(AckResult(AmountResult(AmountResultAck("uosmo", 9970022)))))
      && r4.store.ledger == map[("channel-9", "uosmo") := ChannelState(121081133, 997624343),
                                ("channel-9", "gamm/pool/1") := ChannelState(1000000000000, 74196993097318119147)]
  {
    ExitStep(s2, env, exit, ExitPoolPacket("uosmo", 1));
    SharesExited(s2);
    ExitReplyStep(Debited(s2, "gamm/pool/1", 74196992097318119147), exited);
  }

  /**
   * Joining pool 1 with 876543210 of 987654321 uosmo sent credits 74196993097318119147
   * pool shares; exiting with 74196992097318119147 of them credits 9970022 uosmo. The
   * channel ends with 1000000000000 shares and 121081133 uosmo outstanding, and
   * 74196993097318119147 shares and 997624343 uosmo sent.
   */
  lemma {:induction false} LiquidityScenario(env: Env, joined: SubMsgResponse, exited: SubMsgResponse,
                                             join: IbcPacket, exit: IbcPacket)
    requires env.parsePoolId("gamm/pool/1") == Ok(1)
    requires joined.gamm == Ok(AmountResultAck("gamm/pool/1", 74196993097318119147))
    requires exited.gamm == Ok(AmountResultAck("uosmo", 9970022))
    requires join == Incoming("channel-9", 876543210, "uosmo", "", Some(JoinPool(JoinPoolPacket(1, 1))))
    requires exit == Incoming("channel-9", 74196992097318119147, "gamm/pool/1", "", Some(ExitPool(ExitPoolPacket("uosmo", 1))))
    ensures var r1 := Receive.ReceivePacket(AfterTransfer("channel-9", "uosmo", 987654321, None), env, join);
      var r2 := Replies.HandleReply(r1.store, Reply(JOIN_POOL_ID, SubOk(joined)));
      var r3 := Receive.ReceivePacket(r2.store, env, exit);
      var r4 := Replies.HandleReply(r3.store, Reply(EXIT_POOL_ID, SubOk(exited)));
      && r1.out.value == Receive.Issue(SubMsg(JOIN_POOL_ID,
           JoinSwapExternAmountIn(env.contractAddress, Coin("uosmo", 876543210), 1, 1), Always))
      && r2.out == Ok(Some(AckResult(AmountResult(AmountResultAck("gamm/pool/1", 74196993097318119147)))))
      && r3.out.value == Receive.Issue(SubMsg(EXIT_POOL_ID,
           ExitSwapShareAmountIn(env.contractAddress, 1, "uosmo", 74196992097318119147, 1), Always))
      && r4.out == Ok(Some(AckResult(AmountResult(AmountResultAck("uosmo", 9970022)))))
      && r4.store.ledger == map[("channel-9", "uosmo") := ChannelState(121081133, 997624343),
                                ("channel-9", "gamm/pool/1") := ChannelState(1000000000000, 74196993097318119147)]
  {
    var s0 := AfterTransfer("channel-9", "uosmo", 987654321, None);
    IncomingFromSender(876543210, "uosmo", Some(JoinPool(JoinPoolPacket(1, 1))));
    IncomingFromSender(74196992097318119147, "gamm/pool/1", Some(ExitPool(ExitPoolPacket("uosmo", 1))));
    JoinHalf(env, s0, join, joined);
    ExitHalf(env, Joined(Debited(s0, "uosmo", 876543210)), exit, exited);
  }

  // lockup sub-accounts: the packets below are transfers from SENDER to "channel-9"

  /**
   * `packet` is a decodable transfer from SENDER, arriving on "channel-9", of
   * `amount` of our `denom`, carrying `action`.
   */
  ghost predicate FromSender(packet: IbcPacket, amount: nat, denom: string, action: Option<OsmoPacket>)
  {
    && packet.data.Decoded?
    && packet.dest.channelId == "channel-9"
    && packet.data.value.amount == amount
    && packet.data.value.sender == SENDER
    && packet.data.value.action == action
    && Voucher.ParseVoucher(packet.data.value.denom, packet.src) == Ok(Voucher.Voucher(denom))
  }

  lemma IncomingFromSender(amount: nat, denom: string, action: Option<OsmoPacket>)
    ensures FromSender(Incoming("channel-9", amount, denom, "", action), amount, denom, action)
  {
    IncomingVoucher("channel-9", amount, denom, "", action);
  }

  /** The storage right after SENDER's transfer of `amount` `denom` on "channel-9" is debited. */
  function Debited(s: Store, denom: string, amount: nat): Store
    requires ("channel-9", denom) in s.ledger && amount <= s.ledger[("channel-9", denom)].outstanding
  {
    Receive.AfterDebit(s, Ledger.ReduceChannelBalance(s.ledger, "channel-9", denom, amount).value, "channel-9", denom, amount, SENDER)
  }

  /** A transfer the escrow covers is dispatched from the debited storage. */
  lemma {:induction false} CoveredReceive(s: Store, env: Env, packet: IbcPacket, denom: string, amount: nat,
                                          action: Option<OsmoPacket>, out: Result<ReceiveResponse, ContractError>)
    requires FromSender(packet, amount, denom, action)
    requires ("channel-9", denom) in s.ledger && amount <= s.ledger[("channel-9", denom)].outstanding
    requires out == Receive.Dispatch(Debited(s, denom, amount), env, "channel-9", packet.data.value, Coin(denom, amount))
    ensures Receive.ReceivePacket(s, env, packet) ==
      Step(Debited(s, denom, amount), Ok(if out.Ok? then out.value else ReceiveResponse(AckError(Contract(out.error)), [])))
  {
    CoveredDebit(s, denom, amount);
    Receive.DoReceiveAfterDebit(s, env, packet, denom);
    Receive.ReceiveWrapsError(s, env, packet);
  }

  lemma CoveredDebit(s: Store, denom: string, amount: nat)
    requires ("channel-9", denom) in s.ledger && amount <= s.ledger[("channel-9", denom)].outstanding
    ensures Ledger.ReduceChannelBalance(s.ledger, "channel-9", denom, amount) == Ok(Debited(s, denom, amount).ledger)
  {
  }

  /**
   * A zero-value transfer debits nothing: receiving it is dispatching it from the
   * storage with only the continuation slot rewritten.
   */
  lemma {:induction false} ZeroValueReceive(s: Store, env: Env, packet: IbcPacket, denom: string, action: Option<OsmoPacket>,
                                            out: Result<ReceiveResponse, ContractError>)
    requires FromSender(packet, 0, denom, action)
    requires ("channel-9", denom) in s.ledger
    requires out == Receive.Dispatch(s.(replyArgs := Some(ReplyArgs("channel-9", denom, 0, SENDER))),
                                     env, "channel-9", packet.data.value, Coin(denom, 0))
    ensures Receive.ReceivePacket(s, env, packet) ==
      Step(s.(replyArgs := Some(ReplyArgs("channel-9", denom, 0, SENDER))),
           Ok(if out.Ok? then out.value else ReceiveResponse(AckError(Contract(out.error)), [])))
  {
    Ledger.ReduceByZero(s.ledger, "channel-9", denom);
    assert Debited(s, denom, 0) == s.(replyArgs := Some(ReplyArgs("channel-9", denom, 0, SENDER)));
    CoveredReceive(s, env, packet, denom, 0, action, out);
  }

  /** What each lockup action dispatches once its (zero or escrowed) value is debited. */
  lemma DispatchUnlockWithoutAccount(s: Store, env: Env, msg: Ics20Packet, denom: string)
    requires msg.action == Some(Unlock(UnlockPacket(1))) && msg.amount == 0
    requires ("channel-9", msg.sender) !in s.lockup
    ensures Receive.Dispatch(s, env, "channel-9", msg, Coin(denom, 0)) == Err(LockupNotFound)
  {
  }

  lemma DispatchCreateLockup(s: Store, env: Env, msg: Ics20Packet, code: nat, denom: string)
    requires msg.action == Some(LockupAccount) && msg.amount == 0
    requires ("channel-9", msg.sender) !in s.lockup && s.config == Some(Config(code))
    ensures Receive.Dispatch(s, env, "channel-9", msg, Coin(denom, 0))
      == Ok(Receive.Issue(SubMsg(LOCKUP_ID, WasmInstantiate(None, code, LockupInitMsg(env.contractAddress), "Lockup channel-9", []), Always)))
  {
    assert "Lockup " + "channel-9" == "Lockup channel-9";
  }

  lemma DispatchLock(s: Store, env: Env, msg: Ics20Packet, denom: string)
    requires msg.action == Some(Lock(LockPacket(86400))) && msg.amount == 54321
    requires ("channel-9", msg.sender) in s.lockup && s.lockup[("channel-9", msg.sender)] == "lockup-addr"
    ensures Receive.Dispatch(s, env, "channel-9", msg, Coin(denom, 54321))
      == Ok(Receive.Issue(SubMsg(LOCK_TOKEN_ID, WasmExecute("lockup-addr", ExecuteLock(86400), [Coin(denom, 54321)]), Always)))
  {
  }

  lemma DispatchUnlock(s: Store, env: Env, msg: Ics20Packet, denom: string)
    requires msg.action == Some(Unlock(UnlockPacket(1))) && msg.amount == 0
    requires ("channel-9", msg.sender) in s.lockup && s.lockup[("channel-9", msg.sender)] == "lockup-addr"
    ensures Receive.Dispatch(s, env, "channel-9", msg, Coin(denom, 0))
      == Ok(Receive.Issue(SubMsg(UNLOCK_TOKEN_ID, WasmExecute("lockup-addr", ExecuteUnlock(1), []), OnError)))
  {
  }

  lemma DispatchClaim(s: Store, env: Env, msg: Ics20Packet, denom: string)
    requires msg.action == Some(Claim(ClaimPacket(denom))) && msg.amount == 0
    requires ("channel-9", msg.sender) in s.lockup && s.lockup[("channel-9", msg.sender)] == "lockup-addr"
    ensures Receive.Dispatch(s, env, "channel-9", msg, Coin(denom, 0))
      == Ok(Receive.Issue(SubMsg(CLAIM_TOKEN_ID, WasmExecute("lockup-addr", ExecuteClaim(denom), []), Always)))
  {
  }

  /** Without a lockup account, unlocking is refused and nothing but the continuation slot changes. */
  lemma {:induction false} UnlockWithoutAccountStep(s: Store, env: Env, packet: IbcPacket, denom: string)
    requires FromSender(packet, 0, denom, Some(Unlock(UnlockPacket(1))))
    requires ("channel-9", denom) in s.ledger && ("channel-9", SENDER) !in s.lockup
    ensures var r := Receive.ReceivePacket(s, env, packet);
      && r.out.value == ReceiveResponse(AckError(Contract(LockupNotFound)), [])
      && r.store == s.(replyArgs := Some(ReplyArgs("channel-9", denom, 0, SENDER)))
  {
    var s' := s.(replyArgs := Some(ReplyArgs("channel-9", denom, 0, SENDER)));
    DispatchUnlockWithoutAccount(s', env, packet.data.value, denom);
    ZeroValueReceive(s, env, packet, denom, Some(Unlock(UnlockPacket(1))), Err(LockupNotFound));
  }

  /** Creating the account instantiates the configured code, labelled with the channel. */
  lemma {:induction false} CreateLockupStep(s: Store, env: Env, packet: IbcPacket, code: nat, denom: string)
    requires FromSender(packet, 0, denom, Some(LockupAccount))
    requires ("channel-9", denom) in s.ledger && ("channel-9", SENDER) !in s.lockup
    requires s.config == Some(Config(code))
    ensures var r := Receive.ReceivePacket(s, env, packet);
      && r.out.value == Receive.Issue(SubMsg(LOCKUP_ID, WasmInstantiate(None, code, LockupInitMsg(env.contractAddress), "Lockup channel-9", []), Always))
      && r.store == s.(replyArgs := Some(ReplyArgs("channel-9", denom, 0, SENDER)))
  {
    var s' := s.(replyArgs := Some(ReplyArgs("channel-9", denom, 0, SENDER)));
    var response := Receive.Issue(SubMsg(LOCKUP_ID, WasmInstantiate(None, code, LockupInitMsg(env.contractAddress), "Lockup channel-9", []), Always));
    DispatchCreateLockup(s', env, packet.data.value, code, denom);
    ZeroValueReceive(s, env, packet, denom, Some(LockupAccount), Ok(response));
  }

  /** Locking forwards the escrowed 54321 to the account and keeps them debited. */
  lemma {:induction false} LockStep(s: Store, env: Env, packet: IbcPacket, denom: string)
    requires FromSender(packet, 54321, denom, Some(Lock(LockPacket(86400))))
    requires ("channel-9", denom) in s.ledger && 54321 <= s.ledger[("channel-9", denom)].outstanding
    requires ("channel-9", SENDER) in s.lockup && s.lockup[("channel-9", SENDER)] == "lockup-addr"
    ensures var r := Receive.ReceivePacket(s, env, packet);
      && r.out.value == Receive.Issue(SubMsg(LOCK_TOKEN_ID, WasmExecute("lockup-addr", ExecuteLock(86400), [Coin(denom, 54321)]), Always))
      && r.store == Debited(s, denom, 54321)
  {
    var response := Receive.Issue(SubMsg(LOCK_TOKEN_ID, WasmExecute("lockup-addr", ExecuteLock(86400), [Coin(denom, 54321)]), Always));
    DispatchLock(Debited(s, denom, 54321), env, packet.data.value, denom);
    CoveredReceive(s, env, packet, denom, 54321, Some(Lock(LockPacket(86400))), Ok(response));
  }

  /** Unlocking asks the account to unlock, reported back only on failure. */
  lemma {:induction false} UnlockStep(s: Store, env: Env, packet: IbcPacket, denom: string)
    requires FromSender(packet, 0, denom, Some(Unlock(UnlockPacket(1))))
    requires ("channel-9", denom) in s.ledger
    requires ("channel-9", SENDER) in s.lockup && s.lockup[("channel-9", SENDER)] == "lockup-addr"
    ensures var r := Receive.ReceivePacket(s, env, packet);
      && r.out.value == Receive.Issue(SubMsg(UNLOCK_TOKEN_ID, WasmExecute("lockup-addr", ExecuteUnlock(1), []), OnError))
      && r.store == s.(replyArgs := Some(ReplyArgs("channel-9", denom, 0, SENDER)))
  {
    var s' := s.(replyArgs := Some(ReplyArgs("channel-9", denom, 0, SENDER)));
    var response := Receive.Issue(SubMsg(UNLOCK_TOKEN_ID, WasmExecute("lockup-addr", ExecuteUnlock(1), []), OnError));
    DispatchUnlock(s', env, packet.data.value, denom);
    ZeroValueReceive(s, env, packet, denom, Some(Unlock(UnlockPacket(1))), Ok(response));
  }

  /** Claiming asks the account for the rewards in the claimed denom. */
  lemma {:induction false} ClaimStep(s: Store, env: Env, packet: IbcPacket, denom: string)
    requires FromSender(packet, 0, denom, Some(Claim(ClaimPacket(denom))))
    requires ("channel-9", denom) in s.ledger
    requires ("channel-9", SENDER) in s.lockup && s.lockup[("channel-9", SENDER)] == "lockup-addr"
    ensures var r := Receive.ReceivePacket(s, env, packet);
      && r.out.value == Receive.Issue(SubMsg(CLAIM_TOKEN_ID, WasmExecute("lockup-addr", ExecuteClaim(denom), []), Always))
      && r.store == s.(replyArgs := Some(ReplyArgs("channel-9", denom, 0, SENDER)))
  {
    var s' := s.(replyArgs := Some(ReplyArgs("channel-9", denom, 0, SENDER)));
    var response := Receive.Issue(SubMsg(CLAIM_TOKEN_ID, WasmExecute("lockup-addr", ExecuteClaim(denom), []), Always));
    DispatchClaim(s', env, packet.data.value, denom);
    ZeroValueReceive(s, env, packet, denom, Some(Claim(ClaimPacket(denom))), Ok(response));
  }

  /** Storage after the lockup exchange's account is bound. */
  function LockupBound(code: nat, denom: string): Store
  {
    Store(map[("channel-9", denom) := ChannelState(987654321, 987654321)],
          map[("channel-9", SENDER) := "lockup-addr"], map[],
          Some(ReplyArgs("channel-9", denom, 0, SENDER)), Some(Config(code)))
  }

  /** First half of the lockup exchange: unlock refused, account created and bound. */
  lemma {:induction false} LockupAccountScenario(env: Env, code: nat, tx: SubMsgResponse, create: IbcPacket, unlock: IbcPacket)
    requires tx.instantiate == Ok("lockup-addr")
    requires FromSender(create, 0, "gamm/pool/1", Some(LockupAccount))
    requires FromSender(unlock, 0, "gamm/pool/1", Some(Unlock(UnlockPacket(1))))
    ensures var r1 := Receive.ReceivePacket(AfterTransfer("channel-9", "gamm/pool/1", 987654321, Some(Config(code))), env, unlock);
      var r2 := Receive.ReceivePacket(r1.store, env, create);
      var r3 := Replies.HandleReply(r2.store, Reply(LOCKUP_ID, SubOk(tx)));
      && r1.out.value == ReceiveResponse(AckError(Contract(LockupNotFound)), [])
      && r2.out.value == Receive.Issue(SubMsg(LOCKUP_ID, WasmInstantiate(None, code, LockupInitMsg(env.contractAddress), "Lockup channel-9", []), Always))
      && r3 == Step(LockupBound(code, "gamm/pool/1"), Ok(Some(AckResult(LockupResult("lockup-addr")))))
  {
    var denom := "gamm/pool/1";
    var s0 := AfterTransfer("channel-9", denom, 987654321, Some(Config(code)));
    var s1 := s0.(replyArgs := Some(ReplyArgs("channel-9", denom, 0, SENDER)));
    UnlockWithoutAccountStep(s0, env, unlock, denom);
    CreateLockupStep(s1, env, create, code, denom);
    Replies.LockupReplyBinds(s1, tx);
  }

  /** Second half: 54321 shares locked and kept debited, then unlock issued. */
  lemma {:induction false} LockupActionsScenario(env: Env, s3: Store, lock: IbcPacket, unlock: IbcPacket)
    requires s3.ledger == map[("channel-9", "gamm/pool/1") := ChannelState(987654321, 987654321)]
    requires s3.lockup == map[("channel-9", SENDER) := "lockup-addr"]
    requires FromSender(lock, 54321, "gamm/pool/1", Some(Lock(LockPacket(86400))))
    requires FromSender(unlock, 0, "gamm/pool/1", Some(Unlock(UnlockPacket(1))))
    ensures var r4 := Receive.ReceivePacket(s3, env, lock);
      var r5 := Receive.ReceivePacket(r4.store, env, unlock);
      && r4.out.value == Receive.Issue(SubMsg(LOCK_TOKEN_ID, WasmExecute("lockup-addr", ExecuteLock(86400), [Coin("gamm/pool/1", 54321)]), Always))
      && r5.out.value == Receive.Issue(SubMsg(UNLOCK_TOKEN_ID, WasmExecute("lockup-addr", ExecuteUnlock(1), []), OnError))
      && r5.store.ledger == map[("channel-9", "gamm/pool/1") := ChannelState(987600000, 987654321)]
  {
    var denom := "gamm/pool/1";
    var s4 := Debited(s3, denom, 54321);
    var r4 := Receive.ReceivePacket(s3, env, lock);
    assert r4.store == s4
        && r4.out.value == Receive.Issue(SubMsg(LOCK_TOKEN_ID, WasmExecute("lockup-addr", ExecuteLock(86400), [Coin(denom, 54321)]), Always)) by {
      LockStep(s3, env, lock, denom);
    }
    assert s4.ledger == map[("channel-9", denom) := ChannelState(987600000, 987654321)] by {
      LockedShares(s3);
    }
    UnlockStep(s4, env, unlock, denom);
  }

  /** 54321 of 987654321 locked shares leave 987600000 outstanding. */
  lemma LockedShares(s: Store)
    requires s.ledger == map[("channel-9", "gamm/pool/1") := ChannelState(987654321, 987654321)]
    ensures Debited(s, "gamm/pool/1", 54321).ledger == map[("channel-9", "gamm/pool/1") := ChannelState(987600000, 987654321)]
  {
  }

  /**
   * The lockup exchange on 987654321 pool shares: unlock refused without an account;
   * the account is created and bound; 54321 shares are locked; unlocking is issued
   * and fails. The shares locked stay debited: 987600000 outstanding, 987654321 sent.
   */
  lemma {:induction false} LockupScenario(env: Env, code: nat, tx: SubMsgResponse,
                                          create: IbcPacket, lock: IbcPacket, unlock: IbcPacket)
    requires tx.instantiate == Ok("lockup-addr")
    requires create == Incoming("channel-9", 0, "gamm/pool/1", "", Some(LockupAccount))
    requires lock == Incoming("channel-9", 54321, "gamm/pool/1", "", Some(Lock(LockPacket(86400))))
    requires unlock == Incoming("channel-9", 0, "gamm/pool/1", "", Some(Unlock(UnlockPacket(1))))
    ensures var r1 := Receive.ReceivePacket(AfterTransfer("channel-9", "gamm/pool/1", 987654321, Some(Config(code))), env, unlock);
      var r2 := Receive.ReceivePacket(r1.store, env, create);
      var r3 := Replies.HandleReply(r2.store, Reply(LOCKUP_ID, SubOk(tx)));
      var r4 := Receive.ReceivePacket(r3.store, env, lock);
      var r5 := Receive.ReceivePacket(r4.store, env, unlock);
      var r6 := Replies.HandleReply(r5.store, Reply(UNLOCK_TOKEN_ID, SubErr("No found lockup id")));
      && r1.out.value == ReceiveResponse(AckError(Contract(LockupNotFound)), [])
      && r2.out.value == Receive.Issue(SubMsg(LOCKUP_ID, WasmInstantiate(None, code, LockupInitMsg(env.contractAddress), "Lockup channel-9", []), Always))
      && r3.out == Ok(Some(AckResult(LockupResult("lockup-addr"))))
      && r4.out.value == Receive.Issue(SubMsg(LOCK_TOKEN_ID, WasmExecute("lockup-addr", ExecuteLock(86400), [Coin("gamm/pool/1", 54321)]), Always))
      && r5.out.value == Receive.Issue(SubMsg(UNLOCK_TOKEN_ID, WasmExecute("lockup-addr", ExecuteUnlock(1), []), OnError))
      && r6.out == Ok(Some(AckError(Message("No found lockup id"))))
      && r6.store.ledger == map[("channel-9", "gamm/pool/1") := ChannelState(987600000, 987654321)]
  {
    IncomingFromSender(0, "gamm/pool/1", Some(LockupAccount));
    IncomingFromSender(54321, "gamm/pool/1", Some(Lock(LockPacket(86400))));
    IncomingFromSender(0, "gamm/pool/1", Some(Unlock(UnlockPacket(1))));
    LockupAccountScenario(env, code, tx, create, unlock);
    LockupActionsScenario(env, LockupBound(code, "gamm/pool/1"), lock, unlock);
    var r4 := Receive.ReceivePacket(LockupBound(code, "gamm/pool/1"), env, lock);
    Replies.FailedReplyKeepsState(Receive.ReceivePacket(r4.store, env, unlock).store, UNLOCK_TOKEN_ID, "No found lockup id");
  }

  /**
   * Claiming rewards: with 987654321 uosmo sent, an account is created and bound, and
   * the claim's reply of 45679 uosmo is credited (outstanding and total sent both
   * 987700000) and acknowledged.
   */
  lemma {:induction false} ClaimScenario(env: Env, code: nat, tx: SubMsgResponse, claimed: SubMsgResponse, payload: Payload,
                                         create: IbcPacket, claim: IbcPacket)
    requires tx.instantiate == Ok("lockup-addr")
    requires claimed.executeData == Some(Decoded(ExecuteData(Some(payload))))
    requires payload.asCoin == Decoded(Coin("uosmo", 45679))
    requires create == Incoming("channel-9", 0, "uosmo", "", Some(LockupAccount))
    requires claim == Incoming("channel-9", 0, "uosmo", "", Some(Claim(ClaimPacket("uosmo"))))
    ensures var r1 := Receive.ReceivePacket(AfterTransfer("channel-9", "uosmo", 987654321, Some(Config(code))), env, create);
      var r2 := Replies.HandleReply(r1.store, Reply(LOCKUP_ID, SubOk(tx)));
      var r3 := Receive.ReceivePacket(r2.store, env, claim);
      var r4 := Replies.HandleReply(r3.store, Reply(CLAIM_TOKEN_ID, SubOk(claimed)));
      && r2.out == Ok(Some(AckResult(LockupResult("lockup-addr"))))
      && r3.out.value == Receive.Issue(SubMsg(CLAIM_TOKEN_ID, WasmExecute("lockup-addr", ExecuteClaim("uosmo"), []), Always))
      && r4.out == Ok(Some(AckResult(AmountResult(AmountResultAck("uosmo", 45679)))))
      && r4.store.ledger == map[("channel-9", "uosmo") := ChannelState(987700000, 987700000)]
  {
    IncomingFromSender(0, "uosmo", Some(LockupAccount));
    IncomingFromSender(0, "uosmo", Some(Claim(ClaimPacket("uosmo"))));
    var s0 := AfterTransfer("channel-9", "uosmo", 987654321, Some(Config(code)));
    CreateLockupStep(s0, env, create, code, "uosmo");
    var r1 := Receive.ReceivePacket(s0, env, create);
    Replies.LockupReplyBinds(r1.store, tx);
    var r2 := Replies.HandleReply(r1.store, Reply(LOCKUP_ID, SubOk(tx)));
    assert r2.store.lockup == map[("channel-9", SENDER) := "lockup-addr"];
    ClaimStep(r2.store, env, claim, "uosmo");
    var r3 := Receive.ReceivePacket(r2.store, env, claim);
    assert r3.store.ledger == map[("channel-9", "uosmo") := ChannelState(987654321, 987654321)];
    ClaimReplyStep(r3.store, claimed, payload);
  }

  /** The claim's reply credits 45679 uosmo to "channel-9". */
  lemma ClaimReplyStep(s: Store, claimed: SubMsgResponse, payload: Payload)
    requires claimed.executeData == Some(Decoded(ExecuteData(Some(payload))))
    requires payload.asCoin == Decoded(Coin("uosmo", 45679))
    requires s.ledger == map[("channel-9", "uosmo") := ChannelState(987654321, 987654321)]
    requires s.replyArgs == Some(ReplyArgs("channel-9", "uosmo", 0, SENDER))
    ensures var r := Replies.HandleReply(s, Reply(CLAIM_TOKEN_ID, SubOk(claimed)));
      && r.out == Ok(Some(AckResult(AmountResult(AmountResultAck("uosmo", 45679)))))
      && r.store.ledger == map[("channel-9", "uosmo") := ChannelState(987700000, 987700000)]
  {
    assert Replies.HandleReply(s, Reply(CLAIM_TOKEN_ID, SubOk(claimed))).store.ledger
      == Ledger.IncreaseChannelBalance(s.ledger, "channel-9", "uosmo", 45679);
  }
}
