/**
 * The contract's storage as an object, and the entry points as methods that update
 * it step by step. Each method is proved to leave exactly the storage, and to return
 * exactly the result, that the corresponding specification function gives.
 */
module Contract {
  import opened Wrappers
  import opened Ics20Types
  import Voucher
  import Handshake
  import Ledger
  import Receive
  import Replies
  import Settlement

  class Ics20Contract {
    /** CHANNEL_STATE: (channel, denom) -> escrow counters */
    var ledger: Balances
    /** LOCKUP: (channel, sender) -> lockup sub-account address */
    var lockup: map<(string, string), string>
    /** CHANNEL_INFO: channel id -> channel metadata */
    var channels: map<string, ChannelInfo>
    /** REPLY_ARGS: the single continuation slot */
    var replyArgs: Option<ReplyArgs>
    /** CONFIG */
    var config: Option<Config>

    /** The storage as a value. */
    function State(): Store
      reads this
    {
      Store(ledger, lockup, channels, replyArgs, config)
    }

    constructor (config: Option<Config>)
      ensures State() == Store(map[], map[], map[], None, config)
    {
      ledger := map[];
      lockup := map[];
      channels := map[];
      replyArgs := None;
      this.config := config;
    }

    // ----- ledger helpers -----

    /** Credits newly escrowed value (also how the outbound transfer path records a send). */
    method IncreaseChannelBalance(channel: string, denom: string, amount: nat)
      modifies this`ledger
      ensures ledger == Ledger.IncreaseChannelBalance(old(ledger), channel, denom, amount)
    {
      var key := (channel, denom);
      var state := if key in ledger then ledger[key] else ChannelState(0, 0);
      ledger := ledger[key := ChannelState(state.outstanding + amount, state.totalSent + amount)];
    }

    method ReduceChannelBalance(channel: string, denom: string, amount: nat) returns (r: Result<(), ContractError>)
      modifies this`ledger
      ensures match Ledger.ReduceChannelBalance(old(ledger), channel, denom, amount)
        case Ok(l) => r == Ok(()) && ledger == l
        case Err(e) => r == Err(e) && ledger == old(ledger)
    {
      var key := (channel, denom);
      if key !in ledger || ledger[key].outstanding < amount {
        return Err(InsufficientFunds);
      }
      var state := ledger[key];
      ledger := ledger[key := state.(outstanding := state.outstanding - amount)];
      r := Ok(());
    }

    /** Gives back the debit recorded in the continuation slot. */
    method RestoreBalanceReply() returns (r: Result<(), ContractError>)
      modifies this`ledger
      ensures match Replies.RestoreBalanceReply(old(State()))
        case Ok(s) => r == Ok(()) && State() == s
        case Err(e) => r == Err(e) && ledger == old(ledger)
    {
      if replyArgs.None? {
        return Err(NotFound(ReplyArgsItem));
      }
      var args := replyArgs.value;
      var key := (args.channel, args.denom);
      var state := if key in ledger then ledger[key] else ChannelState(0, 0);
      ledger := ledger[key := state.(outstanding := state.outstanding + args.amount)];
      r := Ok(());
    }

    // ----- channel lifecycle -----

    method ChannelConnect(channel: IbcChannel, counterpartyVersion: Option<string>) returns (r: Result<(), ContractError>)
      modifies this`channels
      ensures Step(State(), r) == Handshake.ChannelConnect(old(State()), channel, counterpartyVersion)
    {
      r := Handshake.EnforceOrderAndVersion(channel, counterpartyVersion);
      if r.Err? {
        return;
      }
      var info := ChannelInfo(channel.endpoint.channelId, channel.counterpartyEndpoint, channel.connectionId);
      channels := channels[info.id := info];
    }

    // ----- receive -----

    /** `ibc_packet_receive`: every error of the receive work becomes an error acknowledgement. */
    method PacketReceive(env: Env, packet: IbcPacket) returns (response: ReceiveResponse)
      modifies this`ledger, this`replyArgs
      ensures Step(State(), Ok(response)) == Receive.ReceivePacket(old(State()), env, packet)
    {
      var r := DoPacketReceive(env, packet);
      match r {
        case Ok(res) => response := res;
        case Err(e) => response := ReceiveResponse(AckFail(Contract(e)), []);
      }
    }

    method DoPacketReceive(env: Env, packet: IbcPacket) returns (r: Result<ReceiveResponse, ContractError>)
      modifies this`ledger, this`replyArgs
      ensures Step(State(), r) == Receive.DoReceive(old(State()), env, packet)
    {
      ghost var s0 := State();
      if packet.data.Undecodable? {
        return Err(External(packet.data.reason));
      }
      var msg := packet.data.value;
      var channel := packet.dest.channelId;
      var voucher := Voucher.ParseVoucher(msg.denom, packet.src);
      if voucher.Err? {
        return Err(voucher.error);
      }
      var denom := voucher.value.denom;
      var debit := ReduceChannelBalance(channel, denom, msg.amount);
      if debit.Err? {
        return Err(debit.error);
      }
      replyArgs := Some(ReplyArgs(channel, denom, msg.amount, msg.sender));
      assert State() == Receive.AfterDebit(s0, ledger, channel, denom, msg.amount, msg.sender);
      r := Receive.Dispatch(State(), env, channel, msg, Coin(denom, msg.amount));
    }

    // ----- replies -----

    /** `reply`: the id selects the continuation. */
    method Reply(reply: Reply) returns (r: Result<Replies.ReplyData, ContractError>)
      modifies this`ledger, this`lockup
      ensures Step(State(), r) == Replies.HandleReply(old(State()), reply)
    {
      var kind := Replies.KindOf(reply.id);
      if kind.None? {
        return Err(UnknownReplyId(reply.id));
      }
      match kind.value {
        case ReceiveReply => r := ReplyReceive(reply.result);
        case SwapReply => r := ReplyGammResult(reply.result);
        case JoinPoolReply => r := ReplyGammResult(reply.result);
        case ExitPoolReply => r := ReplyGammResult(reply.result);
        case LockupReply => r := ReplyLockupAccount(reply.result);
        case LockTokenReply => r := ReplyAckFromData(reply.result);
        case ClaimTokenReply => r := ReplyClaimResult(reply.result);
        case UnlockTokenReply => r := Replies.ReplyAckOnError(reply.result);
        case AckFailureReply => r := Replies.ReplyAckOnError(reply.result);
      }
    }

    /** Restore the debit, then report the failure message. */
    method RestoreAndFail(msg: string) returns (r: Result<Replies.ReplyData, ContractError>)
      modifies this`ledger
      ensures Step(State(), r) == Replies.RestoreAndFail(old(State()), msg)
    {
      var restored := RestoreBalanceReply();
      if restored.Err? {
        return Err(restored.error);
      }
      r := Ok(Some(AckFail(Message(msg))));
    }

    method ReplyGammResult(result: SubMsgResult) returns (r: Result<Replies.ReplyData, ContractError>)
      modifies this`ledger
      ensures Step(State(), r) == Replies.ReplyGammResult(old(State()), result)
    {
      if result.SubErr? {
        r := RestoreAndFail(result.error);
        return;
      }
      var gamm := result.response.gamm;
      if gamm.Err? {
        r := RestoreAndFail(gamm.error);
        return;
      }
      if replyArgs.None? {
        return Err(NotFound(ReplyArgsItem));
      }
      var args := replyArgs.value;
      IncreaseChannelBalance(args.channel, gamm.value.denom, gamm.value.amount);
      r := Ok(Some(AckSuccessWithBody(AmountResult(gamm.value))));
    }

    method ReplyLockupAccount(result: SubMsgResult) returns (r: Result<Replies.ReplyData, ContractError>)
      modifies this`lockup
      ensures Step(State(), r) == Replies.ReplyLockupAccount(old(State()), result)
    {
      if result.SubErr? {
        return Ok(Some(AckFail(Message(result.error))));
      }
      var instantiate := result.response.instantiate;
      if instantiate.Err? {
        return Ok(Some(AckFail(Message(instantiate.error))));
      }
      if replyArgs.None? {
        return Err(NotFound(ReplyArgsItem));
      }
      var args := replyArgs.value;
      lockup := lockup[(args.channel, args.sender) := instantiate.value];
      r := Ok(Some(AckSuccessWithBody(LockupResult(instantiate.value))));
    }

    method ReplyClaimResult(result: SubMsgResult) returns (r: Result<Replies.ReplyData, ContractError>)
      modifies this`ledger
      ensures Step(State(), r) == Replies.ReplyClaimResult(old(State()), result)
    {
      if result.SubErr? {
        r := RestoreAndFail(result.error);
        return;
      }
      var data := Replies.ExecuteResponseData(result.response);
      if data.Err? {
        return Err(data.error);
      }
      if data.value.asCoin.Undecodable? {
        return Err(External(data.value.asCoin.reason));
      }
      var token := data.value.asCoin.value;
      if replyArgs.None? {
        return Err(NotFound(ReplyArgsItem));
      }
      var args := replyArgs.value;
      IncreaseChannelBalance(args.channel, token.denom, token.amount);
      r := Ok(Some(AckSuccessWithBody(AmountResult(AmountResultAck(token.denom, token.amount)))));
    }

    method ReplyAckFromData(result: SubMsgResult) returns (r: Result<Replies.ReplyData, ContractError>)
      modifies this`ledger
      ensures Step(State(), r) == Replies.ReplyAckFromData(old(State()), result)
    {
      if result.SubErr? {
        r := RestoreAndFail(result.error);
        return;
      }
      var data := Replies.ExecuteResponseData(result.response);
      if data.Err? {
        return Err(data.error);
      }
      r := Ok(Some(AckSuccessWithBody(Bytes(data.value.bytes))));
    }

    method ReplyReceive(result: SubMsgResult) returns (r: Result<Replies.ReplyData, ContractError>)
      modifies this`ledger
      ensures Step(State(), r) == Replies.ReplyReceive(old(State()), result)
    {
      if result.SubOk? {
        return Ok(None);
      }
      r := RestoreAndFail(result.error);
    }

    // ----- acknowledgement and timeout -----

    method PacketAck(packet: IbcPacket, ack: Wire<Ics20Ack>) returns (r: Result<seq<SubMsg>, ContractError>)
      modifies this`ledger
      ensures Step(State(), r) == Settlement.PacketAck(old(State()), packet, ack)
    {
      match ack {
        case Undecodable(reason) => r := Err(External(reason));
        case Decoded(AckResult(_)) => r := Settlement.OnPacketSuccess(packet);
        case Decoded(AckError(reason)) => r := OnPacketFailure(packet, reason);
      }
    }

    method PacketTimeout(packet: IbcPacket) returns (r: Result<seq<SubMsg>, ContractError>)
      modifies this`ledger
      ensures Step(State(), r) == Settlement.PacketTimeout(old(State()), packet)
    {
      r := OnPacketFailure(packet, Message("timeout"));
    }

    method OnPacketFailure(packet: IbcPacket, err: AckReason) returns (r: Result<seq<SubMsg>, ContractError>)
      modifies this`ledger
      ensures Step(State(), r) == Settlement.OnPacketFailure(old(State()), packet, err)
    {
      ghost var s0 := State();
      if packet.data.Undecodable? {
        return Err(External(packet.data.reason));
      }
      var msg := packet.data.value;
      var debit := ReduceChannelBalance(packet.src.channelId, msg.denom, msg.amount);
      if debit.Err? {
        return Err(debit.error);
      }
      r := Ok([SubMsg(ACK_FAILURE_ID, Receive.SendAmount(Coin(msg.denom, msg.amount), msg.sender), OnError)]);
    }
  }
}
