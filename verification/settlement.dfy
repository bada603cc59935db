/**
 * Settlement of packets this endpoint sent: a success acknowledgement changes
 * nothing; an error acknowledgement or a timeout debits the escrow of the
 * packet's (source channel, denom) and pays the amount back to the sender.
 */
module Settlement {
  import opened Wrappers
  import opened Ics20Types
  import Ledger

  /** A remote success: the packet must decode, and nothing else happens. */
  function OnPacketSuccess(packet: IbcPacket): (r: Result<seq<SubMsg>, ContractError>)
    ensures r.Ok? <==> packet.data.Decoded?
    ensures r.Ok? ==> r.value == []
  {
    match packet.data
    case Undecodable(reason) => Err(External(reason))
    case Decoded(_) => Ok([])
  }

  /** The refund of `amount` of `denom` to `sender`, reported only if it fails. */
  function RefundOf(msg: Ics20Packet): SubMsg
  {
    SubMsg(ACK_FAILURE_ID, BankSend(msg.sender, [Coin(msg.denom, msg.amount)]), OnError)
  }

  /**
   * What settling a sent packet as failed means, whichever entry point does it:
   * the refund is issued exactly when the packet decodes and the escrow of its
   * (source channel, denom) pair covers the amount; an undecodable packet is an
   * External error and an uncovered one InsufficientFunds, both changing nothing;
   * only the ledger ever changes, and on success the escrow of that pair drops by
   * the amount while the total sent and every other pair stay.
   */
  ghost predicate FailureSettled(s: Store, packet: IbcPacket, r: Step<seq<SubMsg>>)
  {
    && (r.out.Ok? <==>
        && packet.data.Decoded?
        && (packet.src.channelId, packet.data.value.denom) in s.ledger
        && packet.data.value.amount <= s.ledger[(packet.src.channelId, packet.data.value.denom)].outstanding)
    && (packet.data.Undecodable? ==> r == Step(s, Err(External(packet.data.reason))))
    && (packet.data.Decoded? && r.out.Err? ==> r.out.error == InsufficientFunds)
    && (r.out.Err? ==> r.store == s)
    && r.store == s.(ledger := r.store.ledger)
    && (r.out.Ok? ==>
        && packet.data.Decoded?
        && var msg := packet.data.value;
           && r.out.value == [SubMsg(ACK_FAILURE_ID, BankSend(msg.sender, [Coin(msg.denom, msg.amount)]), OnError)]
           && Ledger.Outstanding(r.store.ledger, packet.src.channelId, msg.denom) + msg.amount
              == Ledger.Outstanding(s.ledger, packet.src.channelId, msg.denom)
           && Ledger.TotalSent(r.store.ledger, packet.src.channelId, msg.denom) == Ledger.TotalSent(s.ledger, packet.src.channelId, msg.denom)
           && Ledger.SameElsewhere(s.ledger, r.store.ledger, (packet.src.channelId, msg.denom)))
  }

  /**
   * A remote failure or timeout: debit (source channel, denom) by the amount, failing
   * with InsufficientFunds if it does not cover it, and issue one refund to the sender.
   * `err` only labels the event.
   */
  function OnPacketFailure(s: Store, packet: IbcPacket, err: AckReason): (r: Step<seq<SubMsg>>)
    ensures FailureSettled(s, packet, r)
  {
    match packet.data
    case Undecodable(reason) => Step(s, Err(External(reason)))
    case Decoded(msg) =>
      match Ledger.ReduceChannelBalance(s.ledger, packet.src.channelId, msg.denom, msg.amount)
      case Err(e) => Step(s, Err(e))
      case Ok(ledger) => Step(s.(ledger := ledger), Ok([RefundOf(msg)]))
  }

  /** `ibc_packet_ack`: decode the acknowledgement, then settle as success or failure. */
  function PacketAck(s: Store, packet: IbcPacket, ack: Wire<Ics20Ack>): (r: Step<seq<SubMsg>>)
    ensures ack.Undecodable? ==> r == Step(s, Err(External(ack.reason)))
    ensures ack.Decoded? && ack.value.AckResult? ==> r.store == s && (r.out.Ok? ==> r.out.value == [])
    ensures ack.Decoded? && ack.value.AckResult? ==>
      && (r.out.Ok? <==> packet.data.Decoded?)
      && (packet.data.Undecodable? ==> r.out == Err(External(packet.data.reason)))
    ensures ack.Decoded? && ack.value.AckError? ==> FailureSettled(s, packet, r)
    ensures r.store == s.(ledger := r.store.ledger)
  {
    match ack
    case Undecodable(reason) => Step(s, Err(External(reason)))
    case Decoded(AckResult(_)) => Step(s, OnPacketSuccess(packet))
    case Decoded(AckError(reason)) => OnPacketFailure(s, packet, reason)
  }

  /**
   * `ibc_packet_timeout`: settled like a failure with the reason "timeout", so the
   * refund is issued exactly when the escrow of the packet's pair covers its amount.
   */
  function PacketTimeout(s: Store, packet: IbcPacket): (r: Step<seq<SubMsg>>)
    ensures FailureSettled(s, packet, r)
  {
    OnPacketFailure(s, packet, Message("timeout"))
  }

  /** The failure reason only labels the event: it changes neither the storage nor the refund. */
  lemma FailureReasonIrrelevant(s: Store, packet: IbcPacket, err: AckReason, err': AckReason)
    ensures OnPacketFailure(s, packet, err) == OnPacketFailure(s, packet, err')
  {
  }

  /** An error acknowledgement and a timeout settle a packet identically. */
  lemma ErrorAckSettlesLikeTimeout(s: Store, packet: IbcPacket, reason: AckReason)
    ensures PacketAck(s, packet, Decoded(AckError(reason))) == PacketTimeout(s, packet)
  {
  }

  /** A failure whose escrow cannot cover the amount is refused and changes nothing. */
  lemma FailureInsufficientFunds(s: Store, packet: IbcPacket, err: AckReason)
    requires packet.data.Decoded?
    requires var key := (packet.src.channelId, packet.data.value.denom);
      key !in s.ledger || s.ledger[key].outstanding < packet.data.value.amount
    ensures OnPacketFailure(s, packet, err) == Step(s, Err(InsufficientFunds))
  {
  }
}
