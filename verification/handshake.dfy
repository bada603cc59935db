/**
 * The channel handshake guard: version and ordering checks at open and connect,
 * the channel registry write at connect, and the refusal of a locally started close.
 */
module Handshake {
  import opened Wrappers
  import opened Ics20Types

  /** The version and ordering check shared by open and connect. */
  function EnforceOrderAndVersion(channel: IbcChannel, counterpartyVersion: Option<string>): (r: Result<(), ContractError>)
    ensures r.Ok? <==>
      && channel.version == ICS20_VERSION
      && (counterpartyVersion.Some? ==> counterpartyVersion.value == ICS20_VERSION)
      && channel.order == Unordered
    ensures channel.version != ICS20_VERSION ==> r == Err(InvalidIbcVersion(channel.version))
    ensures channel.version == ICS20_VERSION && counterpartyVersion.Some? && counterpartyVersion.value != ICS20_VERSION
      ==> r == Err(InvalidIbcVersion(counterpartyVersion.value))
    ensures
      && channel.version == ICS20_VERSION
      && (counterpartyVersion.Some? ==> counterpartyVersion.value == ICS20_VERSION)
      && channel.order != Unordered
      ==> r == Err(OnlyOrderedChannel)
    ensures r.Err? && r.error != OnlyOrderedChannel ==> r.error.InvalidIbcVersion?
  {
    if channel.version != ICS20_VERSION then
      Err(InvalidIbcVersion(channel.version))
    else if counterpartyVersion.Some? && counterpartyVersion.value != ICS20_VERSION then
      Err(InvalidIbcVersion(counterpartyVersion.value))
    else if channel.order != ICS20_ORDERING then
      Err(OnlyOrderedChannel)
    else
      Ok(())
  }

  /** Opening a channel only checks it; nothing is stored. */
  function ChannelOpen(channel: IbcChannel, counterpartyVersion: Option<string>): (r: Result<(), ContractError>)
    ensures r.Ok? <==>
      channel.version == ICS20_VERSION && channel.order == Unordered &&
      (counterpartyVersion.Some? ==> counterpartyVersion.value == ICS20_VERSION)
  {
    EnforceOrderAndVersion(channel, counterpartyVersion)
  }

  /** The record kept for a connected channel. */
  function InfoOf(channel: IbcChannel): ChannelInfo
  {
    ChannelInfo(channel.endpoint.channelId, channel.counterpartyEndpoint, channel.connectionId)
  }

  /**
   * Connecting checks the channel like opening does and, when it passes, records
   * it under its own channel id; no other storage changes.
   */
  function ChannelConnect(s: Store, channel: IbcChannel, counterpartyVersion: Option<string>): (r: Step<()>)
    ensures r.out.Ok? <==> ChannelOpen(channel, counterpartyVersion).Ok?
    ensures r.out.Err? ==> r.store == s
    ensures r.out.Ok? ==>
      && channel.endpoint.channelId in r.store.channels
      && r.store.channels[channel.endpoint.channelId].id == channel.endpoint.channelId
      && r.store.channels[channel.endpoint.channelId].counterpartyEndpoint == channel.counterpartyEndpoint
      && r.store.channels[channel.endpoint.channelId].connectionId == channel.connectionId
    ensures forall id :: id in s.channels && id != channel.endpoint.channelId ==> id in r.store.channels && r.store.channels[id] == s.channels[id]
    ensures forall id :: id in r.store.channels && id != channel.endpoint.channelId ==> id in s.channels
    ensures r.store.ledger == s.ledger && r.store.lockup == s.lockup && r.store.replyArgs == s.replyArgs && r.store.config == s.config
  {
    match EnforceOrderAndVersion(channel, counterpartyVersion)
    case Err(e) => Step(s, Err(e))
    case Ok(_) =>
      var info := InfoOf(channel);
      Step(s.(channels := s.channels[info.id := info]), Ok(()))
  }

  /** A close confirmed by the counterparty is accepted; a close started here is refused. */
  function ChannelClose(msg: ChannelCloseMsg): (r: Result<(), ContractError>)
    ensures r.Ok? <==> msg.CloseConfirm?
    ensures r.Err? ==> r.error == CannotClose
  {
    match msg
    case CloseConfirm(_) => Ok(())
    case CloseInit(_) => Err(CannotClose)
  }
}
