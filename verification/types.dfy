/**
 * The entities of the ICS-20 swap endpoint: channels, packets, acknowledgements,
 * sub-messages, replies, errors and the contract's storage.
 */
module Ics20Types {
  import opened Wrappers

  /** The only channel version this endpoint speaks, and the only ordering it accepts. */
  const ICS20_VERSION: string := "ics20-1"

  datatype IbcOrder = Ordered | Unordered

  const ICS20_ORDERING: IbcOrder := Unordered

  /** Reply ids: each names the continuation that resumes when a sub-message resolves. */
  const RECEIVE_ID: nat := 1337
  const SWAP_ID: nat := 0xcb37
  const JOIN_POOL_ID: nat := 0xad54
  const EXIT_POOL_ID: nat := 0xfa61
  const ACK_FAILURE_ID: nat := 0xfa17
  const LOCKUP_ID: nat := 0xdf16
  const LOCK_TOKEN_ID: nat := 0xbc42
  const CLAIM_TOKEN_ID: nat := 0x1654
  const UNLOCK_TOKEN_ID: nat := 0x6f11

  // ----- channels -----

  datatype IbcEndpoint = IbcEndpoint(portId: string, channelId: string)

  datatype IbcChannel = IbcChannel(
    endpoint: IbcEndpoint,
    counterpartyEndpoint: IbcEndpoint,
    order: IbcOrder,
    version: string,
    connectionId: string)

  /** What the endpoint records about a connected channel. */
  datatype ChannelInfo = ChannelInfo(id: string, counterpartyEndpoint: IbcEndpoint, connectionId: string)

  /** The two kinds of close notification the host delivers. */
  datatype ChannelCloseMsg = CloseInit(channel: IbcChannel) | CloseConfirm(channel: IbcChannel)

  // ----- errors -----

  /** Storage items whose absence is an error when they are loaded. */
  datatype StorageItem = ReplyArgsItem | ConfigItem

  datatype ContractError =
    /** An error raised by a decoder outside this model, carried by its message. */
    | External(reason: string)
    /** A storage item that was loaded but never saved. */
    | NotFound(item: StorageItem)
    | InvalidIbcVersion(version: string)
    | OnlyOrderedChannel
    | CannotClose
    | NoForeignTokens
    | FromOtherPort(port: string)
    | FromOtherChannel(channel: string)
    | InsufficientFunds
    | NonPayable
    | OnlyLockupByChannel
    | LockupNotFound
    | MissingReplyData
    | UnknownReplyId(id: nat)

  // ----- acknowledgements -----

  /** The `{denom, amount}` record that swap, pool and claim results are acknowledged with. */
  datatype AmountResultAck = AmountResultAck(denom: string, amount: nat)

  /**
   * The payload of a success acknowledgement: raw bytes, or one of the two records
   * the endpoint serialises into it (their wire encoding is not modelled).
   */
  datatype AckBody =
    | Bytes(raw: seq<bv8>)
    | AmountResult(result: AmountResultAck)
    | LockupResult(contract: string)

  /**
   * The message of an error acknowledgement: the display text of one of this
   * endpoint's errors, or a message text handed over by the host or a decoder.
   */
  datatype AckReason = Contract(error: ContractError) | Message(text: string)

  /** The two-variant acknowledgement envelope, `Result(bytes)` or `Error(message)`. */
  datatype Ics20Ack = AckResult(data: AckBody) | AckError(reason: AckReason)

  /** The optimistic success acknowledgement, carrying the single byte "1". */
  function AckSuccess(): Ics20Ack
  {
    AckResult(Bytes([0x31]))
  }

  function AckSuccessWithBody(data: AckBody): Ics20Ack
  {
    AckResult(data)
  }

  function AckFail(reason: AckReason): Ics20Ack
  {
    AckError(reason)
  }

  // ----- packets -----

  datatype Coin = Coin(denom: string, amount: nat)

  datatype SwapAmountInRoute = SwapAmountInRoute(poolId: nat, tokenOutDenom: string)

  datatype SwapPacket = SwapPacket(routes: seq<SwapAmountInRoute>, tokenOutMinAmount: nat)
  datatype JoinPoolPacket = JoinPoolPacket(poolId: nat, shareOutMinAmount: nat)
  datatype ExitPoolPacket = ExitPoolPacket(tokenOutDenom: string, tokenOutMinAmount: nat)
  datatype LockPacket = LockPacket(duration: nat)
  datatype ClaimPacket = ClaimPacket(denom: string)
  datatype UnlockPacket = UnlockPacket(id: nat)

  /** The optional action embedded in an inbound transfer. */
  datatype OsmoPacket =
    | Swap(swap: SwapPacket)
    | JoinPool(joinPool: JoinPoolPacket)
    | ExitPool(exitPool: ExitPoolPacket)
    | LockupAccount
    | Lock(lock: LockPacket)
    | Claim(claim: ClaimPacket)
    | Unlock(unlock: UnlockPacket)

  /** The transfer envelope carried by a packet. */
  datatype Ics20Packet = Ics20Packet(
    amount: nat,
    denom: string,
    sender: string,
    receiver: string,
    action: Option<OsmoPacket>)

  /** The outcome of decoding bytes received from the wire into a `T`. */
  datatype Wire<T> = Decoded(value: T) | Undecodable(reason: string)

  datatype IbcPacket = IbcPacket(data: Wire<Ics20Packet>, src: IbcEndpoint, dest: IbcEndpoint)

  // ----- sub-messages -----

  /** When the host calls back into `reply`: after any outcome, or only after a failure. */
  datatype ReplyOn = Always | OnError

  /** Messages sent to the lockup sub-account contract. */
  datatype LockupExecuteMsg =
    | ExecuteLock(duration: nat)
    | ExecuteClaim(denom: string)
    | ExecuteUnlock(id: nat)

  /** The instantiation message of a lockup sub-account: who may administer its locks. */
  datatype LockupInitMsg = LockupInitMsg(admin: string)

  datatype CosmosMsg =
    | BankSend(toAddress: string, amount: seq<Coin>)
    | SwapExactAmountIn(sender: string, tokenIn: Coin, routes: seq<SwapAmountInRoute>, tokenOutMinAmount: nat)
    | JoinSwapExternAmountIn(sender: string, tokenIn: Coin, poolId: nat, shareOutMinAmount: nat)
    | ExitSwapShareAmountIn(sender: string, poolId: nat, tokenOutDenom: string, shareInAmount: nat, tokenOutMinAmount: nat)
    | WasmInstantiate(admin: Option<string>, codeId: nat, initMsg: LockupInitMsg, instanceLabel: string, funds: seq<Coin>)
    | WasmExecute(contractAddr: string, msg: LockupExecuteMsg, funds: seq<Coin>)

  datatype SubMsg = SubMsg(id: nat, msg: CosmosMsg, replyOn: ReplyOn)

  /** What `ibc_packet_receive` hands back to the host. */
  datatype ReceiveResponse = ReceiveResponse(ack: Ics20Ack, messages: seq<SubMsg>)

  // ----- replies -----

  /** Response data of an executed contract call, with its decoding as a coin. */
  datatype Payload = Payload(bytes: seq<bv8>, asCoin: Wire<Coin>)

  /** A decoded `MsgExecuteContractResponse`: its optional inner data. */
  datatype ExecuteData = ExecuteData(data: Option<Payload>)

  /**
   * A successful sub-message result, already run through the decoders the
   * reply handlers apply to it.
   */
  datatype SubMsgResponse = SubMsgResponse(
    /** `tx.data` parsed as an execute response; None when the host gave no data. */
    executeData: Option<Wire<ExecuteData>>,
    /** The `{denom, amount}` read from the pool module's events, or the parse error. */
    gamm: Result<AmountResultAck, string>,
    /** The address of an instantiated contract, or the parse error. */
    instantiate: Result<string, string>)

  datatype SubMsgResult = SubOk(response: SubMsgResponse) | SubErr(error: string)

  datatype Reply = Reply(id: nat, result: SubMsgResult)

  // ----- storage -----

  /** The continuation record saved before a sub-message is issued. */
  datatype ReplyArgs = ReplyArgs(channel: string, denom: string, amount: nat, sender: string)

  /** Escrow still owed to the channel for a denom, and all that was ever credited to it. */
  datatype ChannelState = ChannelState(outstanding: nat, totalSent: nat)

  type Balances = map<(string, string), ChannelState>

  datatype Config = Config(lockupCodeId: nat)

  /** The contract's storage. */
  datatype Store = Store(
    /** (channel, denom) -> escrow counters */
    ledger: Balances,
    /** (channel, sender) -> lockup sub-account address */
    lockup: map<(string, string), string>,
    /** channel id -> channel metadata */
    channels: map<string, ChannelInfo>,
    /** the single continuation slot */
    replyArgs: Option<ReplyArgs>,
    config: Option<Config>)

  /**
   * The execution environment: this contract's address, and the pool-id parser
   * for pool-share denominations ("gamm/pool/<id>"), which lives outside this model.
   */
  datatype Env = Env(contractAddress: string, parsePoolId: string -> Result<nat, string>)

  /** A handler's new storage and its result. */
  datatype Step<T> = Step(store: Store, out: Result<T, ContractError>)
}
