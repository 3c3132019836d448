/** Values exchanged between the relayer and the two chains: fixed-width
    integers as Go stores them, the IBC objects the relayer observes
    (connection and channel ends with their proofs), packets, the messages it
    submits, and the errors it reports. */
module IbcTypes {
  import opened Wrappers

  // ---------------------------------------------------------------------
  // Go's fixed-width integers, with their wrap-around written out
  // ---------------------------------------------------------------------

  const TWO_TO_THE_64: int := 0x1_0000_0000_0000_0000
  const TWO_TO_THE_63: int := 0x8000_0000_0000_0000
  const MAX_U64: int := TWO_TO_THE_64 - 1

  newtype u8 = x: int | 0 <= x < 0x100
  newtype u64 = x: int | 0 <= x < 0x1_0000_0000_0000_0000
  newtype i64 = x: int | -0x8000_0000_0000_0000 <= x < 0x8000_0000_0000_0000

  type Bytes = seq<u8>

  /** Go's `x + 1` on a uint64: wraps to 0 past the maximum. */
  function Succ(x: u64): (r: u64)
    ensures r as int == (x as int + 1) % TWO_TO_THE_64
  {
    if x as int == MAX_U64 then 0 else x + 1
  }

  /** Go's conversion `uint64(x)` of an int64: negative values wrap. */
  function ToU64(x: i64): (r: u64)
    ensures (r as int - x as int) % TWO_TO_THE_64 == 0
  {
    if x < 0 then (x as int + TWO_TO_THE_64) as u64 else x as int as u64
  }

  /** Go's conversion `int64(x)` of a uint64: values past 2^63-1 wrap negative. */
  function ToI64(x: u64): (r: i64)
    ensures (r as int - x as int) % TWO_TO_THE_64 == 0
  {
    if x as int < TWO_TO_THE_63 then x as int as i64 else (x as int - TWO_TO_THE_64) as i64
  }

  /** Go's `int64(h) - 1` for a uint64 height `h`, wrapping at the int64 minimum. */
  function PrevHeight(h: u64): (r: i64)
    ensures 0 < h as int < TWO_TO_THE_63 ==> r as int == h as int - 1
  {
    var x := ToI64(h) as int - 1;
    if x < -TWO_TO_THE_63 then (x + TWO_TO_THE_64) as i64 else x as i64
  }

  // ---------------------------------------------------------------------
  // Observed on-chain objects
  // ---------------------------------------------------------------------

  /** The lifecycle every connection and channel end goes through. */
  datatype State = Uninitialized | Init | TryOpen | Open

  /** Channel ordering: NONE, UNORDERED or ORDERED. */
  datatype Order = NoOrder | Unordered | Ordered

  /** The two ends of a relay path. */
  datatype Side = Src | Dst {
    function Other(): Side {
      if Src? then Dst else Src
    }
  }

  datatype Signer = Signer(address: Bytes)
  datatype Proof = Proof(raw: Bytes)

  /** A light-client header of one chain, to be fed to the other chain's client. */
  datatype Header = Header(chainId: string, height: u64)

  datatype ConnectionEnd = ConnectionEnd(state: State, clientId: string)

  /** A connection end together with the proof of it at `proofHeight`. */
  datatype ConnectionResponse = ConnectionResponse(connection: ConnectionEnd, proof: Proof, proofHeight: u64)

  /** A consensus state proof at `proofHeight`. */
  datatype ConsensusStateResponse = ConsensusStateResponse(proof: Proof, proofHeight: u64)

  datatype ChannelEnd = ChannelEnd(state: State, ordering: Order, version: string)

  /** A channel end together with the proof of it at `proofHeight`. */
  datatype ChannelResponse = ChannelResponse(channel: ChannelEnd, proof: Proof, proofHeight: u64)

  /** A channel as listed by a connection-channels query. */
  datatype IdentifiedChannel = IdentifiedChannel(channel: ChannelEnd, portId: string, channelId: string)

  /** A packet travelling from (sourcePort, sourceChannel) to (destPort, destChannel). */
  datatype Packet = Packet(
    data: Bytes,
    sequence: u64,
    sourcePort: string,
    sourceChannel: string,
    destPort: string,
    destChannel: string,
    timeoutHeight: u64,
    timeoutTimestamp: u64)

  // ---------------------------------------------------------------------
  // Messages the relayer submits
  // ---------------------------------------------------------------------

  datatype Msg =
    | UpdateClient(clientId: string, header: Header, signer: Signer)
    | ConnOpenInit(connectionId: string, clientId: string,
                   counterpartyConnectionId: string, counterpartyClientId: string,
                   prefix: string, signer: Signer)
    | ConnOpenTry(connectionId: string, clientId: string,
                  counterpartyConnectionId: string, counterpartyClientId: string,
                  prefix: string, versions: seq<string>,
                  proofInit: Proof, proofConsensus: Proof,
                  proofHeight: u64, consensusHeight: u64, signer: Signer)
    | ConnOpenAck(connectionId: string, proofTry: Proof, proofConsensus: Proof,
                  proofHeight: u64, consensusHeight: u64, version: string, signer: Signer)
    | ConnOpenConfirm(connectionId: string, proofAck: Proof, proofHeight: u64, signer: Signer)
    | ChanOpenInit(portId: string, channelId: string, version: string, ordering: Order,
                   connectionHops: seq<string>, counterpartyPortId: string,
                   counterpartyChannelId: string, signer: Signer)
    | ChanOpenTry(portId: string, channelId: string, version: string, ordering: Order,
                  connectionHops: seq<string>, counterpartyPortId: string,
                  counterpartyChannelId: string, counterpartyVersion: string,
                  proofInit: Proof, proofHeight: u64, signer: Signer)
    | ChanOpenAck(portId: string, channelId: string, counterpartyVersion: string,
                  proofTry: Proof, proofHeight: u64, signer: Signer)
    | ChanOpenConfirm(portId: string, channelId: string, proofAck: Proof,
                      proofHeight: u64, signer: Signer)
    | ChanCloseInit(portId: string, channelId: string, signer: Signer)
    | ChanCloseConfirm(portId: string, channelId: string, proofInit: Proof,
                       proofHeight: u64, signer: Signer)
    | RecvPacket(packet: Packet, proof: Proof, proofHeight: u64, signer: Signer)
    | Timeout(packet: Packet, nextSequenceRecv: u64, proof: Proof, proofHeight: u64, signer: Signer)
    | Acknowledgement(packet: Packet, acknowledgement: Bytes, proof: Proof,
                      proofHeight: u64, signer: Signer)
    | SendPacket(packet: Packet, signer: Signer)
  {
    /** The height at which the message's proof must verify, for messages carrying one. */
    function ProvenAt(): Option<u64> {
      match this
      case ConnOpenTry(_, _, _, _, _, _, _, _, h, _, _) => Some(h)
      case ConnOpenAck(_, _, _, h, _, _, _) => Some(h)
      case ConnOpenConfirm(_, _, h, _) => Some(h)
      case ChanOpenTry(_, _, _, _, _, _, _, _, _, h, _) => Some(h)
      case ChanOpenAck(_, _, _, _, h, _) => Some(h)
      case ChanOpenConfirm(_, _, _, h, _) => Some(h)
      case ChanCloseConfirm(_, _, _, h, _) => Some(h)
      case RecvPacket(_, _, h, _) => Some(h)
      case Timeout(_, _, _, h, _) => Some(h)
      case Acknowledgement(_, _, _, h, _) => Some(h)
      case _ => None
    }
  }

  // ---------------------------------------------------------------------
  // Errors and the results of external calls
  // ---------------------------------------------------------------------

  datatype Error =
    /** An error returned by a chain query, a submission or another external call. */
    | ExternalError(reason: string)
    /** InitializeConnection found both connection identifiers already set. */
    | ConnectionEndsAlreadyCreated
    /** QueryChannel found no channel with the requested identifier. */
    | ChannelNotFound(channelId: string, chainId: string, clientId: string, connectionId: string)
    /** The unpacked client state is not a tendermint client state. */
    | NotTendermintClientState
    /** The retry budget of CreateOpenConnections ran out; names both path ends. */
    | ConnectionFailed(srcChainId: string, srcClientId: string, srcConnectionId: string,
                       dstChainId: string, dstClientId: string, dstConnectionId: string)
    /** A transaction response had no log at the index the relayer reads
        (Go panics on the out-of-range index; the model reports it). */
    | MissingTxLog

  /** A Go `(value, error)` pair whose value is kept even when the error is set. */
  datatype Reply<+T> = Reply(value: T, err: Option<Error>)

  datatype Attribute = Attribute(key: string, value: string)
  datatype Event = Event(kind: string, attributes: seq<Attribute>)
  datatype TxLog = TxLog(events: seq<Event>)

  /** What a chain reports about a submitted transaction. */
  datatype TxResponse = TxResponse(logs: seq<TxLog>)

  /** The `(response, success, error)` triple of `SendMsgs`; success and error are independent. */
  datatype SendReply = SendReply(response: TxResponse, success: bool, err: Option<Error>)
}
