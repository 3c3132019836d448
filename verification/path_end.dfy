/** One chain's identifiers for a relay path, and the pure constructors that
    turn a path end (plus whatever the counterparty chain reported) into the
    messages submitted to its chain. */
module PathEnds {
  import opened Wrappers
  import opened IbcTypes

  /** The local identifiers of one end of a relay path. An empty string means
      "not yet assigned". `order` is free text, parsed by `GetOrder`. */
  datatype PathEnd = PathEnd(
    chainId: string,
    clientId: string,
    connectionId: string,
    channelId: string,
    portId: string,
    order: string)

  /** A configured chain as the core sees it: its identifier, its path end and
      the address it signs with. */
  datatype Chain = Chain(chainId: string, pathEnd: PathEnd, signer: Signer)

  /** The two chains of a relay path. */
  datatype Path = Path(src: Chain, dst: Chain) {
    function Get(side: Side): Chain {
      if side.Src? then src else dst
    }

    function Set(side: Side, c: Chain): Path {
      if side.Src? then this.(src := c) else this.(dst := c)
    }
  }

  /** A packet commitment proof as queried from the sending chain. */
  datatype CommitmentResponse = CommitmentResponse(proof: Proof, proofHeight: u64)

  /** Defaults the relayer uses for every handshake; no property depends on their values. */
  const DEFAULT_CHAIN_PREFIX: string := "ibc"
  const DEFAULT_IBC_VERSION: string := "1.0.0"
  const DEFAULT_IBC_VERSIONS: seq<string> := [DEFAULT_IBC_VERSION]
  const DEFAULT_TRANSFER_VERSION: string := "ics20-1"

  // ---------------------------------------------------------------------
  // Channel ordering
  // ---------------------------------------------------------------------

  /** The canonical name of an order; `NoOrder` has none. */
  function OrderName(o: Order): Option<string> {
    match o
    case NoOrder => None
    case Unordered => Some("UNORDERED")
    case Ordered => Some("ORDERED")
  }

  /** Parses an order name exactly; every other string means NONE. */
  function OrderFromString(s: string): (o: Order)
    ensures o == Unordered <==> s == "UNORDERED"
    ensures o == Ordered <==> s == "ORDERED"
  {
    if s == "UNORDERED" then Unordered
    else if s == "ORDERED" then Ordered
    else NoOrder
  }

  /** OrderFromString inverts OrderName, and accepts nothing but the canonical names. */
  lemma OrderNameRoundTrip(o: Order, s: string)
    ensures OrderName(o).Some? ==> OrderFromString(OrderName(o).value) == o
    ensures OrderFromString(s) != NoOrder <==> OrderName(OrderFromString(s)) == Some(s)
  {
  }

  /** Upper-cases one character (ASCII letters only). */
  function UpperChar(c: char): char {
    if 'a' <= c <= 'z' then (c as int - 32) as char else c
  }

  /** Go's `strings.ToUpper`, on ASCII letters. */
  function Upper(s: string): string {
    seq(|s|, i requires 0 <= i < |s| => UpperChar(s[i]))
  }

  /** Two strings that differ only in the case of ASCII letters. */
  predicate SameIgnoringCase(a: string, b: string) {
    |a| == |b| && forall i :: 0 <= i < |a| ==> UpperChar(a[i]) == UpperChar(b[i])
  }

  /** Upper-casing fixes a string that is already upper case. */
  lemma UpperOfUpperCase(s: string)
    requires forall i :: 0 <= i < |s| ==> !('a' <= s[i] <= 'z')
    ensures Upper(s) == s
  {
  }

  lemma {:induction false} UpperEqualIff(a: string, b: string)
    requires forall i :: 0 <= i < |b| ==> !('a' <= b[i] <= 'z')
    ensures Upper(a) == b <==> SameIgnoringCase(a, b)
  {
    UpperOfUpperCase(b);
    if SameIgnoringCase(a, b) {
      assert forall i :: 0 <= i < |a| ==> Upper(a)[i] == Upper(b)[i];
    }
  }

  /** The order a path end is configured with, read case-insensitively: each
      order name is recognised in any mix of upper and lower case, and
      nothing else is. */
  function GetOrder(pe: PathEnd): (o: Order)
    ensures o == Ordered <==> SameIgnoringCase(pe.order, "ORDERED")
    ensures o == Unordered <==> SameIgnoringCase(pe.order, "UNORDERED")
  {
    UpperEqualIff(pe.order, "ORDERED");
    UpperEqualIff(pe.order, "UNORDERED");
    OrderFromString(Upper(pe.order))
  }

  // ---------------------------------------------------------------------
  // Client and connection messages
  // ---------------------------------------------------------------------

  /** Updates `pe`'s light client (on pe's chain) with a header of the counterparty. */
  function UpdateClient(pe: PathEnd, dstHeader: Header, signer: Signer): (m: Msg)
    ensures m.UpdateClient? && m.clientId == pe.clientId
    ensures m.header == dstHeader && m.signer == signer
  {
    Msg.UpdateClient(pe.clientId, dstHeader, signer)
  }

  /** Opens a connection on `pe`'s chain towards `dst`: local identifiers first,
      then the counterparty's. */
  function ConnInit(pe: PathEnd, dst: PathEnd, signer: Signer): (m: Msg)
    ensures m.ConnOpenInit? && m.ProvenAt().None?
    ensures m.connectionId == pe.connectionId && m.clientId == pe.clientId
    ensures m.counterpartyConnectionId == dst.connectionId && m.counterpartyClientId == dst.clientId
    ensures m.prefix == DEFAULT_CHAIN_PREFIX
    ensures m.signer == signer
  {
    ConnOpenInit(pe.connectionId, pe.clientId, dst.connectionId, dst.clientId,
                 DEFAULT_CHAIN_PREFIX, signer)
  }

  /** Answers the counterparty's INIT with TRYOPEN, proving it one height above
      the height the connection proof was queried at. */
  function ConnTry(pe: PathEnd, dst: PathEnd, dstConnState: ConnectionResponse,
                   dstConsState: ConsensusStateResponse, dstCsHeight: i64, signer: Signer): (m: Msg)
    ensures m.ConnOpenTry?
    ensures m.connectionId == pe.connectionId && m.clientId == pe.clientId
    ensures m.counterpartyConnectionId == dst.connectionId && m.counterpartyClientId == dst.clientId
    ensures m.proofInit == dstConnState.proof && m.proofConsensus == dstConsState.proof
    ensures m.ProvenAt() == Some(Succ(dstConnState.proofHeight))
    ensures m.consensusHeight == ToU64(dstCsHeight)
    ensures m.prefix == DEFAULT_CHAIN_PREFIX && m.versions == DEFAULT_IBC_VERSIONS
    ensures m.signer == signer
  {
    ConnOpenTry(pe.connectionId, pe.clientId, dst.connectionId, dst.clientId,
                DEFAULT_CHAIN_PREFIX, DEFAULT_IBC_VERSIONS,
                dstConnState.proof, dstConsState.proof,
                Succ(dstConnState.proofHeight), ToU64(dstCsHeight), signer)
  }

  /** Acknowledges the counterparty's TRYOPEN. */
  function ConnAck(pe: PathEnd, dstConnState: ConnectionResponse,
                   dstConsState: ConsensusStateResponse, dstCsHeight: i64, signer: Signer): (m: Msg)
    ensures m.ConnOpenAck? && m.connectionId == pe.connectionId
    ensures m.proofTry == dstConnState.proof && m.proofConsensus == dstConsState.proof
    ensures m.ProvenAt() == Some(Succ(dstConnState.proofHeight))
    ensures m.consensusHeight == ToU64(dstCsHeight)
    ensures m.version == DEFAULT_IBC_VERSION
    ensures m.signer == signer
  {
    ConnOpenAck(pe.connectionId, dstConnState.proof, dstConsState.proof,
                Succ(dstConnState.proofHeight), ToU64(dstCsHeight), DEFAULT_IBC_VERSION, signer)
  }

  /** Confirms the counterparty's OPEN. */
  function ConnConfirm(pe: PathEnd, dstConnState: ConnectionResponse, signer: Signer): (m: Msg)
    ensures m.ConnOpenConfirm? && m.connectionId == pe.connectionId
    ensures m.proofAck == dstConnState.proof
    ensures m.ProvenAt() == Some(Succ(dstConnState.proofHeight))
    ensures m.signer == signer
  {
    ConnOpenConfirm(pe.connectionId, dstConnState.proof, Succ(dstConnState.proofHeight), signer)
  }

  // ---------------------------------------------------------------------
  // Channel messages
  // ---------------------------------------------------------------------

  /** Opens a channel on `pe`'s chain with the locally configured ordering. */
  function ChanInit(pe: PathEnd, dst: PathEnd, signer: Signer): (m: Msg)
    ensures m.ChanOpenInit? && m.ProvenAt().None?
    ensures m.portId == pe.portId && m.channelId == pe.channelId
    ensures m.ordering == GetOrder(pe) && m.version == DEFAULT_TRANSFER_VERSION
    ensures m.connectionHops == [pe.connectionId]
    ensures m.counterpartyPortId == dst.portId && m.counterpartyChannelId == dst.channelId
    ensures m.signer == signer
  {
    ChanOpenInit(pe.portId, pe.channelId, DEFAULT_TRANSFER_VERSION, GetOrder(pe),
                 [pe.connectionId], dst.portId, dst.channelId, signer)
  }

  /** Answers the counterparty's channel INIT, adopting the counterparty's
      ordering and version rather than the local configuration. */
  function ChanTry(pe: PathEnd, dst: PathEnd, dstChanState: ChannelResponse, signer: Signer): (m: Msg)
    ensures m.ChanOpenTry?
    ensures m.portId == pe.portId && m.channelId == pe.channelId
    ensures m.ordering == dstChanState.channel.ordering && m.version == DEFAULT_TRANSFER_VERSION
    ensures m.counterpartyVersion == dstChanState.channel.version
    ensures m.connectionHops == [pe.connectionId]
    ensures m.counterpartyPortId == dst.portId && m.counterpartyChannelId == dst.channelId
    ensures m.proofInit == dstChanState.proof
    ensures m.ProvenAt() == Some(Succ(dstChanState.proofHeight))
    ensures m.signer == signer
  {
    ChanOpenTry(pe.portId, pe.channelId, DEFAULT_TRANSFER_VERSION, dstChanState.channel.ordering,
                [pe.connectionId], dst.portId, dst.channelId, dstChanState.channel.version,
                dstChanState.proof, Succ(dstChanState.proofHeight), signer)
  }

  /** ChanTry ignores the local order setting: path ends that differ only in
      `order` produce the same message. */
  lemma ChanTryIgnoresLocalOrder(pe: PathEnd, order: string, dst: PathEnd,
                                 dstChanState: ChannelResponse, signer: Signer)
    ensures ChanTry(pe.(order := order), dst, dstChanState, signer) == ChanTry(pe, dst, dstChanState, signer)
    ensures ChanInit(pe.(order := order), dst, signer).ordering == OrderFromString(Upper(order))
  {
  }

  /** Acknowledges the counterparty's channel TRYOPEN, carrying its version. */
  function ChanAck(pe: PathEnd, dstChanState: ChannelResponse, signer: Signer): (m: Msg)
    ensures m.ChanOpenAck? && m.portId == pe.portId && m.channelId == pe.channelId
    ensures m.counterpartyVersion == dstChanState.channel.version
    ensures m.proofTry == dstChanState.proof
    ensures m.ProvenAt() == Some(Succ(dstChanState.proofHeight))
    ensures m.signer == signer
  {
    ChanOpenAck(pe.portId, pe.channelId, dstChanState.channel.version,
                dstChanState.proof, Succ(dstChanState.proofHeight), signer)
  }

  /** Confirms the counterparty's channel OPEN. */
  function ChanConfirm(pe: PathEnd, dstChanState: ChannelResponse, signer: Signer): (m: Msg)
    ensures m.ChanOpenConfirm? && m.portId == pe.portId && m.channelId == pe.channelId
    ensures m.proofAck == dstChanState.proof
    ensures m.ProvenAt() == Some(Succ(dstChanState.proofHeight))
    ensures m.signer == signer
  {
    ChanOpenConfirm(pe.portId, pe.channelId, dstChanState.proof,
                    Succ(dstChanState.proofHeight), signer)
  }

  /** Starts closing the channel on `pe`'s chain; needs no proof. */
  function ChanCloseInit(pe: PathEnd, signer: Signer): (m: Msg)
    ensures m.ChanCloseInit? && m.portId == pe.portId && m.channelId == pe.channelId
    ensures m.ProvenAt().None?
    ensures m.signer == signer
  {
    Msg.ChanCloseInit(pe.portId, pe.channelId, signer)
  }

  /** Confirms a close the counterparty started. */
  function ChanCloseConfirm(pe: PathEnd, dstChanState: ChannelResponse, signer: Signer): (m: Msg)
    ensures m.ChanCloseConfirm? && m.portId == pe.portId && m.channelId == pe.channelId
    ensures m.proofInit == dstChanState.proof
    ensures m.ProvenAt() == Some(Succ(dstChanState.proofHeight))
    ensures m.signer == signer
  {
    Msg.ChanCloseConfirm(pe.portId, pe.channelId, dstChanState.proof,
                         Succ(dstChanState.proofHeight), signer)
  }

  // ---------------------------------------------------------------------
  // Packets
  // ---------------------------------------------------------------------

  /** A packet sent from `pe` to `dst`. */
  function NewPacket(pe: PathEnd, dst: PathEnd, sequence: u64, packetData: Bytes,
                     timeoutHeight: u64, timeoutStamp: u64): (p: Packet)
    ensures p.sourcePort == pe.portId && p.sourceChannel == pe.channelId
    ensures p.destPort == dst.portId && p.destChannel == dst.channelId
    ensures p.sequence == sequence && p.data == packetData
    ensures p.timeoutHeight == timeoutHeight && p.timeoutTimestamp == timeoutStamp
  {
    Packet(packetData, sequence, pe.portId, pe.channelId, dst.portId, dst.channelId,
           timeoutHeight, timeoutStamp)
  }

  /** Delivers to `pe`'s chain a packet that `dst` sent. */
  function MsgRecvPacket(pe: PathEnd, dst: PathEnd, sequence: u64, timeoutHeight: u64,
                         timeoutStamp: u64, packetData: Bytes, proof: Proof,
                         proofHeight: u64, signer: Signer): (m: Msg)
    ensures m.RecvPacket? && m.proof == proof && m.signer == signer
    ensures m.packet == NewPacket(dst, pe, sequence, packetData, timeoutHeight, timeoutStamp)
    ensures m.ProvenAt() == Some(Succ(proofHeight))
  {
    RecvPacket(NewPacket(dst, pe, sequence, packetData, timeoutHeight, timeoutStamp),
               proof, Succ(proofHeight), signer)
  }

  /** Times out, on `pe`'s chain, a packet that `pe` sent to `dst`. */
  function MsgTimeout(pe: PathEnd, dst: PathEnd, packetData: Bytes, packetSeq: u64, timeout: u64,
                      timeoutStamp: u64, proof: Proof, proofHeight: u64, signer: Signer): (m: Msg)
    ensures m.Timeout? && m.proof == proof && m.signer == signer
    ensures m.packet == NewPacket(pe, dst, packetSeq, packetData, timeout, timeoutStamp)
    ensures m.nextSequenceRecv == packetSeq
    ensures m.ProvenAt() == Some(Succ(proofHeight))
  {
    Timeout(NewPacket(pe, dst, packetSeq, packetData, timeout, timeoutStamp),
            packetSeq, proof, Succ(proofHeight), signer)
  }

  /** Acknowledges, on `pe`'s chain, a packet that `pe` sent to `dst`. */
  function MsgAck(pe: PathEnd, dst: PathEnd, sequence: u64, timeoutHeight: u64, timeoutStamp: u64,
                  ack: Bytes, packetData: Bytes, proof: Proof, proofHeight: u64, signer: Signer): (m: Msg)
    ensures m.Acknowledgement? && m.acknowledgement == ack
    ensures m.proof == proof && m.signer == signer
    ensures m.packet == NewPacket(pe, dst, sequence, packetData, timeoutHeight, timeoutStamp)
    ensures m.ProvenAt() == Some(Succ(proofHeight))
  {
    Acknowledgement(NewPacket(pe, dst, sequence, packetData, timeoutHeight, timeoutStamp),
                    ack, proof, Succ(proofHeight), signer)
  }

  /** The three relay messages about one packet agree on it: the packet that
      chain A receives from B is the packet B gets acknowledged or times out
      against A, field for field. */
  lemma RelayMessagesShareThePacket(a: PathEnd, b: PathEnd, sequence: u64, data: Bytes,
                                    timeoutHeight: u64, timeoutStamp: u64, ack: Bytes,
                                    proof: Proof, proofHeight: u64, signer: Signer)
    ensures var recv := MsgRecvPacket(a, b, sequence, timeoutHeight, timeoutStamp, data, proof, proofHeight, signer);
            var acked := MsgAck(b, a, sequence, timeoutHeight, timeoutStamp, ack, data, proof, proofHeight, signer);
            var timedOut := MsgTimeout(b, a, data, sequence, timeoutHeight, timeoutStamp, proof, proofHeight, signer);
            && recv.packet == acked.packet == timedOut.packet
            && recv.packet.sourcePort == b.portId && recv.packet.destPort == a.portId
            && recv.ProvenAt() == acked.ProvenAt() == timedOut.ProvenAt()
  {
  }

  /** An arbitrary packet from `pe` to `dst`, always with sequence 1 so that it
      passes the packet integrity checks. */
  function MsgSendPacket(pe: PathEnd, dst: PathEnd, packetData: Bytes, relativeTimeout: u64,
                         timeoutStamp: u64, signer: Signer): (m: Msg)
    ensures m.SendPacket? && m.signer == signer
    ensures m.packet == NewPacket(pe, dst, 1, packetData, relativeTimeout, timeoutStamp)
  {
    SendPacket(Packet(packetData, 1, pe.portId, pe.channelId, dst.portId, dst.channelId,
                      relativeTimeout, timeoutStamp), signer)
  }

  /** Forwards a packet `dst` committed to `c`'s chain, signed by `c`, proven one
      height above the commitment proof. */
  function PacketMsg(c: Chain, dst: Chain, xferPacket: Bytes, timeout: u64, timeoutStamp: u64,
                     packetSeq: i64, dstCommitRes: CommitmentResponse): (m: Msg)
    ensures m.RecvPacket? && m.signer == c.signer && m.proof == dstCommitRes.proof
    ensures m.packet == NewPacket(dst.pathEnd, c.pathEnd, ToU64(packetSeq), xferPacket, timeout, timeoutStamp)
    ensures m.ProvenAt() == Some(Succ(dstCommitRes.proofHeight))
  {
    MsgRecvPacket(c.pathEnd, dst.pathEnd, ToU64(packetSeq), timeout, timeoutStamp, xferPacket,
                  dstCommitRes.proof, dstCommitRes.proofHeight, c.signer)
  }
}
