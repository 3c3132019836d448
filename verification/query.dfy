/** Combinators over paired chain queries. Each pair query issues one query
    per chain concurrently and reports the first error either side produced;
    the model makes the scheduling explicit as `srcErrFirst`, which only
    decides WHICH error is reported when both sides fail. */
module Query {
  import opened Wrappers
  import opened IbcTypes
  import opened PathEnds

  /** The result of a paired query: one value per side and the error, if any. */
  datatype Both<+A, +B> = Both(src: A, dst: B, err: Option<Error>)

  /** A chain's query endpoint, named by the chain it serves. */
  datatype Provider = Provider(chainId: string)

  /** The error a wait on both concurrent queries returns. */
  function FirstError(srcErr: Option<Error>, dstErr: Option<Error>, srcErrFirst: bool): (r: Option<Error>)
    ensures r.None? <==> srcErr.None? && dstErr.None?
    ensures srcErr.Some? && dstErr.None? ==> r == srcErr
    ensures srcErr.None? && dstErr.Some? ==> r == dstErr
    ensures r.Some? ==> r == srcErr || r == dstErr
  {
    if srcErr.Some? && (srcErrFirst || dstErr.None?) then srcErr else dstErr
  }

  /** Which error is reported depends on scheduling, whether one is reported does
      not; swapping the sides and the schedule gives the same error. */
  lemma FirstErrorSchedule(srcErr: Option<Error>, dstErr: Option<Error>, srcErrFirst: bool)
    ensures FirstError(srcErr, dstErr, srcErrFirst).Some? == FirstError(srcErr, dstErr, !srcErrFirst).Some?
    ensures FirstError(dstErr, srcErr, !srcErrFirst) == FirstError(srcErr, dstErr, srcErrFirst)
  {
  }

  /** Latest heights of both chains. Each height is whatever its query returned,
      even when the other query failed. */
  function QueryLatestHeights(src: Reply<i64>, dst: Reply<i64>, srcErrFirst: bool): (r: Both<i64, i64>)
    ensures r.err.Some? <==> src.err.Some? || dst.err.Some?
    ensures r.src == src.value && r.dst == dst.value
    ensures r.err.Some? ==> r.err == src.err || r.err == dst.err
  {
    Both(src.value, dst.value, FirstError(src.err, dst.err, srcErrFirst))
  }

  /** Connection ends of both chains, each at its own height and under its own
      connection identifier. Neither value is cleared when the other side fails. */
  function QueryConnectionPair(path: Path, srcH: i64, dstH: i64,
                               query: (Side, i64, string) -> Reply<ConnectionResponse>,
                               srcErrFirst: bool): (r: Both<ConnectionResponse, ConnectionResponse>)
    ensures r.src == query(Src, srcH, path.src.pathEnd.connectionId).value
    ensures r.dst == query(Dst, dstH, path.dst.pathEnd.connectionId).value
    ensures r.err.Some? <==> (query(Src, srcH, path.src.pathEnd.connectionId).err.Some?
                              || query(Dst, dstH, path.dst.pathEnd.connectionId).err.Some?)
    ensures r.err.Some? ==> (r.err == query(Src, srcH, path.src.pathEnd.connectionId).err
                             || r.err == query(Dst, dstH, path.dst.pathEnd.connectionId).err)
  {
    var s := query(Src, srcH, path.src.pathEnd.connectionId);
    var d := query(Dst, dstH, path.dst.pathEnd.connectionId);
    Both(s.value, d.value, FirstError(s.err, d.err, srcErrFirst))
  }

  /** Channel ends of both chains; all or nothing: either both are present and
      there is no error, or both are cleared and the error is reported. */
  function QueryChannelPair(srcH: i64, dstH: i64, srcChanId: string, dstChanId: string,
                            srcPortId: string, dstPortId: string,
                            query: (Side, i64, string, string) -> Reply<ChannelResponse>,
                            srcErrFirst: bool): (r: Both<Option<ChannelResponse>, Option<ChannelResponse>>)
    ensures AllOrNothing(r)
    ensures r.err.None? <==> (query(Src, srcH, srcChanId, srcPortId).err.None?
                              && query(Dst, dstH, dstChanId, dstPortId).err.None?)
    ensures r.err.None? ==> (r.src == Some(query(Src, srcH, srcChanId, srcPortId).value)
                             && r.dst == Some(query(Dst, dstH, dstChanId, dstPortId).value))
    ensures r.err.Some? ==> (r.err == query(Src, srcH, srcChanId, srcPortId).err
                             || r.err == query(Dst, dstH, dstChanId, dstPortId).err)
  {
    var s := query(Src, srcH, srcChanId, srcPortId);
    var d := query(Dst, dstH, dstChanId, dstPortId);
    AllOrNothingOf(s, d, srcErrFirst)
  }

  /** Both values present without an error, or neither with one. */
  predicate AllOrNothing<A, B>(r: Both<Option<A>, Option<B>>) {
    if r.err.None? then r.src.Some? && r.dst.Some? else r.src.None? && r.dst.None?
  }

  /** The shared all-or-nothing join of two concurrent fetches. */
  function AllOrNothingOf<A, B>(s: Reply<A>, d: Reply<B>, srcErrFirst: bool): (r: Both<Option<A>, Option<B>>)
    ensures AllOrNothing(r)
    ensures r.err.None? <==> s.err.None? && d.err.None?
    ensures r.err.None? ==> r.src == Some(s.value) && r.dst == Some(d.value)
    ensures r.err.Some? ==> r.err == s.err || r.err == d.err
  {
    var e := FirstError(s.err, d.err, srcErrFirst);
    if e.Some? then Both(None, None, e) else Both(Some(s.value), Some(d.value), None)
  }

  /** Headers to update each chain's client of the other. The arguments cross:
      the src header is fetched by the src provider at `srch` for the dst
      provider and `dstClientId`, the dst header by the dst provider at `dsth`
      for the src provider and `srcClientId`. */
  function GetIBCUpdateHeaders(srch: i64, dsth: i64, src: Provider, dst: Provider,
                               srcClientId: string, dstClientId: string,
                               fetch: (Provider, i64, Provider, string) -> Reply<Header>,
                               srcErrFirst: bool): (r: Both<Option<Header>, Option<Header>>)
    ensures AllOrNothing(r)
    ensures r.err.None? <==> (fetch(src, srch, dst, dstClientId).err.None?
                              && fetch(dst, dsth, src, srcClientId).err.None?)
    ensures r.err.None? ==> (r.src == Some(fetch(src, srch, dst, dstClientId).value)
                             && r.dst == Some(fetch(dst, dsth, src, srcClientId).value))
    ensures r.err.Some? ==> (r.err == fetch(src, srch, dst, dstClientId).err
                             || r.err == fetch(dst, dsth, src, srcClientId).err)
  {
    AllOrNothingOf(fetch(src, srch, dst, dstClientId), fetch(dst, dsth, src, srcClientId), srcErrFirst)
  }

  /** GetIBCUpdateHeaders treats its two sides alike: asking with the sides
      swapped returns the same headers swapped. */
  lemma GetIBCUpdateHeadersSymmetric(srch: i64, dsth: i64, src: Provider, dst: Provider,
                                     srcClientId: string, dstClientId: string,
                                     fetch: (Provider, i64, Provider, string) -> Reply<Header>,
                                     srcErrFirst: bool)
    ensures var r := GetIBCUpdateHeaders(srch, dsth, src, dst, srcClientId, dstClientId, fetch, srcErrFirst);
            var swapped := GetIBCUpdateHeaders(dsth, srch, dst, src, dstClientId, srcClientId, fetch, !srcErrFirst);
            swapped == Both(r.dst, r.src, r.err)
  {
    FirstErrorSchedule(fetch(src, srch, dst, dstClientId).err, fetch(dst, dsth, src, srcClientId).err, srcErrFirst);
  }

  /** Signed headers of both chains at the given heights; all or nothing. */
  function GetLightSignedHeadersAtHeights(srch: i64, dsth: i64, fetch: (Side, i64) -> Reply<Header>,
                                          srcErrFirst: bool): (r: Both<Option<Header>, Option<Header>>)
    ensures AllOrNothing(r)
    ensures r.err.None? <==> fetch(Src, srch).err.None? && fetch(Dst, dsth).err.None?
    ensures r.err.None? ==> r.src == Some(fetch(Src, srch).value) && r.dst == Some(fetch(Dst, dsth).value)
    ensures r.err.Some? ==> r.err == fetch(Src, srch).err || r.err == fetch(Dst, dsth).err
  {
    AllOrNothingOf(fetch(Src, srch), fetch(Dst, dsth), srcErrFirst)
  }

  // ---------------------------------------------------------------------
  // Looking a channel up by identifier
  // ---------------------------------------------------------------------

  /** The position of the first listed channel with identifier `id`. */
  function FirstWithId(channels: seq<IdentifiedChannel>, id: string): (r: Option<nat>)
    ensures r.Some? ==> r.value < |channels| && channels[r.value].channelId == id
    ensures r.Some? ==> forall j :: 0 <= j < r.value ==> channels[j].channelId != id
    ensures r.None? <==> forall j :: 0 <= j < |channels| ==> channels[j].channelId != id
  {
    if |channels| == 0 then None
    else if channels[0].channelId == id then Some(0)
    else
      match FirstWithId(channels[1..], id)
      case None => None
      case Some(k) => Some(k + 1)
  }

  /** Looks a channel up by identifier among the channels of `src`'s connection.
      `latestHeight` is the outcome of the (retried) latest-height query and
      `connectionChannels` the chain's listing of a connection's channels at a
      height. If the height query fails the listing is never consulted. */
  function QueryChannel(src: Chain, channelId: string, latestHeight: Result<i64, Error>,
                        connectionChannels: (i64, string) -> Result<seq<IdentifiedChannel>, Error>): (r: Result<IdentifiedChannel, Error>)
    ensures latestHeight.Failure? ==> r == Failure(latestHeight.error)
    ensures latestHeight.Success? ==>
      var listed := connectionChannels(latestHeight.value, src.pathEnd.connectionId);
      && (listed.Failure? ==> r == Failure(listed.error))
      && (listed.Success? && r.Success? ==>
            exists k :: 0 <= k < |listed.value| && r.value == listed.value[k]
                     && r.value.channelId == channelId
                     && forall j :: 0 <= j < k ==> listed.value[j].channelId != channelId)
      && (listed.Success? && r.Failure? <==>
            listed.Success? && forall j :: 0 <= j < |listed.value| ==> listed.value[j].channelId != channelId)
    ensures r.Failure? && latestHeight.Success? && connectionChannels(latestHeight.value, src.pathEnd.connectionId).Success?
            ==> r.error == ChannelNotFound(channelId, src.chainId, src.pathEnd.clientId, src.pathEnd.connectionId)
  {
    var h :- latestHeight;
    var channels :- connectionChannels(h, src.pathEnd.connectionId);
    match FirstWithId(channels, channelId)
    case Some(k) => Success(channels[k])
    case None => Failure(ChannelNotFound(channelId, src.chainId, src.pathEnd.clientId, src.pathEnd.connectionId))
  }

  // ---------------------------------------------------------------------
  // Client states
  // ---------------------------------------------------------------------

  /** The fields of a tendermint client state the model keeps. */
  datatype TmClientState = TmClientState(chainId: string, latestHeight: u64, frozen: bool)

  /** The value Go's `&tmclient.ClientState{}` denotes. */
  const EMPTY_TM_CLIENT_STATE: TmClientState := TmClientState("", 0, false)

  /** A client state as unpacked from its encoding: tendermint or some other kind. */
  datatype ClientState = Tendermint(tm: TmClientState) | OtherClientState(typeUrl: string)

  /** An encoded value of any registered type. */
  datatype AnyValue = AnyValue(typeUrl: string, value: Bytes)

  /** Narrows an encoded client state to a tendermint one. `unpack` is the
      codec's decoder. On either failure the state is empty. */
  function CastClientStateToTMType(cs: AnyValue, unpack: AnyValue -> Result<ClientState, Error>): (r: (TmClientState, Option<Error>))
    ensures r.1.None? <==> unpack(cs).Success? && unpack(cs).value.Tendermint?
    ensures r.1.None? ==> r.0 == unpack(cs).value.tm
    ensures r.1.Some? ==> r.0 == EMPTY_TM_CLIENT_STATE
    ensures unpack(cs).Failure? ==> r.1 == Some(unpack(cs).error)
    ensures unpack(cs).Success? && !unpack(cs).value.Tendermint? ==> r.1 == Some(NotTendermintClientState)
  {
    match unpack(cs)
    case Failure(e) => (EMPTY_TM_CLIENT_STATE, Some(e))
    case Success(Tendermint(tm)) => (tm, None)
    case Success(OtherClientState(_)) => (EMPTY_TM_CLIENT_STATE, Some(NotTendermintClientState))
  }

  /** Queries `c`'s client state at `height` and narrows it to tendermint;
      a failed query yields the empty state and the query's error. */
  function QueryTMClientState(c: Chain, height: i64, query: (i64, string) -> Result<AnyValue, Error>,
                              unpack: AnyValue -> Result<ClientState, Error>): (r: (TmClientState, Option<Error>))
    ensures query(height, c.pathEnd.clientId).Failure? ==>
              r == (EMPTY_TM_CLIENT_STATE, Some(query(height, c.pathEnd.clientId).error))
    ensures query(height, c.pathEnd.clientId).Success? ==>
              r == CastClientStateToTMType(query(height, c.pathEnd.clientId).value, unpack)
    ensures r.1.None? ==> exists cs :: query(height, c.pathEnd.clientId) == Success(cs) && unpack(cs) == Success(Tendermint(r.0))
  {
    match query(height, c.pathEnd.clientId)
    case Failure(e) => (EMPTY_TM_CLIENT_STATE, Some(e))
    case Success(cs) => CastClientStateToTMType(cs, unpack)
  }
}
