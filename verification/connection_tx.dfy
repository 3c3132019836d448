/** The connection-opening handshake driver of the relayer (ICS 003,
    Connection Semantics): the decision over both chains' observed connection
    states, the execution of one step against abstract chains, the
    initialisation of missing connection ends, and the bounded retry loop that
    repeats steps until the handshake is complete. */
module ConnectionTx {
  import opened Wrappers
  import opened IbcTypes
  import opened PathEnds
  import opened Query

  // ---------------------------------------------------------------------
  // The decision table
  // ---------------------------------------------------------------------

  /** The handshake message bundle a step submits, named by message and by the
      chain whose path end builds it. `NoStep` is the state pair no case matches. */
  datatype Step = TryOnSrc | AckOnSrc | AckOnDst | ConfirmOnSrc | ConfirmOnDst | NoStep {
    /** The side whose path end builds the bundle and whose light client it updates. */
    function Builder(): Side
      requires !NoStep?
    {
      if TryOnSrc? || AckOnSrc? || ConfirmOnSrc? then Src else Dst
    }

    /** Confirm steps complete the handshake. */
    predicate IsTerminal() {
      ConfirmOnSrc? || ConfirmOnDst?
    }
  }

  /** The condition of each case of the decision, one per case; `NoStep` has none. */
  predicate CaseCondition(step: Step, s: State, d: State) {
    match step
    case TryOnSrc => s == Init && d == Init
    case AckOnSrc => (s == Init || s == TryOpen) && d == TryOpen
    case AckOnDst => s == TryOpen && d == Init
    case ConfirmOnSrc => s == TryOpen && d == Open
    case ConfirmOnDst => s == Open && d == TryOpen
    case NoStep => false
  }

  /** When `step` is taken: its case's condition holds, or, for `NoStep`, no
      case's condition holds. */
  predicate Guard(step: Step, s: State, d: State) {
    if step.NoStep? then
      && !CaseCondition(TryOnSrc, s, d) && !CaseCondition(AckOnSrc, s, d)
      && !CaseCondition(AckOnDst, s, d) && !CaseCondition(ConfirmOnSrc, s, d)
      && !CaseCondition(ConfirmOnDst, s, d)
    else CaseCondition(step, s, d)
  }

  /** The next step for the observed (src, dst) connection states: the first
      case, in the source's order, whose condition holds. */
  function Decide(s: State, d: State): (step: Step)
    ensures Guard(step, s, d)
  {
    if s == Init && d == Init then TryOnSrc
    else if (s == Init || s == TryOpen) && d == TryOpen then AckOnSrc
    else if s == TryOpen && d == Init then AckOnDst
    else if s == TryOpen && d == Open then ConfirmOnSrc
    else if s == Open && d == TryOpen then ConfirmOnDst
    else NoStep
  }

  /** The cases exclude each other, so the order in which they are tried does
      not matter and at most one bundle is chosen. */
  lemma GuardsExclusive(a: Step, b: Step, s: State, d: State)
    requires Guard(a, s, d) && Guard(b, s, d)
    ensures a == b
  {
  }

  /** The handshake is complete exactly after a step taken at (TRYOPEN, OPEN)
      or (OPEN, TRYOPEN); crossing hellos at (INIT, INIT) move the src side. */
  lemma DecisionTable(s: State, d: State)
    ensures Decide(s, d).IsTerminal() <==> (s == TryOpen && d == Open) || (s == Open && d == TryOpen)
    ensures Decide(s, d) == TryOnSrc <==> s == Init && d == Init
    ensures Decide(s, d) == NoStep <==>
              s == Uninitialized || d == Uninitialized || (s == Open && d != TryOpen)
              || (s == Init && d == Open)
  {
  }

  // ---------------------------------------------------------------------
  // What the chains answer during one step
  // ---------------------------------------------------------------------

  /** Heights at which the light-client headers of both chains were synchronised. */
  datatype SyncHeaders = SyncHeaders(srcHeight: u64, dstHeight: u64)

  /** The answers of every external call one step makes.
      - `syncHeaders`: synchronising the off-chain light clients of both chains;
      - `trustedHeaders`: the (src, dst) headers used to update the on-chain clients;
      - `queryConnection(side, height, connectionId)`: a chain's connection end;
      - `srcErrFirst`: whether, when both connection queries fail, src's error is reported;
      - `connTry(side)`, `connAck(side)`: the OpenTry / OpenAck message built by
        `side`'s path end from the counterparty's proofs, or the error building it;
      - `sendMsgs(side, msgs)`: submitting a bundle to `side`'s chain;
      - `parseConnectionId(events)`: reading the new connection identifier from events. */
  datatype StepEnv = StepEnv(
    syncHeaders: Result<SyncHeaders, Error>,
    trustedHeaders: Result<(Header, Header), Error>,
    queryConnection: (Side, i64, string) -> Reply<ConnectionResponse>,
    srcErrFirst: bool,
    connTry: Side -> Result<Msg, Error>,
    connAck: Side -> Result<Msg, Error>,
    sendMsgs: (Side, seq<Msg>) -> SendReply,
    parseConnectionId: seq<Event> -> Result<string, Error>)

  /** A bundle of messages submitted to one chain. */
  datatype Submission = Submission(to: Side, msgs: seq<Msg>)

  /** Whether either path end still lacks a connection identifier. */
  predicate MissingConnectionId(path: Path) {
    path.src.pathEnd.connectionId == "" || path.dst.pathEnd.connectionId == ""
  }

  /** The header that updates `side`'s client: the other chain's header. */
  function CounterpartyHeader(side: Side, headers: (Header, Header)): Header {
    if side.Src? then headers.1 else headers.0
  }

  /** A client update of chain `c` with `header`, followed by `handshake`. */
  function Bundle(c: Chain, header: Header, handshake: Msg): seq<Msg> {
    [PathEnds.UpdateClient(c.pathEnd, header, c.signer), handshake]
  }

  /** Two messages, the first updating `c`'s light client with `header`. */
  predicate UpdatesClientFirst(msgs: seq<Msg>, c: Chain, header: Header) {
    && |msgs| == 2
    && msgs[0].UpdateClient?
    && msgs[0].clientId == c.pathEnd.clientId
    && msgs[0].header == header
    && msgs[0].signer == c.signer
  }

  /** `after` differs from `before` at most in the connection identifier of `side`. */
  predicate OnlyConnectionIdChanged(before: Path, after: Path, side: Side) {
    var c := before.Get(side);
    after == before.Set(side, c.(pathEnd := c.pathEnd.(connectionId := after.Get(side).pathEnd.connectionId)))
  }

  /** `id` is what the chain reported for the submitted bundle: the submission
      succeeded and the second log's events name `id`. */
  predicate Recorded(env: StepEnv, sub: Submission, id: string) {
    var reply := env.sendMsgs(sub.to, sub.msgs);
    && reply.success
    && |reply.response.logs| >= 2
    && env.parseConnectionId(reply.response.logs[1].events) == Success(id)
  }

  // ---------------------------------------------------------------------
  // Initialising missing connection ends
  // ---------------------------------------------------------------------

  /** The outcome of InitializeConnection; `written` names the path end whose
      connection identifier was written, if any. */
  datatype InitResult = InitResult(success: bool, err: Option<Error>, path: Path,
                                   sent: Option<Submission>, written: Option<Side>)

  /** Submits `msgs` to `side`'s chain and, once it succeeds and the new
      identifier is read from the second message's events, records it. */
  function SubmitAndRecord(path: Path, side: Side, msgs: seq<Msg>, env: StepEnv): (r: InitResult)
    ensures r.sent == Some(Submission(side, msgs))
    ensures r.success <==> r.written == Some(side)
    ensures r.success <==> Recorded(env, Submission(side, msgs), r.path.Get(side).pathEnd.connectionId)
    ensures r.success ==> r.err.None? && OnlyConnectionIdChanged(path, r.path, side)
    ensures !r.success ==> r.path == path && r.written.None?
    ensures !env.sendMsgs(side, msgs).success ==> !r.success && r.err == env.sendMsgs(side, msgs).err
    // a successful submission whose second log names an identifier records exactly that identifier
    ensures forall id :: Recorded(env, Submission(side, msgs), id) ==>
              r.success && r.path.Get(side).pathEnd.connectionId == id
    // a successful submission without a readable identifier fails with the reason
    ensures (var reply := env.sendMsgs(side, msgs);
             reply.success && |reply.response.logs| < 2 ==> !r.success && r.err == Some(MissingTxLog))
    ensures (var reply := env.sendMsgs(side, msgs);
             reply.success && |reply.response.logs| >= 2 && env.parseConnectionId(reply.response.logs[1].events).Failure? ==>
               !r.success && r.err == Some(env.parseConnectionId(reply.response.logs[1].events).error))
  {
    var sub := Submission(side, msgs);
    var reply := env.sendMsgs(side, msgs);
    if !reply.success then InitResult(false, reply.err, path, Some(sub), None)
    else if |reply.response.logs| < 2 then InitResult(false, Some(MissingTxLog), path, Some(sub), None)
    else
      match env.parseConnectionId(reply.response.logs[1].events)
      case Failure(e) => InitResult(false, Some(e), path, Some(sub), None)
      case Success(id) =>
        var c := path.Get(side);
        InitResult(true, None, path.Set(side, c.(pathEnd := c.pathEnd.(connectionId := id))), Some(sub), Some(side))
  }

  /** Creates the missing connection end(s) by the emptiness of the two
      identifiers: both empty, OpenInit on src; only src empty, OpenTry on src;
      only dst empty, OpenTry on dst; neither empty, an error. `srcHeader` and
      `dstHeader` are the headers of src and dst. */
  function InitializeConnection(path: Path, srcHeader: Header, dstHeader: Header, env: StepEnv): (r: InitResult)
    // the case analysis
    ensures !MissingConnectionId(path) ==>
              r == InitResult(false, Some(ConnectionEndsAlreadyCreated), path, None, None)
    ensures r.sent.Some? ==>
              && r.sent.value.to == (if path.src.pathEnd.connectionId == "" then Src else Dst)
              && UpdatesClientFirst(r.sent.value.msgs, path.Get(r.sent.value.to),
                                    CounterpartyHeader(r.sent.value.to, (srcHeader, dstHeader)))
    ensures path.src.pathEnd.connectionId == "" && path.dst.pathEnd.connectionId == "" ==>
              r.sent.Some? && r.sent.value.msgs[1] == ConnInit(path.src.pathEnd, path.dst.pathEnd, path.src.signer)
    ensures path.src.pathEnd.connectionId == "" && path.dst.pathEnd.connectionId != "" && r.sent.Some? ==>
              Success(r.sent.value.msgs[1]) == env.connTry(Src)
    ensures path.src.pathEnd.connectionId != "" && path.dst.pathEnd.connectionId == "" && r.sent.Some? ==>
              Success(r.sent.value.msgs[1]) == env.connTry(Dst)
    ensures MissingConnectionId(path) && r.sent.None? ==>
              var side := if path.src.pathEnd.connectionId == "" then Src else Dst;
              && path.Get(side.Other()).pathEnd.connectionId != ""
              && env.connTry(side).Failure? && r.err == Some(env.connTry(side).error)
    // once a bundle is sent, the outcome is that of submitting it and recording the identifier
    ensures r.sent.Some? ==> r == SubmitAndRecord(path, r.sent.value.to, r.sent.value.msgs, env)
    // exactly one identifier is written, only an empty one, and only once the chain reported it
    ensures r.success <==> r.written.Some?
    ensures r.success ==> r.err.None?
    ensures r.written.None? ==> r.path == path
    ensures r.written.Some? ==>
              && r.sent.Some? && r.sent.value.to == r.written.value
              && path.Get(r.written.value).pathEnd.connectionId == ""
              && OnlyConnectionIdChanged(path, r.path, r.written.value)
              && Recorded(env, r.sent.value, r.path.Get(r.written.value).pathEnd.connectionId)
  {
    var srcEmpty := path.src.pathEnd.connectionId == "";
    var dstEmpty := path.dst.pathEnd.connectionId == "";
    if srcEmpty && dstEmpty then
      SubmitAndRecord(path, Src, Bundle(path.src, dstHeader, ConnInit(path.src.pathEnd, path.dst.pathEnd, path.src.signer)), env)
    else if srcEmpty then
      match env.connTry(Src)
      case Failure(e) => InitResult(false, Some(e), path, None, None)
      case Success(openTry) => SubmitAndRecord(path, Src, Bundle(path.src, dstHeader, openTry), env)
    else if dstEmpty then
      match env.connTry(Dst)
      case Failure(e) => InitResult(false, Some(e), path, None, None)
      case Success(openTry) => SubmitAndRecord(path, Dst, Bundle(path.dst, srcHeader, openTry), env)
    else
      InitResult(false, Some(ConnectionEndsAlreadyCreated), path, None, None)
  }

  /** When every call succeeds and the chain names `id`, initialisation writes
      `id` into the first path end lacking an identifier, and nothing else. */
  lemma InitializationRecordsParsedId(path: Path, srcHeader: Header, dstHeader: Header, env: StepEnv, id: string)
    requires MissingConnectionId(path)
    requires forall side: Side :: env.connTry(side).Success?
    requires forall side: Side, msgs: seq<Msg> :: Recorded(env, Submission(side, msgs), id)
    ensures var r := InitializeConnection(path, srcHeader, dstHeader, env);
            var side := if path.src.pathEnd.connectionId == "" then Src else Dst;
            var c := path.Get(side);
            && r.success && r.err.None? && r.written == Some(side)
            && r.path == path.Set(side, c.(pathEnd := c.pathEnd.(connectionId := id)))
  {
  }

  // ---------------------------------------------------------------------
  // Executing one step
  // ---------------------------------------------------------------------

  /** The observed connection ends and the step decided from them. */
  datatype Decision = Decision(srcConn: ConnectionResponse, dstConn: ConnectionResponse, step: Step)

  /** The outcome of one step: Go's `(success, last, err)`, the path after any
      identifier assignment, the bundle submitted and the decision taken. */
  datatype StepResult = StepResult(success: bool, last: bool, err: Option<Error>, path: Path,
                                   sent: Option<Submission>, decision: Option<Decision>)

  /** Which chain receives a decided bundle: `AlwaysDst` is what the relayer
      does; `ToBuilder` sends each bundle to the chain it was built for. */
  datatype Routing = AlwaysDst | ToBuilder

  function SubmitTo(step: Step, routing: Routing): Side {
    if routing.AlwaysDst? || step.NoStep? then Dst else step.Builder()
  }

  /** The handshake message of a decided step. Try and Ack are built by the
      chains' opaque constructors; Confirm proves the counterparty's OPEN end. */
  predicate HandshakeFits(step: Step, m: Msg, path: Path, env: StepEnv, d: Decision) {
    match step
    case TryOnSrc => env.connTry(Src) == Success(m)
    case AckOnSrc => env.connAck(Src) == Success(m)
    case AckOnDst => env.connAck(Dst) == Success(m)
    case ConfirmOnSrc => m == ConnConfirm(path.src.pathEnd, d.dstConn, path.src.signer)
    case ConfirmOnDst => m == ConnConfirm(path.dst.pathEnd, d.srcConn, path.dst.signer)
    case NoStep => false
  }

  /** The bundle for a decided step: client update, then handshake message. */
  function BuildBundle(step: Step, path: Path, headers: (Header, Header), d: Decision, env: StepEnv): (r: Result<seq<Msg>, Error>)
    ensures r.Success? && !step.NoStep? ==>
              && UpdatesClientFirst(r.value, path.Get(step.Builder()), CounterpartyHeader(step.Builder(), headers))
              && HandshakeFits(step, r.value[1], path, env, d)
    ensures step.NoStep? ==> r == Success([])
    ensures step.IsTerminal() ==> r.Success?
    ensures step.TryOnSrc? ==> (r.Failure? <==> env.connTry(Src).Failure?)
    ensures step.AckOnSrc? ==> (r.Failure? <==> env.connAck(Src).Failure?)
    ensures step.AckOnDst? ==> (r.Failure? <==> env.connAck(Dst).Failure?)
  {
    match step
    case TryOnSrc =>
      var openTry :- env.connTry(Src);
      Success(Bundle(path.src, headers.1, openTry))
    case AckOnSrc =>
      var openAck :- env.connAck(Src);
      Success(Bundle(path.src, headers.1, openAck))
    case AckOnDst =>
      var openAck :- env.connAck(Dst);
      Success(Bundle(path.dst, headers.0, openAck))
    case ConfirmOnSrc =>
      Success(Bundle(path.src, headers.1, ConnConfirm(path.src.pathEnd, d.dstConn, path.src.signer)))
    case ConfirmOnDst =>
      Success(Bundle(path.dst, headers.0, ConnConfirm(path.dst.pathEnd, d.srcConn, path.dst.signer)))
    case NoStep =>
      Success([])
  }

  /** A decision is taken from the connection ends queried one height below
      the synchronised heights, under each end's connection identifier. */
  predicate DecidedFromQueries(path: Path, env: StepEnv, d: Decision) {
    && env.syncHeaders.Success?
    && var sh := env.syncHeaders.value;
       var s := env.queryConnection(Src, PrevHeight(sh.srcHeight), path.src.pathEnd.connectionId);
       var t := env.queryConnection(Dst, PrevHeight(sh.dstHeight), path.dst.pathEnd.connectionId);
       && s.err.None? && t.err.None?
       && d.srcConn == s.value && d.dstConn == t.value
       && d.step == Decide(s.value.connection.state, t.value.connection.state)
  }

  /** One handshake step: synchronise headers, initialise a missing end if
      there is one, otherwise query both connection ends, decide, build the
      bundle and submit it to the chain `routing` picks. */
  function ExecuteConnectionStepWith(path: Path, env: StepEnv, routing: Routing): (r: StepResult)
    // Go's (success, last, err) conventions
    ensures r.success ==> r.err.None?
    ensures r.last ==> r.success
    // a missing identifier delegates to InitializeConnection, which is never the last step
    ensures MissingConnectionId(path) ==> !r.last && r.decision.None?
    ensures MissingConnectionId(path) && env.syncHeaders.Success? && env.trustedHeaders.Success? ==>
              var init := InitializeConnection(path, env.trustedHeaders.value.0, env.trustedHeaders.value.1, env);
              r.success == init.success && r.err == init.err && r.path == init.path && r.sent == init.sent
    ensures !MissingConnectionId(path) ==> r.path == path
    // a decided step follows the decision table over the queried ends
    ensures r.decision.Some? ==> !MissingConnectionId(path) && DecidedFromQueries(path, env, r.decision.value)
    ensures r.last <==> r.success && r.decision.Some? && r.decision.value.step.IsTerminal()
    ensures r.decision.Some? && r.sent.Some? ==>
              var step := r.decision.value.step;
              && r.sent.value.to == SubmitTo(step, routing)
              && (step.NoStep? ==> r.sent.value.msgs == [])
              && (!step.NoStep? ==>
                    && env.trustedHeaders.Success?
                    && UpdatesClientFirst(r.sent.value.msgs, path.Get(step.Builder()),
                                          CounterpartyHeader(step.Builder(), env.trustedHeaders.value))
                    && HandshakeFits(step, r.sent.value.msgs[1], path, env, r.decision.value))
    // the submission's verdict is the step's
    ensures r.decision.Some? && r.sent.Some? ==>
              var reply := env.sendMsgs(r.sent.value.to, r.sent.value.msgs);
              (r.success <==> reply.success) && (!r.success ==> r.err == reply.err && !r.last)
    ensures r.decision.Some? && r.decision.value.step.IsTerminal() ==> r.sent.Some?
    // header errors fail the step before anything is queried or sent
    ensures env.syncHeaders.Failure? ==>
              r == StepResult(false, false, Some(env.syncHeaders.error), path, None, None)
    ensures env.syncHeaders.Success? && env.trustedHeaders.Failure? ==>
              r == StepResult(false, false, Some(env.trustedHeaders.error), path, None, None)
    // with both identifiers set, a decision is taken iff both connection queries succeed
    ensures !MissingConnectionId(path) && env.syncHeaders.Success? && env.trustedHeaders.Success? ==>
              var sh := env.syncHeaders.value;
              var s := env.queryConnection(Src, PrevHeight(sh.srcHeight), path.src.pathEnd.connectionId);
              var t := env.queryConnection(Dst, PrevHeight(sh.dstHeight), path.dst.pathEnd.connectionId);
              && (r.decision.Some? <==> s.err.None? && t.err.None?)
              && (r.decision.None? ==> !r.success && r.sent.None? && r.err.Some? && (r.err == s.err || r.err == t.err))
    // a decided bundle is sent iff it could be built; otherwise the construction error is reported
    ensures r.decision.Some? ==>
              && env.trustedHeaders.Success?
              && var built := BuildBundle(r.decision.value.step, path, env.trustedHeaders.value, r.decision.value, env);
                 && (r.sent.None? <==> built.Failure?)
                 && (r.sent.None? ==> !r.success && r.err == Some(built.error))
                 && (r.sent.Some? ==> r.sent.value.msgs == built.value)
  {
    match env.syncHeaders
    case Failure(e) => StepResult(false, false, Some(e), path, None, None)
    case Success(sh) =>
      match env.trustedHeaders
      case Failure(e) => StepResult(false, false, Some(e), path, None, None)
      case Success(headers) =>
        if MissingConnectionId(path) then
          var init := InitializeConnection(path, headers.0, headers.1, env);
          if init.err.Some? then StepResult(false, false, init.err, init.path, init.sent, None)
          else StepResult(init.success, false, None, init.path, init.sent, None)
        else
          var pair := QueryConnectionPair(path, PrevHeight(sh.srcHeight), PrevHeight(sh.dstHeight),
                                          env.queryConnection, env.srcErrFirst);
          if pair.err.Some? then StepResult(false, false, pair.err, path, None, None)
          else
            var step := Decide(pair.src.connection.state, pair.dst.connection.state);
            var d := Decision(pair.src, pair.dst, step);
            match BuildBundle(step, path, headers, d, env)
            case Failure(e) => StepResult(false, false, Some(e), path, None, Some(d))
            case Success(msgs) =>
              var to := SubmitTo(step, routing);
              var reply := env.sendMsgs(to, msgs);
              if !reply.success then StepResult(false, false, reply.err, path, Some(Submission(to, msgs)), Some(d))
              else StepResult(true, step.IsTerminal(), None, path, Some(Submission(to, msgs)), Some(d))
  }

  /** The step as the relayer takes it: every decided bundle, whichever chain
      it was built for, is submitted to dst. */
  function ExecuteConnectionStep(path: Path, env: StepEnv): (r: StepResult)
    ensures r == ExecuteConnectionStepWith(path, env, AlwaysDst)
    ensures r.decision.Some? && r.sent.Some? ==> r.sent.value.to == Dst
  {
    ExecuteConnectionStepWith(path, env, AlwaysDst)
  }

  /** The corrected step: each bundle goes to the chain it was built for, so
      every client update reaches the chain that hosts that client. */
  function ExecuteConnectionStepRouted(path: Path, env: StepEnv): (r: StepResult)
    ensures r.decision.Some? && r.sent.Some? && !r.decision.value.step.NoStep? ==>
              && r.sent.value.to == r.decision.value.step.Builder()
              && env.trustedHeaders.Success?
              && UpdatesClientFirst(r.sent.value.msgs, path.Get(r.sent.value.to),
                                    CounterpartyHeader(r.sent.value.to, env.trustedHeaders.value))
    ensures var w := ExecuteConnectionStep(path, env);
            && r.decision == w.decision && r.path == w.path
            && (r.sent.Some? <==> w.sent.Some?)
            && (r.sent.Some? ==> r.sent.value.msgs == w.sent.value.msgs)
  {
    ExecuteConnectionStepWith(path, env, ToBuilder)
  }

  /** With both identifiers set and every call succeeding, a step always
      advances, and it is the last one exactly when one end is OPEN and the
      other TRYOPEN. */
  lemma AllCallsSucceedingStepAdvances(path: Path, env: StepEnv, routing: Routing)
    requires !MissingConnectionId(path)
    requires env.syncHeaders.Success? && env.trustedHeaders.Success?
    requires env.queryConnection(Src, PrevHeight(env.syncHeaders.value.srcHeight), path.src.pathEnd.connectionId).err.None?
    requires env.queryConnection(Dst, PrevHeight(env.syncHeaders.value.dstHeight), path.dst.pathEnd.connectionId).err.None?
    requires forall side: Side :: env.connTry(side).Success? && env.connAck(side).Success?
    requires forall side: Side, msgs: seq<Msg> :: env.sendMsgs(side, msgs).success
    ensures var r := ExecuteConnectionStepWith(path, env, routing);
            var sh := env.syncHeaders.value;
            var s := env.queryConnection(Src, PrevHeight(sh.srcHeight), path.src.pathEnd.connectionId).value.connection.state;
            var t := env.queryConnection(Dst, PrevHeight(sh.dstHeight), path.dst.pathEnd.connectionId).value.connection.state;
            && r.success && r.err.None? && r.sent.Some? && r.path == path
            && (r.last <==> (s == TryOpen && t == Open) || (s == Open && t == TryOpen))
  {
  }

  /** As written, a bundle built for src, whose first message updates src's
      light client, is submitted to dst, which does not host that client. */
  lemma SrcBundleSubmittedToDst(path: Path, env: StepEnv)
    requires path.src.pathEnd.clientId != path.dst.pathEnd.clientId
    requires var r := ExecuteConnectionStep(path, env);
             r.decision.Some? && r.sent.Some? && !r.decision.value.step.NoStep?
             && r.decision.value.step.Builder() == Src
    ensures var r := ExecuteConnectionStep(path, env);
            && r.sent.value.to == Dst
            && env.trustedHeaders.Success?
            && UpdatesClientFirst(r.sent.value.msgs, path.src, env.trustedHeaders.value.1)
            && r.sent.value.msgs[0].clientId != path.Get(r.sent.value.to).pathEnd.clientId
  {
  }

  /** A concrete path that shows it: both chains at INIT (crossing hellos),
      every call succeeding. The OpenTry bundle for src goes to dst. */
  lemma CrossingHellosSubmittedToDst()
    ensures var path := ExamplePath();
            var r := ExecuteConnectionStep(path, ExampleEnv(Init, Init));
            && r.decision.Some? && r.decision.value.step == TryOnSrc
            && r.sent == Some(Submission(Dst, [PathEnds.UpdateClient(path.src.pathEnd, Header("dst", 9), path.src.signer),
                                                ExampleTry()]))
            && r.success && !r.last
    ensures var r := ExecuteConnectionStepRouted(ExamplePath(), ExampleEnv(Init, Init));
            r.sent.Some? && r.sent.value.to == Src
  {
  }

  function ExamplePath(): Path {
    var pe := PathEnd("a", "client-a", "connection-a", "", "", "");
    Path(Chain("a", pe, Signer([1])),
         Chain("b", pe.(chainId := "b", clientId := "client-b", connectionId := "connection-b"), Signer([2])))
  }

  function ExampleTry(): Msg {
    ConnOpenTry("connection-a", "client-a", "connection-b", "client-b", "", [], Proof([]), Proof([]), 1, 1, Signer([1]))
  }

  /** Both chains answer every call successfully, with the given connection states. */
  function ExampleEnv(s: State, d: State): StepEnv {
    StepEnv(
      Success(SyncHeaders(10, 10)),
      Success((Header("src", 9), Header("dst", 9))),
      (side: Side, h: i64, id: string) =>
        Reply(ConnectionResponse(ConnectionEnd(if side.Src? then s else d, ""), Proof([]), 0), None),
      true,
      (side: Side) => Success(ExampleTry()),
      (side: Side) => Success(ExampleTry()),
      (side: Side, msgs: seq<Msg>) => SendReply(TxResponse([]), true, None),
      (events: seq<Event>) => Success("connection-new"))
  }

  // ---------------------------------------------------------------------
  // The retry loop
  // ---------------------------------------------------------------------

  /** What one step reported: Go's `(success, last, err)`. */
  datatype StepOutcome = StepOutcome(success: bool, last: bool, err: Option<Error>)

  function OutcomeOf(r: StepResult): StepOutcome {
    StepOutcome(r.success, r.last, r.err)
  }

  /** A step that failed without an error: counted against the retry budget. */
  predicate PlainFailure(o: StepOutcome) {
    o.err.None? && !o.success
  }

  /** A step after which the loop goes on (neither an error nor the last step). */
  predicate Continues(o: StepOutcome) {
    o.err.None? && !(o.success && o.last)
  }

  /** How the loop ended: handshake complete, aborted by an error, retry budget
      exhausted, or (in the model) still running when the outcomes ran out. */
  datatype Verdict = Connected | Aborted(err: Error) | GaveUp(err: Error) | Pending

  /** A verdict and the number of steps taken to reach it. */
  datatype Run = Run(verdict: Verdict, attempts: nat)

  /** The error reported when the retry budget runs out, naming both path ends. */
  function FailureReport(path: Path): Error {
    ConnectionFailed(path.src.chainId, path.src.pathEnd.clientId, path.src.pathEnd.connectionId,
                     path.dst.chainId, path.dst.pathEnd.clientId, path.dst.pathEnd.connectionId)
  }

  /** The loop from step `i` on, with `failed` consecutive failures counted so
      far: an error aborts, success on the last step completes, other success
      resets the counter, a failure increments it (uint64, wrapping) and gives
      up once it exceeds `maxRetries`. */
  function RunFrom(outcomes: seq<StepOutcome>, i: nat, failed: u64, maxRetries: u64, report: Error): (r: Run)
    requires i <= |outcomes|
    decreases |outcomes| - i
    ensures i <= r.attempts <= |outcomes|
    ensures r.verdict.Pending? ==> r.attempts == |outcomes|
  {
    if i == |outcomes| then Run(Pending, i)
    else
      var o := outcomes[i];
      if o.err.Some? then Run(Aborted(o.err.value), i + 1)
      else if o.success && o.last then Run(Connected, i + 1)
      else if o.success then RunFrom(outcomes, i + 1, 0, maxRetries, report)
      else
        var f := Succ(failed);
        if f > maxRetries then Run(GaveUp(report), i + 1)
        else RunFrom(outcomes, i + 1, f, maxRetries, report)
  }

  /** How the loop's verdict follows from the steps taken: every step before
      the deciding one went on; the deciding one was the last step, reported
      the error, or was a failure over budget; running out of steps leaves
      the loop pending. */
  lemma {:induction false} RunFromVerdicts(outcomes: seq<StepOutcome>, i: nat, failed: u64, maxRetries: u64, report: Error)
    requires i <= |outcomes|
    ensures var r := RunFrom(outcomes, i, failed, maxRetries, report);
      && (forall j :: i <= j < r.attempts - 1 ==> Continues(outcomes[j]))
      && (r.verdict.Pending? ==> r.attempts == |outcomes| && (r.attempts == i || Continues(outcomes[r.attempts - 1])))
      && (r.verdict.Connected? ==> r.attempts > i && outcomes[r.attempts - 1] == StepOutcome(true, true, None))
      && (r.verdict.Aborted? ==> r.attempts > i && outcomes[r.attempts - 1].err == Some(r.verdict.err))
      && (r.verdict.GaveUp? ==> r.attempts > i && PlainFailure(outcomes[r.attempts - 1]) && r.verdict.err == report)
    decreases |outcomes| - i
  {
    if i < |outcomes| {
      var o := outcomes[i];
      if o.err.None? && !(o.success && o.last) {
        if o.success {
          RunFromVerdicts(outcomes, i + 1, 0, maxRetries, report);
        } else if Succ(failed) <= maxRetries {
          RunFromVerdicts(outcomes, i + 1, Succ(failed), maxRetries, report);
        }
      }
    }
  }

  /** The number of plain failures at the end of `s`. */
  function TrailingFailures(s: seq<StepOutcome>): (n: nat)
    ensures n <= |s|
  {
    if |s| == 0 || !PlainFailure(s[|s| - 1]) then 0 else 1 + TrailingFailures(s[..|s| - 1])
  }

  lemma {:induction false} TrailingFailuresWindow(s: seq<StepOutcome>, k: nat)
    requires k <= TrailingFailures(s)
    ensures forall j :: |s| - k <= j < |s| ==> PlainFailure(s[j])
  {
    if k > 0 {
      var t := s[..|s| - 1];
      TrailingFailuresWindow(t, k - 1);
      assert forall j :: |s| - k <= j < |s| - 1 ==> s[j] == t[j];
    }
  }

  /** Runs handshake steps until the handshake completes, an error aborts it,
      or more than `maxRetries` consecutive steps fail. `validation` is the
      outcome of checking the client identifiers before any step; `outcomes`
      are the reports of the successive steps. */
  method CreateOpenConnections(path: Path, maxRetries: u64, validation: Option<Error>, outcomes: seq<StepOutcome>)
    returns (verdict: Verdict, attempts: nat)
    ensures validation.Some? ==> verdict == Aborted(validation.value) && attempts == 0
    ensures validation.None? ==> Run(verdict, attempts) == RunFrom(outcomes, 0, 0, maxRetries, FailureReport(path))
    ensures attempts <= |outcomes|
    ensures verdict.GaveUp? ==>
              && attempts > maxRetries as int
              && forall j :: attempts - maxRetries as int - 1 <= j < attempts ==> PlainFailure(outcomes[j])
  {
    if validation.Some? {
      return Aborted(validation.value), 0;
    }
    ghost var report := FailureReport(path);
    var failed: u64 := 0;
    var i := 0;
    while i < |outcomes|
      invariant 0 <= i <= |outcomes|
      invariant RunFrom(outcomes, i, failed, maxRetries, report) == RunFrom(outcomes, 0, 0, maxRetries, report)
      invariant failed <= maxRetries
      invariant failed as int <= TrailingFailures(outcomes[..i])
    {
      var o := outcomes[i];
      assert outcomes[..i + 1][..i] == outcomes[..i];
      if o.err.Some? {
        return Aborted(o.err.value), i + 1;
      }
      if o.success && o.last {
        return Connected, i + 1;
      }
      if o.success {
        failed := 0;
      } else {
        failed := Succ(failed);
        if failed > maxRetries {
          TrailingFailuresWindow(outcomes[..i + 1], maxRetries as int + 1);
          return GaveUp(FailureReport(path)), i + 1;
        }
      }
      i := i + 1;
    }
    return Pending, i;
  }

  // ---------------------------------------------------------------------
  // Properties of the retry loop
  // ---------------------------------------------------------------------

  lemma {:induction false} FailuresFrom(outcomes: seq<StepOutcome>, i: nat, maxRetries: u64, report: Error)
    requires i <= maxRetries as int + 1 <= |outcomes|
    requires maxRetries as int < MAX_U64
    requires forall j :: 0 <= j < |outcomes| ==> PlainFailure(outcomes[j])
    ensures i < maxRetries as int + 1 ==>
              RunFrom(outcomes, i, i as u64, maxRetries, report) == Run(GaveUp(report), maxRetries as int + 1)
    decreases maxRetries as int + 1 - i
  {
    if i < maxRetries as int + 1 {
      if i + 1 < maxRetries as int + 1 {
        FailuresFrom(outcomes, i + 1, maxRetries, report);
      }
    }
  }

  /** A step that always fails without an error is tried exactly
      `maxRetries + 1` times before the loop gives up. */
  lemma AlwaysFailingStepsExhaustBudget(outcomes: seq<StepOutcome>, maxRetries: u64, report: Error)
    requires maxRetries as int < MAX_U64
    requires |outcomes| > maxRetries as int
    requires forall j :: 0 <= j < |outcomes| ==> PlainFailure(outcomes[j])
    ensures RunFrom(outcomes, 0, 0, maxRetries, report) == Run(GaveUp(report), maxRetries as int + 1)
  {
    FailuresFrom(outcomes, 0, maxRetries, report);
  }

  /** With the largest uint64 budget the counter wraps to 0 instead of
      exceeding it: the loop never gives up. */
  lemma {:induction false} FullBudgetNeverGivesUp(outcomes: seq<StepOutcome>, i: nat, failed: u64, report: Error)
    requires i <= |outcomes|
    ensures !RunFrom(outcomes, i, failed, MAX_U64 as u64, report).verdict.GaveUp?
    decreases |outcomes| - i
  {
    if i < |outcomes| {
      FullBudgetNeverGivesUp(outcomes, i + 1, 0, report);
      FullBudgetNeverGivesUp(outcomes, i + 1, Succ(failed), report);
    }
  }

  /** Running a suffix after a prefix of `k` steps: the same verdict, `k` more attempts. */
  lemma {:induction false} RunFromShift(prefix: seq<StepOutcome>, rest: seq<StepOutcome>, j: nat,
                                        failed: u64, maxRetries: u64, report: Error)
    requires j <= |rest|
    ensures var r := RunFrom(rest, j, failed, maxRetries, report);
            RunFrom(prefix + rest, |prefix| + j, failed, maxRetries, report) == Run(r.verdict, r.attempts + |prefix|)
    decreases |rest| - j
  {
    var all := prefix + rest;
    if j < |rest| {
      var o := rest[j];
      assert all[|prefix| + j] == o;
      if o.err.Some? || (o.success && o.last) {
      } else if o.success {
        RunFromShift(prefix, rest, j + 1, 0, maxRetries, report);
      } else if Succ(failed) <= maxRetries {
        RunFromShift(prefix, rest, j + 1, Succ(failed), maxRetries, report);
      }
    } else {
      assert |prefix| + j == |all|;
    }
  }

  lemma {:induction false} FailuresThenProgress(outcomes: seq<StepOutcome>, i: nat, k: nat, maxRetries: u64, report: Error)
    requires i <= k <= maxRetries as int
    requires k < |outcomes|
    requires forall j :: 0 <= j < k ==> outcomes[j] == StepOutcome(false, false, None)
    requires outcomes[k] == StepOutcome(true, false, None)
    ensures RunFrom(outcomes, i, i as u64, maxRetries, report) == RunFrom(outcomes, k + 1, 0, maxRetries, report)
    decreases k - i
  {
    if i < k {
      FailuresThenProgress(outcomes, i + 1, k, maxRetries, report);
    }
  }

  /** A successful step that is not the last resets the failure counter: after
      up to `maxRetries` failures and one success, the loop behaves as if
      started afresh on the remaining steps. */
  lemma SuccessResetsBudget(k: nat, rest: seq<StepOutcome>, maxRetries: u64, report: Error)
    requires k <= maxRetries as int
    ensures var prefix := seq(k, _ => StepOutcome(false, false, None)) + [StepOutcome(true, false, None)];
            var restRun := RunFrom(rest, 0, 0, maxRetries, report);
            RunFrom(prefix + rest, 0, 0, maxRetries, report) == Run(restRun.verdict, restRun.attempts + k + 1)
  {
    var prefix := seq(k, _ => StepOutcome(false, false, None)) + [StepOutcome(true, false, None)];
    var all := prefix + rest;
    assert forall j :: 0 <= j < k ==> all[j] == StepOutcome(false, false, None);
    assert all[k] == StepOutcome(true, false, None);
    FailuresThenProgress(all, 0, k, maxRetries, report);
    RunFromShift(prefix, rest, 0, 0, maxRetries, report);
  }

  /** A step reporting an error ends the loop at once, however many failures
      were counted before it. */
  lemma ErrorAbortsRegardlessOfCount(outcomes: seq<StepOutcome>, i: nat, failed: u64, maxRetries: u64, report: Error)
    requires i < |outcomes| && outcomes[i].err.Some?
    ensures RunFrom(outcomes, i, failed, maxRetries, report) == Run(Aborted(outcomes[i].err.value), i + 1)
  {
  }

  /** The outcome of any step is one the loop reads consistently: `last` only
      with success, success only without an error. */
  lemma StepOutcomesAreWellFormed(path: Path, env: StepEnv, routing: Routing)
    ensures var o := OutcomeOf(ExecuteConnectionStepWith(path, env, routing));
            (o.last ==> o.success) && (o.success ==> o.err.None?)
  {
  }
}
