# Relayer handshake and relay core, in Dafny

This project models the decision and message-building core of an IBC relayer. An IBC relayer is the off-chain process that moves light-client-verified messages between two blockchains. The chains are abstract here. Every query, submission and light-client call is either a parameter or a field of a record of answers.

The model covers three parts of the relayer:

- **Connection handshake driver** (`relayer/connection-tx.go`, module `ConnectionTx`). This drives the opening handshake of section "Connection Semantics" of ICS 003.
  - `Decide` is the decision table over the observed (src, dst) connection states.
  - `ExecuteConnectionStepWith` models one step: synchronise headers, initialise a missing end, query both ends, decide, build the `[UpdateClient, handshake]` bundle and submit it.
  - `InitializeConnection` is the case analysis on empty connection identifiers.
  - `CreateOpenConnections` is the bounded retry loop. It runs over a sequence of step outcomes, each `(success, last, err)`.
- **Message constructors** (`relayer/pathEnd.go`, module `PathEnds`). These are pure functions from a `PathEnd` and the counterparty's proofs to handshake, channel and packet messages. They also cover order parsing.
- **Query combinators** (`relayer/query.go`, module `Query`).
  - Paired queries report the first error either side produced.
  - The channel lookup searches a connection's channels by identifier.
  - The client-state cast narrows an unpacked client state to the tendermint type.

`IbcTypes` holds the shared values: Go's fixed-width integers with their wrap-around written out, observed connection and channel ends, packets, messages and errors. `Wrappers` holds `Option` and `Result`.

Behaviour that follows the code where one might expect otherwise:

- If the observed state pair matches no case of the decision (for example OPEN/OPEN), one might expect a configuration error. Instead the step submits an empty bundle to dst and reports what dst answers. The model keeps this as `NoStep` with an empty submission.
- Any error a step returns aborts the retry loop at once, whatever its kind. Only `success = false` with no error counts against the budget.
- The retry counter is a uint64. With `maxRetries` at the largest uint64, the counter wraps to 0 instead of exceeding the budget, so the loop never gives up (`FullBudgetNeverGivesUp`).
- Concurrency in the paired queries is modelled by a flag, `srcErrFirst`. It only decides which error is reported when both sides fail.

## Model

| member | source | states |
|---|---|---|
| ConnectionTx.Decide | relayer/connection-tx.go:113-190 | the chosen step satisfies exactly the condition of its case (INIT/INIT gives Try on src, (INIT or TRYOPEN)/TRYOPEN gives Ack on src, TRYOPEN/INIT gives Ack on dst, TRYOPEN/OPEN gives Confirm on src, OPEN/TRYOPEN gives Confirm on dst), or no case holds |
| ConnectionTx.GuardsExclusive | relayer/connection-tx.go:113-190 | the five case conditions exclude each other, so at most one bundle is chosen whatever their order |
| ConnectionTx.DecisionTable | relayer/connection-tx.go:113-190 | a step is terminal iff the states are (TRYOPEN, OPEN) or (OPEN, TRYOPEN); crossing hellos (INIT, INIT) always give Try on src; lists exactly the pairs with no step |
| ConnectionTx.BuildBundle | relayer/connection-tx.go:115-190 | every decided bundle is an UpdateClient of the building chain's client, with the counterparty's header, followed by that step's handshake message; a Try/Ack construction error fails the bundle; Confirm bundles always build |
| ConnectionTx.SubmitAndRecord | relayer/connection-tx.go:220-233 | succeeds, writing exactly the parsed identifier into that end and changing nothing else, iff the submission succeeded and its second log's events parse to an identifier; a failed submission returns its error (possibly none), a missing second log gives MissingTxLog, and a parse failure gives the parse error, each with the path unchanged |
| ConnectionTx.InitializeConnection | relayer/connection-tx.go:200-300 | both identifiers empty gives Init on src; only src empty gives Try on src; only dst empty gives Try on dst; both set gives "connection ends already created" with no submission; once a bundle is sent the outcome is that of submitting it and recording the identifier; at most one identifier is written, only an empty one, and only after a successful submission and parse; if no bundle is sent, the Try construction for the empty end failed and its error is returned |
| ConnectionTx.InitializationRecordsParsedId | relayer/connection-tx.go:207-295 | when every construction and submission succeeds and the chain names an identifier, exactly that identifier is written into the first end lacking one (src before dst), and the call succeeds |
| ConnectionTx.ExecuteConnectionStepWith | relayer/connection-tx.go:74-198 | a header error fails the step with that error before anything is queried or sent; a missing identifier delegates to InitializeConnection and never reports last; with both identifiers set a decision is taken iff both connection queries (one height below the synchronised heights) succeed, and otherwise one of their errors is returned; a decided bundle is sent iff it could be built, otherwise the construction error is returned; last holds iff a Confirm bundle was submitted successfully; a failed submission returns (false, false, err) |
| ConnectionTx.AllCallsSucceedingStepAdvances | relayer/connection-tx.go:108-198 | with both identifiers set and every query, construction and submission succeeding, the step succeeds, and it is the last exactly when one end is OPEN and the other TRYOPEN |
| ConnectionTx.ExecuteConnectionStep | relayer/connection-tx.go:192-197 | as written, every decided bundle is submitted to dst, whichever side built it |
| ConnectionTx.ExecuteConnectionStepRouted | relayer/connection-tx.go:192-197 | corrected routing: each bundle goes to the chain that built it, so its client update reaches the chain hosting that client; the decision and bundle are the same as in ExecuteConnectionStep |
| ConnectionTx.SrcBundleSubmittedToDst | relayer/connection-tx.go:118-192 | as written, a bundle whose client update targets src's client is submitted to dst, which does not host that client |
| ConnectionTx.CrossingHellosSubmittedToDst | relayer/connection-tx.go:118-131 | on a concrete path where both ends are at INIT, the OpenTry bundle for src is sent to dst; the corrected step sends it to src |
| ConnectionTx.StepOutcomesAreWellFormed | relayer/connection-tx.go:193-197 | a step reports last only with success, and success only without an error |
| ConnectionTx.RunFrom | relayer/connection-tx.go:21-65 | the loop from a given step consumes at least that many steps and at most all of them; it is pending only when the steps ran out |
| ConnectionTx.RunFromVerdicts | relayer/connection-tx.go:21-65 | every step before the deciding one went on; Connected comes from a successful last step, Aborted from that step's error, GaveUp from a failure with the failure report naming both path ends |
| ConnectionTx.CreateOpenConnections | relayer/connection-tx.go:12-68 | a client-path validation error aborts before any step; otherwise the loop's verdict and attempt count are the reference RunFrom's; giving up happens only after more than maxRetries consecutive failures |
| ConnectionTx.AlwaysFailingStepsExhaustBudget | relayer/connection-tx.go:54-63 | steps that always fail without an error are attempted exactly maxRetries+1 times before the loop gives up |
| ConnectionTx.SuccessResetsBudget | relayer/connection-tx.go:48-51 | after up to maxRetries failures, a successful non-terminal step makes the loop behave as if started afresh on the remaining steps |
| ConnectionTx.ErrorAbortsRegardlessOfCount | relayer/connection-tx.go:22-25 | a step error ends the loop at once, whatever the failure counter |
| ConnectionTx.FullBudgetNeverGivesUp | relayer/connection-tx.go:55-59 | with the largest uint64 budget the wrapping counter never exceeds it, so the loop never gives up |
| PathEnds.OrderFromString | relayer/pathEnd.go:31-41 | UNORDERED and ORDERED are recognised exactly, each iff the input is that name; everything else is NONE |
| PathEnds.OrderNameRoundTrip | relayer/pathEnd.go:32-41 | parsing inverts naming, and only the canonical names parse to an order |
| PathEnds.GetOrder | relayer/pathEnd.go:43-45 | the configured order is ORDERED (UNORDERED) iff the string equals that name ignoring letter case |
| PathEnds.UpdateClient | relayer/pathEnd.go:47-54 | the update targets the path end's own client with the given counterparty header and signer |
| PathEnds.ConnInit | relayer/pathEnd.go:73-83 | local connection and client identifiers come first, then the counterparty's; no proof is carried; the default chain prefix; signed by the given signer |
| PathEnds.ConnTry | relayer/pathEnd.go:85-102 | local then counterparty identifiers; the counterparty's connection and consensus proofs; proven at the response's proof height + 1; consensus height is the uint64 conversion of the given height; the default chain prefix and the default IBC versions; signed by the given signer |
| PathEnds.ConnAck | relayer/pathEnd.go:104-117 | acknowledges with the counterparty's proofs, proven at the response's proof height + 1; consensus height is the uint64 conversion of the given height; the default IBC version; signed by the given signer |
| PathEnds.ConnConfirm | relayer/pathEnd.go:119-128 | confirms with the counterparty's proof, proven at the response's proof height + 1; signed by the given signer |
| PathEnds.ChanInit | relayer/pathEnd.go:130-142 | uses the locally configured order read case-insensitively, the local connection as the only hop, and the counterparty's port and channel; signed by the given signer |
| PathEnds.ChanTry | relayer/pathEnd.go:144-159 | takes the ordering and the counterparty version from the observed counterparty channel (its own version is the default transfer version); proven at its proof height + 1; signed by the given signer |
| PathEnds.ChanTryIgnoresLocalOrder | relayer/pathEnd.go:131-159 | ChanTry is unaffected by the local order setting, while ChanInit follows it |
| PathEnds.ChanAck | relayer/pathEnd.go:161-171 | carries the counterparty channel's version; proven at its proof height + 1; signed by the given signer |
| PathEnds.ChanConfirm | relayer/pathEnd.go:173-182 | proven at the counterparty response's proof height + 1; signed by the given signer |
| PathEnds.ChanCloseInit | relayer/pathEnd.go:184-191 | closes the path end's own port and channel, without a proof; signed by the given signer |
| PathEnds.ChanCloseConfirm | relayer/pathEnd.go:193-202 | proven at the counterparty response's proof height + 1; signed by the given signer |
| PathEnds.NewPacket | relayer/pathEnd.go:280-293 | source port and channel from the receiver, destination from dst; sequence, data and both timeouts unchanged |
| PathEnds.MsgRecvPacket | relayer/pathEnd.go:204-219 | the packet travels from dst to the receiving path end; proven at proofHeight + 1 |
| PathEnds.MsgTimeout | relayer/pathEnd.go:221-237 | the packet travels from the path end to dst; the next receive sequence is the packet's; proven at proofHeight + 1 |
| PathEnds.MsgAck | relayer/pathEnd.go:239-255 | the packet travels from the path end to dst and carries the acknowledgement; proven at proofHeight + 1 |
| PathEnds.RelayMessagesShareThePacket | relayer/pathEnd.go:204-255 | the packet chain A receives from B equals, field for field, the packet B acknowledges or times out towards A, at the same proof height |
| PathEnds.MsgSendPacket | relayer/pathEnd.go:270-278 | the packet goes from the path end to dst with sequence 1, whatever the arguments |
| PathEnds.PacketMsg | relayer/pathEnd.go:304-317 | forwards dst's packet to the chain, signed by the chain, with the uint64 conversion of the sequence, proven at the commitment's proof height + 1 |
| Query.FirstErrorSchedule | relayer/query.go:20-31 | whether a paired query fails does not depend on scheduling; swapping the sides and the schedule reports the same error |
| Query.QueryLatestHeights | relayer/query.go:18-33 | an error iff either side failed; neither height is cleared |
| Query.QueryConnectionPair | relayer/query.go:35-50 | each end is queried at its own height under its own connection identifier; an error iff either side failed, and it is one of the sides' errors; neither value is cleared |
| Query.QueryChannelPair | relayer/query.go:52-69 | all or nothing: both channels without an error, or neither with one of the sides' errors |
| Query.GetIBCUpdateHeaders | relayer/query.go:108-125 | all or nothing, and a reported error is one of the two fetches' errors; the src header comes from the src provider at srch for the dst provider and dst client, and the dst header the other way round |
| Query.GetIBCUpdateHeadersSymmetric | relayer/query.go:109-125 | asking with the sides swapped returns the same headers swapped |
| Query.GetLightSignedHeadersAtHeights | relayer/query.go:127-145 | all or nothing over the two signed headers at the given heights; a reported error is one of the two fetches' errors |
| Query.FirstWithId | relayer/query.go:97-102 | finds the first listed channel with the identifier, or reports that none has it |
| Query.QueryChannel | relayer/query.go:71-106 | a failed height query is returned and the listing is never consulted; a failed listing is returned; otherwise the first channel with the identifier, or "channel not found" iff none matches |
| Query.CastClientStateToTMType | relayer/query.go:158-173 | success iff unpacking succeeds and yields a tendermint client state; on either failure the state is empty and the unpack error or the cast error is returned |
| Query.QueryTMClientState | relayer/query.go:147-156 | a failed query gives the empty state and its error; otherwise the cast of the queried state |

## Left out

- `cmd/lite.go` and `relayer/chains/cosmos/account.go` are CLI commands, an HTTP fetch, a global map of lite-client handles and gRPC account wrappers. They are I/O and external-library plumbing.
- `CreateClient`, `MsgTransfer` and `XferPacket` are SDK message and coin encoding. `CreateClient`'s `ValidateBasic` panic is also omitted.
- The commented-out validator-set code at the end of `relayer/query.go` is not modelled.
- Timing is not modelled: the ticker, the 5-second sleep, and the `retry.Do` attempt and delay policy. `QueryChannel` receives the outcome of the retried height query, and the listing function is the outcome of the retried listing.
- Logging is not modelled. This includes the debug-only re-query after the last step (`relayer/connection-tx.go:31-41`). With debug enabled, that re-query can turn a completed handshake into an error. The model always returns `Connected` there.
- `ValidateClientPaths` is not part of this model. Its result is the `validation` parameter.
- `NewSyncHeaders`, `GetTrustedHeaders`, `ParseConnectionIDFromEvents`, `SendMsgs` and the chain queries are abstract. So are the `ConnTry` and `ConnAck` calls the driver makes, whose signature differs from the constructors in `relayer/pathEnd.go`. Each is a field of `StepEnv`.
- `MustGetAddress` is the chain's `signer` field. Its panic is not modelled.
- Go panics on `res.Logs[1]` when the response has fewer than two logs. The model reports `MissingTxLog` instead.
- Synchronised headers are kept as one height per side rather than a map keyed by chain identifier. A path whose two chains share a chain identifier is not modelled.
- A provider that returns a nil value together with a nil error is not modelled. Replies always carry a value.
- Go's `strings.ToUpper` is modelled on ASCII letters only. The only non-ASCII characters it maps into ASCII become `I` and `S`. Neither letter occurs in `ORDERED` or `UNORDERED`, so `GetOrder` is unaffected.
- The values of the default prefix and versions are defined outside the modelled files. The messages are stated to carry these constants, but no property depends on their values.
- Client states keep only a chain identifier, a latest height and a frozen flag. `UnpackClientState` is a parameter.
- ConnectionTx.CreateOpenConnections: runs over a finite sequence of step outcomes instead of calling the step. The Go loop runs until it returns, and running out of outcomes gives `Pending`. Identifiers assigned by steps are not threaded between iterations, so the give-up error names the path ends as they were at the start.

## Findings

| source | as written | input that shows it | evidently intended | confidence | as-written member | corrected member |
|---|---|---|---|---|---|---|
| relayer/connection-tx.go:192 | every decided bundle is submitted with `dst.SendMsgs`, including the Try, Ack and Confirm bundles built by src's path end | both ends at INIT with identifiers set: the bundle `[UpdateClient(src client), OpenTry(src)]` is submitted to dst, which does not host src's client | submit each bundle to the chain whose path end built it, as `InitializeConnection` does | medium, not executed | ConnectionTx.ExecuteConnectionStep, ConnectionTx.CrossingHellosSubmittedToDst | ConnectionTx.ExecuteConnectionStepRouted |
