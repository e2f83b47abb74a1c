# Verified model of the coordination plane

This project models, in Dafny, the crash-safe core of the sprint orchestrator and proves what its
protocols promise: the attempt-bound Responses proxy, the supervisor's submission protocol and
scheduler, the approval ledger with its execution guard, the disaster-restore placement, and the
issue-body compare-and-swap. `dafny verify dfyconfig.toml` checks everything.

Tables are maps, each `BEGIN IMMEDIATE` or `store.transaction()` block is one atomic step, and a
digest is represented by the value it digests, so digests are injective by construction. Everything
outside the program (upstream, the process manager, the filesystem, GitHub, clocks, other writers)
is a script of outcomes that the theorems quantify over. Where the source changes state in place, a
class with the same state has one method per operation, proved against a value model
(`ProxyLedgerSpec`, `SseSpec`, `SubmissionSpec`, `ApprovalSpec`, the layouts of `RestorePlacement`);
the theorems over all runs are about those value models.

- Proxy: `ProxyLedgerSpec`, `ProxyLedgerProofs`, `ProxyLedgerTheorems`, `ProxyLedgerChanges`,
  `ProxyLedger`, `ProxyWire` (the ledger); `SseSpec`, `SseProofs`, `SseEvents`, `SseTracker` (the stream
  parser); `Framing`, `FramedChannel` (the framed exchange); `ProxyHandlerSpec`, `ProxyOutcome`,
  `ProxyHandler`, `ProxySession` (the request handler over all three, and whole lives of a proxy).
- Supervisor: `SubmissionSpec`, `SubmissionProofs`, `SubmissionTheorems`, `SubmissionAnswers`,
  `SubmissionChanges`, `SubmissionStore` (single flight); `RetryBudget`, `LaunchPass`, `LaunchFairness`,
  `PassRefinement`, `AckWait` (scheduling).
- Approvals: `ApprovalSpec`, `ApprovalGuard`, `ApprovalProofs`, `ApprovalTheorems`, `ApprovalGrants`,
  `ApprovalChanges`, `ApprovalCommits`, `ApprovalLedger`, `ApprovalExample`.

The `...Changes`, `...Commits`, `SseEvents`, `ProxyOutcome` and `ApprovalGrants` modules state what each
operation does in terms that do not name its own definition: positions of a log, columns of a table,
bytes of a stream, or the behaviour of the outside alone.
- `RestorePlacement`, `IssueBodyCas`, and the shared `Prelude`.

Two expectations fail of the code as it stands. Each has concrete counterexamples and an exact
condition, proved in both directions:

- The size guard of the stream parser depends on where chunks were cut, in both directions
  (`GuardRejectsSplitDelimiter`, `GuardRejectsJoinedCrlfEvents`); `FeedAllIsOnePass` gives the exact
  condition on the bytes of the chunks.
- Restore rollback can expose an old sidecar beside the restored database, or the old database
  without a sidecar, when one of its own renames fails (`StuckStageExample`,
  `MissingSidecarExample`, `UnsafeInstantIff`).

`RecoveryLeavesActiveIff` is a fact of the ledger method alone: its caller, the request handler, holds
a proxy only over a settled request, so over handler runs recovery always leaves nothing active
(`ProxySession.Session`).

## Model

| member | source | states |
|---|---|---|
| ProxyLedgerTheorems.RequestLogSound | skills/twinfinity-sprint-orchestrator/scripts/attempt_responses_proxy.py:1729-2252 | in every reachable ledger: sequences are exactly 1..`request_count`, within `max_requests`; at most one request is active; each event log has contiguous ordinals and is a legal path of at most four entries from CREATED to the row's state; a COMPLETE proxy has no active or ambiguous request |
| ProxyLedgerTheorems.BudgetConserved | skills/twinfinity-sprint-orchestrator/scripts/attempt_responses_proxy.py:1796-2137 | in every reachable ledger the input and output counters are the sums over prepared requests and respect the input, output and total limits; a live reservation still fits on top of them |
| ProxyLedgerTheorems.OverrunIsOwnReservation | skills/twinfinity-sprint-orchestrator/scripts/attempt_responses_proxy.py:2097-2107 | an overrun is reported if and only if usage exceeds that request's own reservation: the three global checks are implied |
| ProxyLedgerTheorems.TerminalProxyFreezes | skills/twinfinity-sprint-orchestrator/scripts/attempt_responses_proxy.py:1742-1763 | once a proxy is COMPLETE or HOLD no later operation changes its counters, its request count or its state |
| ProxyLedgerTheorems.AmbiguityEndsAdmission | skills/twinfinity-sprint-orchestrator/scripts/attempt_responses_proxy.py:2033-2042 | after an AMBIGUOUS request the proxy is in HOLD and every later begin is refused, whatever runs in between |
| ProxyLedgerTheorems.TerminalRowFreezes | skills/twinfinity-sprint-orchestrator/scripts/attempt_responses_proxy.py:63-73 | a terminal request row and its event log never change again |
| ProxyLedgerTheorems.RefusalAndFrame | skills/twinfinity-sprint-orchestrator/scripts/attempt_responses_proxy.py:1632-2423 | an operation that replies with an error leaves the tables as they were, and no operation touches another attempt |
| ProxyLedgerTheorems.RecoveryMovesTheActiveRequest | skills/twinfinity-sprint-orchestrator/scripts/attempt_responses_proxy.py:2254-2423 | recovering a RUNNING proxy leaves no active request: CREATED becomes SAFE_NOT_SENT with zero bytes and evidence, every later state AMBIGUOUS, terminal rows stay, and the hold code says which |
| ProxyLedgerTheorems.RecoveryReplay | skills/twinfinity-sprint-orchestrator/scripts/attempt_responses_proxy.py:2285-2312 | replaying the same receipt changes nothing; a different receipt on the held proxy is refused |
| ProxyLedgerTheorems.RecoveryLeavesActiveIff | skills/twinfinity-sprint-orchestrator/scripts/attempt_responses_proxy.py:2285-2312 | a fact of the ledger method alone: over arbitrary call orders, recovery leaves a request active exactly when the proxy was held while that request was active |
| ProxyLedgerTheorems.RecoveryLeavesActiveExample | skills/twinfinity-sprint-orchestrator/scripts/attempt_responses_proxy.py:2196-2312 | such a call order exists at the ledger interface (register, activate, bind, begin, hold); the handler never makes it, see ProxySession.Session |
| ProxyLedgerChanges.AcceptedIff | skills/twinfinity-sprint-orchestrator/scripts/attempt_responses_proxy.py:1632-2423 | in every reachable ledger each of the twelve calls commits if and only if its caller brought what the call asks for, stated on the columns |
| ProxyLedgerChanges.AcceptedTakesEffect | skills/twinfinity-sprint-orchestrator/scripts/attempt_responses_proxy.py:1632-2423 | an accepted call leaves its effect in the tables, a refused one leaves them as they were |
| ProxyLedgerChanges.OnlyBoundReceiptsRecover | skills/twinfinity-sprint-orchestrator/scripts/attempt_responses_proxy.py:2278-2284 | a receipt recovers only for its own attempt, binding and bound process; any other is refused with the binding error and changes nothing, and a proxy with no bound process accepts none |
| ProxyLedgerChanges.RecoveryReports | skills/twinfinity-sprint-orchestrator/scripts/attempt_responses_proxy.py:2285-2423 | a recovery reports the hold it left and exactly the request it moved |
| ProxyLedgerChanges.RowChangeHasACause | skills/twinfinity-sprint-orchestrator/scripts/attempt_responses_proxy.py:1796-2423 | for every call and every row: the state moves only along a legal edge logged in the same step; a reservation, evidence or usage is written only by its own call, once, under that call's bindings and bounds, or by process loss before anything was forwarded |
| ProxyLedgerChanges.ProxyChangeHasACause | skills/twinfinity-sprint-orchestrator/scripts/attempt_responses_proxy.py:1669-2423 | binding and limits are fixed; process, receipt, count, counters, state and hold code each change only by their own call and its conditions |
| ProxyLedgerChanges.NothingIsRewritten | skills/twinfinity-sprint-orchestrator/scripts/attempt_responses_proxy.py:1632-2423 | over every run a written digest, reservation, evidence, usage, response id, process or receipt is never rewritten, and counters never fall |
| ProxyLedgerChanges.ResponseIdIff | skills/twinfinity-sprint-orchestrator/scripts/attempt_responses_proxy.py:78-78 | a response id is `resp_` followed by 1 to 240 letters, digits, underscores or hyphens |
| ProxyWire.SafeNotSentIsTruthful | skills/twinfinity-sprint-orchestrator/scripts/attempt_responses_proxy.py:427-456 | with an honest transport, in every run a SAFE_NOT_SENT row records zero bytes, has evidence, and zero bytes really left |
| ProxyWire.HeldMeansSettled | skills/twinfinity-sprint-orchestrator/scripts/attempt_responses_proxy.py:3200-3275 | if the proxy is held only over settled requests, as every hold of the handler is, then in every reachable ledger a held proxy has no active request |
| ProxyWire.RecoveryLeavesNothingActive | skills/twinfinity-sprint-orchestrator/scripts/attempt_responses_proxy.py:2254-2423 | over every such run, cut after any call, an accepted recovery leaves no request active |
| ProxySession.Session | skills/twinfinity-sprint-orchestrator/scripts/attempt_responses_proxy.py:2971-3300 | a proxy's whole life, from registration through any requests: the ledger's own call history is the log; wherever that log is cut, recovery leaves nothing active and, if the transport never lies about zero bytes, SAFE_NOT_SENT means nothing was sent |
| ProxyLedger.AttemptProxyLedger.Register | skills/twinfinity-sprint-orchestrator/scripts/attempt_responses_proxy.py:1632-1667 | registers a proxy once, with positive limits; the new tables and the reply are those of the value model, the call history grows by this call, and the invariant is kept |
| ProxyLedger.AttemptProxyLedger.Activate | skills/twinfinity-sprint-orchestrator/scripts/attempt_responses_proxy.py:1669-1687 | READY to RUNNING only; the new tables and the reply are those of the value model, the call history grows by this call, and the invariant is kept |
| ProxyLedger.AttemptProxyLedger.BindProcess | skills/twinfinity-sprint-orchestrator/scripts/attempt_responses_proxy.py:1689-1727 | binds one process identity to a RUNNING proxy; the new tables and the reply are those of the value model, the call history grows by this call, and the invariant is kept |
| ProxyLedger.AttemptProxyLedger.BeginRequest | skills/twinfinity-sprint-orchestrator/scripts/attempt_responses_proxy.py:1729-1794 | admits the next sequence or refuses it for state, limit or concurrency; the new tables and the reply are those of the value model, the call history grows by this call, and the invariant is kept |
| ProxyLedger.AttemptProxyLedger.ReserveBudget | skills/twinfinity-sprint-orchestrator/scripts/attempt_responses_proxy.py:1796-1861 | reserves once, on top of the counters, within all three limits; the new tables and the reply are those of the value model, the call history grows by this call, and the invariant is kept |
| ProxyLedger.AttemptProxyLedger.AppendEvent | skills/twinfinity-sprint-orchestrator/scripts/attempt_responses_proxy.py:1863-1907 | appends the event with the next ordinal; the new tables and the reply are those of the value model, the call history grows by this call, and the invariant is kept |
| ProxyLedger.AttemptProxyLedger.RecordEvidence | skills/twinfinity-sprint-orchestrator/scripts/attempt_responses_proxy.py:1909-1967 | records bound send evidence once; the new tables and the reply are those of the value model, the call history grows by this call, and the invariant is kept |
| ProxyLedger.AttemptProxyLedger.TransitionRequest | skills/twinfinity-sprint-orchestrator/scripts/attempt_responses_proxy.py:1969-2046 | moves a row along a legal edge, logs it, and holds the proxy on AMBIGUOUS; the new tables and the reply are those of the value model, the call history grows by this call, and the invariant is kept |
| ProxyLedger.AttemptProxyLedger.PrepareCompletion | skills/twinfinity-sprint-orchestrator/scripts/attempt_responses_proxy.py:2048-2137 | debits usage within the reservation; the new tables and the reply are those of the value model, the call history grows by this call, and the invariant is kept |
| ProxyLedger.AttemptProxyLedger.FinalizeCompletion | skills/twinfinity-sprint-orchestrator/scripts/attempt_responses_proxy.py:2139-2194 | commits COMPLETE for a prepared stream; the new tables and the reply are those of the value model, the call history grows by this call, and the invariant is kept |
| ProxyLedger.AttemptProxyLedger.HoldProxy | skills/twinfinity-sprint-orchestrator/scripts/attempt_responses_proxy.py:2196-2221 | holds a READY or RUNNING proxy; the new tables and the reply are those of the value model, the call history grows by this call, and the invariant is kept |
| ProxyLedger.AttemptProxyLedger.CompleteProxy | skills/twinfinity-sprint-orchestrator/scripts/attempt_responses_proxy.py:2223-2252 | closes a RUNNING proxy with nothing active or ambiguous; the new tables and the reply are those of the value model, the call history grows by this call, and the invariant is kept |
| ProxyLedger.AttemptProxyLedger.Recover | skills/twinfinity-sprint-orchestrator/scripts/attempt_responses_proxy.py:2254-2423 | walks the active rows of a dead proxy in sequence order; the new tables and the reply are those of the value model, the call history grows by this call, and the invariant is kept |
| SseProofs.BoundaryIsStable | skills/twinfinity-sprint-orchestrator/scripts/attempt_responses_proxy.py:2868-2876 | the earliest LF-LF or CRLF-CRLF delimiter of a prefix stays the earliest in every extension |
| SseProofs.FeedAllIsOnePass | skills/twinfinity-sprint-orchestrator/scripts/attempt_responses_proxy.py:2862-2884 | feeding chunks gives the events, buffer, flags, id, counts and withheld bytes of one pass over their concatenation; it is accepted if and only if that pass is and, for every chunk, the chunk joined to the unfinished tail of the bytes before it is within the limit or holds an LF-LF |
| SseProofs.ChunkingDoesNotMatter | skills/twinfinity-sprint-orchestrator/scripts/attempt_responses_proxy.py:2862-2884 | two splittings of one stream that are both accepted agree on everything the tracker holds and has forwarded |
| SseTracker.GuardRejectsSplitDelimiter | skills/twinfinity-sprint-orchestrator/scripts/attempt_responses_proxy.py:2866-2867 | for every decoder and every limit of at least 1024: a created event of exactly the permitted size passes in one chunk and is rejected when a chunk ends inside its delimiter |
| SseTracker.GuardRejectsJoinedCrlfEvents | skills/twinfinity-sprint-orchestrator/scripts/attempt_responses_proxy.py:2866-2867 | for every decoder and every limit of at least 1024: two CRLF events that each fit pass one by one and are rejected in one chunk when together they exceed the limit, because the guard looks for LF-LF only |
| SseProofs.StreamIsConserved | skills/twinfinity-sprint-orchestrator/scripts/attempt_responses_proxy.py:2862-2884 | on every accepted run forwarded events, withheld bytes and leftover buffer concatenate to exactly the bytes fed |
| SseProofs.FinishAcceptsExactlyTheGrammar | skills/twinfinity-sprint-orchestrator/scripts/attempt_responses_proxy.py:2792-2902 | one pass over a stream finishes with an id and token counts if and only if the stream is one created event, any non-terminal events, one completed event with those counts and at most one [DONE], with one response id and only whitespace left |
| SseProofs.FedStreamAcceptsExactlyTheGrammar | skills/twinfinity-sprint-orchestrator/scripts/attempt_responses_proxy.py:2862-2902 | fed in any chunks and then finished: a result is returned if and only if the concatenation is of that grammar and the size guard is silent on that split |
| SseEvents.NonDataIff | skills/twinfinity-sprint-orchestrator/scripts/attempt_responses_proxy.py:2796-2798 | for every event written as lines with LF or CRLF ends: it is not data if and only if some line does not start with `data:` |
| SseEvents.DataEventMeans | skills/twinfinity-sprint-orchestrator/scripts/attempt_responses_proxy.py:2796-2804 | for every decoder, data lines with any spaces after `data:` and any mix of line ends: the payloads joined by LF are the DONE mark if they read `[DONE]`, and otherwise exactly what the decoder sees |
| SseEvents.EveryEventHasLines | skills/twinfinity-sprint-orchestrator/scripts/attempt_responses_proxy.py:2796-2796 | every byte string is such lines with such ends, so the two statements cover every event |
| SseEvents.EveryDataLineHasAPayload | skills/twinfinity-sprint-orchestrator/scripts/attempt_responses_proxy.py:2799-2799 | every line that starts with `data:` is spaces and a payload |
| SseEvents.LineEndsDoNotMatter | skills/twinfinity-sprint-orchestrator/scripts/attempt_responses_proxy.py:2796-2796 | how lines end does not change what the event means |
| SseEvents.SpacesDoNotMatter | skills/twinfinity-sprint-orchestrator/scripts/attempt_responses_proxy.py:2799-2801 | spaces after `data:` do not change the item, and it is the DONE mark if and only if the rest is spaces and `[DONE]` |
| SseEvents.WrittenEventsAreFound | skills/twinfinity-sprint-orchestrator/scripts/attempt_responses_proxy.py:2868-2881 | events written one after another with either delimiter are split back into exactly those events and the tail |
| SseEvents.FailureIsReportedIff | skills/twinfinity-sprint-orchestrator/scripts/attempt_responses_proxy.py:2832-2835 | a terminal failure is raised if and only if, after one created event and passing events of the same response, an event within the size limit says `response.failed` or `response.incomplete` |
| SseEvents.ChunkFailsIff | skills/twinfinity-sprint-orchestrator/scripts/attempt_responses_proxy.py:2862-2884 | the same for one more chunk after accepted ones: exactly when the size guard lets it through and its bytes bring that event |
| SseEvents.TruncatedIff | skills/twinfinity-sprint-orchestrator/scripts/attempt_responses_proxy.py:2886-2888 | the end is truncated if and only if something other than ASCII whitespace is left |
| SseTracker.SSECompletionTracker.ReadItem | skills/twinfinity-sprint-orchestrator/scripts/attempt_responses_proxy.py:2795-2801 | the loop over the lines of one event finds the item of that event |
| SseTracker.SSECompletionTracker.ConsumeEvent | skills/twinfinity-sprint-orchestrator/scripts/attempt_responses_proxy.py:2792-2860 | interprets one event as the value model does, including what stays written when it is rejected; what the bytes of the event mean is SseEvents |
| SseTracker.SSECompletionTracker.Feed | skills/twinfinity-sprint-orchestrator/scripts/attempt_responses_proxy.py:2862-2884 | feeds one chunk: new fields, forwarded events and rejection are those of the value model |
| SseTracker.SSECompletionTracker.FindBoundary | skills/twinfinity-sprint-orchestrator/scripts/attempt_responses_proxy.py:2868-2876 | finds the earliest delimiter of either kind |
| SseTracker.SSECompletionTracker.Finish | skills/twinfinity-sprint-orchestrator/scripts/attempt_responses_proxy.py:2886-2902 | accepts or refuses the end of the stream as specified |
| Framing.ValidFrameIff | skills/twinfinity-sprint-orchestrator/scripts/attempt_responses_proxy.py:203-228 | a frame is valid if and only if its stream fits 32 bits, its payload 64 KiB, and stream 0 is used by HELLO alone |
| Framing.WireLayout | skills/twinfinity-sprint-orchestrator/scripts/attempt_responses_proxy.py:1412-1426 | every byte of an encoded frame: magic, version, kind number, stream and length in network order, payload |
| Framing.FrameRoundTrip | skills/twinfinity-sprint-orchestrator/scripts/attempt_responses_proxy.py:1412-1448 | decoding an encoded frame gives it back and leaves exactly what followed it |
| Framing.DecodedIsEncoded | skills/twinfinity-sprint-orchestrator/scripts/attempt_responses_proxy.py:1428-1448 | only the encoding of a valid frame decodes |
| Framing.FramesRoundTrip | skills/twinfinity-sprint-orchestrator/scripts/attempt_responses_proxy.py:1375-1448 | every valid frame sequence decodes to itself with nothing left over |
| Framing.ChunksReassemble | skills/twinfinity-sprint-orchestrator/scripts/attempt_responses_proxy.py:3314-3329 | cutting any payload at 64 KiB and concatenating gives it back; every piece but the last is full, and none is empty |
| Framing.ExchangeRebuildsRequest | skills/twinfinity-sprint-orchestrator/scripts/attempt_responses_proxy.py:3353-3367 | the server rebuilds exactly the relay's request when it is within the limit, and refuses it by the limit otherwise |
| Framing.ExchangeRebuildsResponse | skills/twinfinity-sprint-orchestrator/scripts/attempt_responses_proxy.py:3453-3475 | the relay receives exactly the concatenation of the emitted values and the terminal payload, within the limit |
| FramedChannel.Socket.SendAll | skills/twinfinity-sprint-orchestrator/scripts/attempt_responses_proxy.py:1375-1388 | every pattern of partial sends delivers the value, or a proper prefix of it with an error |
| FramedChannel.Socket.ReceiveExact | skills/twinfinity-sprint-orchestrator/scripts/attempt_responses_proxy.py:1390-1410 | every pattern of partial receives yields exactly the next bytes |
| FramedChannel.Socket.ReceiveFrame | skills/twinfinity-sprint-orchestrator/scripts/attempt_responses_proxy.py:1428-1448 | a received frame is the first frame of the inbound bytes; without early close faults are those of decoding |
| FramedChannel.Socket.SendChunked | skills/twinfinity-sprint-orchestrator/scripts/attempt_responses_proxy.py:3314-3329 | sends the payload as the frames of its 64 KiB chunks |
| FramedChannel.Socket.RelaySend | skills/twinfinity-sprint-orchestrator/scripts/attempt_responses_proxy.py:3432-3451 | writes exactly the frames of one request |
| FramedChannel.Socket.ServeReceive | skills/twinfinity-sprint-orchestrator/scripts/attempt_responses_proxy.py:3341-3367 | accepts exactly what the byte stream specifies |
| FramedChannel.Socket.RelayReceive | skills/twinfinity-sprint-orchestrator/scripts/attempt_responses_proxy.py:3452-3475 | gathers exactly the response the byte stream specifies |
| FramedChannel.CarryRequest | skills/twinfinity-sprint-orchestrator/scripts/attempt_responses_proxy.py:3332-3367 | relay and server joined: under every pattern of partial I/O the request crosses unchanged or is refused by the limit |
| ProxyHandler.AttemptBoundResponsesProxy.HandleRawRequest | skills/twinfinity-sprint-orchestrator/scripts/attempt_responses_proxy.py:3041-3301 | for every behaviour of transport, clock and child: a refused begin changes nothing; a begun request ends in exactly the state, and the proxy in HOLD or not, that the outside alone determines (ProxyOutcome): COMPLETE when admission, opening, stream, writes and usage all allow it; SAFE_NOT_SENT on bound zero-byte evidence without a stream; FAILED when it was never started, when the outside gave a verdict (policy, rejection, a status 100 to 599 other than 200, a terminal failure event) or the usage overran; AMBIGUOUS with HOLD and no later admission in every other case; one exception caused by the first thing that went wrong explains the recorded error and the status; upstream opens at most once, on a durable UPSTREAM_STARTED row with its reservation; withheld bytes go out only from COMPLETE; the child sees a prefix of upstream's bytes; every ledger call and send is logged, and the proxy is held only over a settled request |
| ProxyHandler.AttemptBoundResponsesProxy.Write | skills/twinfinity-sprint-orchestrator/scripts/attempt_responses_proxy.py:3018-3023 | one bounded write, recorded with the state the ledger holds at that moment |
| ProxyHandler.AttemptBoundResponsesProxy.Settle | skills/twinfinity-sprint-orchestrator/scripts/attempt_responses_proxy.py:3218-3301 | where each exception leaves row, recorded error, proxy hold, HTTP status and the error the child is told, and that only write faults escape |
| ProxyHandler.AttemptBoundResponsesProxy.Pump | skills/twinfinity-sprint-orchestrator/scripts/attempt_responses_proxy.py:3145-3182 | the receive loop ends without exception exactly when the stream ends well, within limits, and every event could be written; otherwise what it raises is a verdict exactly when the first bad receive raised one or brought a failed or incomplete event, and it is the exception that receive causes |
| ProxyOutcome.FirstFailure | skills/twinfinity-sprint-orchestrator/scripts/attempt_responses_proxy.py:3145-3182 | where the accepted prefix of a stream ends decides its verdict: no later receive can change it |
| ProxyHandler.AttemptBoundResponsesProxy.Rescue | skills/twinfinity-sprint-orchestrator/scripts/attempt_responses_proxy.py:3218-3301 | an exception settles the request in the state and hold that the outside determined |
| ProxyHandler.AttemptBoundResponsesProxy.Conclude | skills/twinfinity-sprint-orchestrator/scripts/attempt_responses_proxy.py:3184-3217 | COMPLETE exactly when the finished usage fits the reservation |
| ProxyHandler.AttemptBoundResponsesProxy.Account | skills/twinfinity-sprint-orchestrator/scripts/attempt_responses_proxy.py:3186-3217 | debit, then COMPLETE, and only then the withheld bytes; an overrun ends FAILED and held with nothing released |
| ProxyHandler.AttemptBoundResponsesProxy.OpenOnce | skills/twinfinity-sprint-orchestrator/scripts/attempt_responses_proxy.py:3081-3141 | one open, evidence recorded before use; it goes on exactly for a bound 200 event stream, ends SAFE_NOT_SENT exactly on bound zero-byte evidence without a stream, and raises a verdict exactly when the opening gave one |
| ProxyHandlerSpec.PrepareDecides | skills/twinfinity-sprint-orchestrator/scripts/attempt_responses_proxy.py:2048-2137 | for a valid id, only the request's own reservation can refuse a stream's usage |
| SubmissionTheorems.SubmitAtMostOnce | skills/twinfinity-sprint-orchestrator/scripts/coordination_supervisor.py:1021-1156 | over every run, with a crash between any two steps and any outside writes, the manager is called at most once per intent |
| SubmissionTheorems.SingleFlight | skills/twinfinity-sprint-orchestrator/scripts/coordination_supervisor.py:3495-3523 | at every manager call, in every run, its intent is durable and undisposed, and no other intent for the same target or lineage is unresolved |
| SubmissionProofs.LineageFixesWatch | skills/twinfinity-sprint-orchestrator/scripts/executor_registry.py:2140-2153 | a lineage has one terminal watch, because its repository, issue and generation are unique in the watch table |
| SubmissionTheorems.OneDispositionEach | skills/twinfinity-sprint-orchestrator/scripts/coordination_supervisor.py:584-671 | each intent has at most one first disposition and at most one closing one, which match; unresolved means exactly not closed |
| SubmissionTheorems.OpenIntentBlocks | skills/twinfinity-sprint-orchestrator/scripts/coordination_supervisor.py:1892-1940 | an intent that a crash left open is closed before any later call for its target or lineage |
| SubmissionTheorems.LogOnlyGrows | skills/twinfinity-sprint-orchestrator/scripts/coordination_supervisor.py:942-1191 | runs only append to the event log and to the calls made |
| SubmissionTheorems.MarkersAreCompared | skills/twinfinity-sprint-orchestrator/scripts/coordination_supervisor.py:1158-1191 | a transaction writes at most its own target row and only over the marker it expects |
| SubmissionAnswers.DispositionIsTheAnswer | skills/twinfinity-sprint-orchestrator/scripts/coordination_supervisor.py:1098-1156 | over every run, of every called intent: ABANDONED only if the manager answered that it submitted nothing, bound only to the receipt the manager gave, and left open or AMBIGUOUS after an unclear answer |
| SubmissionAnswers.ReceiptsAreGiven | skills/twinfinity-sprint-orchestrator/scripts/coordination_supervisor.py:1120-1156 | every receipt in the log was the manager's answer to the call for its intent |
| SubmissionAnswers.UnclearAnswerBlocks | skills/twinfinity-sprint-orchestrator/scripts/coordination_supervisor.py:1111-1118 | after an unclear answer no later call is made for its target or lineage before the ambiguity was recovered or resolved by evidence |
| SubmissionChanges.RecordIntentIff | skills/twinfinity-sprint-orchestrator/scripts/coordination_supervisor.py:942-1019 | an intent commits if and only if the row is its own clean reservation under the fence and planner it names, with the SUBMITTING marker |
| SubmissionChanges.RevalidateIff | skills/twinfinity-sprint-orchestrator/scripts/coordination_supervisor.py:1021-1091 | the call is cleared if and only if the intent is in flight and fence, planner and message contract stand; it is abandoned if and only if one of them moved |
| SubmissionChanges.BindIff | skills/twinfinity-sprint-orchestrator/scripts/coordination_supervisor.py:1098-1156 | binding an answer for an intent in flight appends exactly the entry of that answer; a moved row, or a watch that progressed while nothing was submitted, leaves the log as it was |
| SubmissionChanges.AbandonedIff | skills/twinfinity-sprint-orchestrator/scripts/coordination_supervisor.py:1158-1367 | when an abandonment commits, and the retry row it leaves: attempts, hold at the third, progress, and the next wake |
| SubmissionChanges.AmbiguousIff | skills/twinfinity-sprint-orchestrator/scripts/coordination_supervisor.py:1158-1383 | an ambiguity commits if and only if the intent is in flight |
| SubmissionChanges.SubmissionIff | skills/twinfinity-sprint-orchestrator/scripts/coordination_supervisor.py:1507-1596 | a receipt commits if and only if the intent is in flight |
| SubmissionChanges.FinalizeIff | skills/twinfinity-sprint-orchestrator/scripts/coordination_supervisor.py:1707-1861 | a pending child is accepted only when it acknowledged and with its process, rejected when refused or forced, expired when seen or due; nothing else closes it |
| SubmissionChanges.ResolveIff | skills/twinfinity-sprint-orchestrator/scripts/coordination_supervisor.py:743-896 | an ambiguity is closed if and only if it is still open and the target is evidently finished or an authenticated child is recovered over its own row |
| SubmissionChanges.AvoidsExactlyTheOpen | skills/twinfinity-sprint-orchestrator/scripts/coordination_supervisor.py:642-671 | the targets and lineages a pass avoids are exactly those of the intents nothing has closed |
| SubmissionStore.CoordinationStore.RecordIntent | skills/twinfinity-sprint-orchestrator/scripts/coordination_supervisor.py:942-1019 | commits the fenced intent and the SUBMITTING marker together; new state and reply are those of the value model, and the log stays one in which every event was allowed when appended |
| SubmissionStore.CoordinationStore.Revalidate | skills/twinfinity-sprint-orchestrator/scripts/coordination_supervisor.py:1021-1091 | clears a call, or abandons the intent when the fence moved; new state and reply are those of the value model, and the log stays one in which every event was allowed when appended |
| SubmissionStore.CoordinationStore.RecordAbandoned | skills/twinfinity-sprint-orchestrator/scripts/coordination_supervisor.py:1158-1367 | records a manager that surely started nothing, with the retry row; new state and reply are those of the value model, and the log stays one in which every event was allowed when appended |
| SubmissionStore.CoordinationStore.RecordAmbiguous | skills/twinfinity-sprint-orchestrator/scripts/coordination_supervisor.py:1158-1383 | fences an unclear outcome; new state and reply are those of the value model, and the log stays one in which every event was allowed when appended |
| SubmissionStore.CoordinationStore.RecordSubmission | skills/twinfinity-sprint-orchestrator/scripts/coordination_supervisor.py:1507-1596 | binds one manager receipt; new state and reply are those of the value model, and the log stays one in which every event was allowed when appended |
| SubmissionStore.CoordinationStore.Finalize | skills/twinfinity-sprint-orchestrator/scripts/coordination_supervisor.py:1707-1861 | attaches, rejects or expires once; new state and reply are those of the value model, and the log stays one in which every event was allowed when appended |
| SubmissionStore.CoordinationStore.ResolveAmbiguous | skills/twinfinity-sprint-orchestrator/scripts/coordination_supervisor.py:743-896 | closes an ambiguity by evidence or recovery, once; new state and reply are those of the value model, and the log stays one in which every event was allowed when appended |
| SubmissionStore.CoordinationStore.UnresolvedIntents | skills/twinfinity-sprint-orchestrator/scripts/coordination_supervisor.py:642-671 | computes exactly the targets and lineages that must not be submitted again; new state and reply are those of the value model |
| SubmissionStore.Supervisor.Launch | skills/twinfinity-sprint-orchestrator/scripts/coordination_supervisor.py:1021-1156 | from a recorded intent to its bound outcome: the manager sees at most one call, for that intent, and the protocol invariant is kept |
| SubmissionStore.Supervisor.CallManager | skills/twinfinity-sprint-orchestrator/scripts/coordination_supervisor.py:1098-1103 | the manager is called only for a cleared intent, and its own record grows by exactly that intent |
| SubmissionStore.Supervisor.SubmittedOnce | skills/twinfinity-sprint-orchestrator/scripts/coordination_supervisor.py:1021-1156 | no intent is twice in the manager's record |
| SubmissionStore.Supervisor.BoundAsAnswered | skills/twinfinity-sprint-orchestrator/scripts/coordination_supervisor.py:1098-1156 | in the manager's own record: a submission is abandoned or bound in the log only as the manager answered that call |
| SubmissionStore.Supervisor.Schedule | skills/twinfinity-sprint-orchestrator/scripts/coordination_supervisor.py:3555-3662 | one row up to its reservation is a scheduling step of the protocol |
| SubmissionStore.Supervisor.Snapshot | skills/twinfinity-sprint-orchestrator/scripts/coordination_supervisor.py:3495-3523 | a pass is seeded with exactly the unresolved targets and lineages |
| SubmissionStore.Supervisor.Bind | skills/twinfinity-sprint-orchestrator/scripts/coordination_supervisor.py:1103-1156 | what the manager said is bound, or the intent is fenced when that fails: the step keeps the protocol and that the log follows the answers |
| PassRefinement.MessageLoopRefines | skills/twinfinity-sprint-orchestrator/scripts/coordination_supervisor.py:3555-3652 | each row of the budgeted message loop is at most one scheduling step of the protocol, and a launch is its reservation |
| PassRefinement.WatchLoopRefines | skills/twinfinity-sprint-orchestrator/scripts/coordination_supervisor.py:3764-3817 | the same for the watch loop |
| PassRefinement.AbandonIsABudgetStep | skills/twinfinity-sprint-orchestrator/scripts/coordination_supervisor.py:1200-1247 | abandoning a submission restarts a wake's retry budget exactly when the target progressed |
| RetryBudget.WakeRetryBounded | skills/twinfinity-sprint-orchestrator/scripts/coordination_supervisor.py:3121-3199 | over every run of reservations and other writers, at most three wake reservations in a row under an unchanged progress digest, each at least min(60*2^(attempts-1), 900) seconds after the last |
| RetryBudget.WatchRetryBounded | skills/twinfinity-sprint-orchestrator/scripts/coordination_supervisor.py:2551-2598 | the same bound of three for terminal watches |
| RetryBudget.BackoffNeverCapped | skills/twinfinity-sprint-orchestrator/scripts/coordination_supervisor.py:158-159 | budgets end before the fifteen-minute cap can apply: no backoff exceeds 240 seconds |
| LaunchFairness.WakeLaunchIff | skills/twinfinity-sprint-orchestrator/scripts/coordination_supervisor.py:3121-3199 | after any history a wake is launched if and only if it is new, or in flight for this payload and progressed, or below three attempts and cooled down for 60, 120 or 240 seconds; exhausted and cooled down it is held |
| LaunchFairness.WatchLaunchIff | skills/twinfinity-sprint-orchestrator/scripts/coordination_supervisor.py:2551-2598 | a watch is launched if and only if active, bound, due, and progressed or below three attempts; it then sleeps 300 seconds, and is retired exactly when unbound or exhausted |
| LaunchFairness.CoolingIff | skills/twinfinity-sprint-orchestrator/scripts/coordination_supervisor.py:2986-3003 | the order calls a row cooling exactly while reserving its wake would change nothing |
| LaunchFairness.NoMessageStarves | skills/twinfinity-sprint-orchestrator/scripts/coordination_supervisor.py:3555-3652 | every launchable message row is launched, or the message share is used up, or a launched row has its planner or lineage or is the one retry |
| LaunchFairness.NoWatchStarves | skills/twinfinity-sprint-orchestrator/scripts/coordination_supervisor.py:3764-3817 | every launchable watch is launched, or the allotment is used up, or its lineage was taken by a launched message or a started watch |
| RetryBudget.RetryTables.ReserveWakeRow | skills/twinfinity-sprint-orchestrator/scripts/coordination_supervisor.py:3121-3199 | a wake reservation is a step of the budget, and after it no row has had more than three reservations in a row without progress, nor two closer than the backoff |
| RetryBudget.RetryTables.ReserveTerminalWatch | skills/twinfinity-sprint-orchestrator/scripts/coordination_supervisor.py:2551-2598 | a watch reservation is a step of the budget, and after it no row has had more than three reservations in a row without progress |
| LaunchPass.OrderMessageRows | skills/twinfinity-sprint-orchestrator/scripts/coordination_supervisor.py:2964-3014 | the ordering is a permutation into due, fresh and cooling blocks, each sorted by id; the id sets are those of the blocks |
| LaunchPass.PassWithinBudget | skills/twinfinity-sprint-orchestrator/scripts/coordination_supervisor.py:3525-3650 | every pass under a valid policy stays within total, message and watch limits, launches at most one retry, and nothing fenced or twice the same; a due watch leaves the watch loop its whole allotment |
| LaunchPass.DueWatchLaunches | skills/twinfinity-sprint-orchestrator/scripts/coordination_supervisor.py:3763-3817 | a launchable due watch is never starved: the pass launches a watch |
| LaunchPass.RunPass | skills/twinfinity-sprint-orchestrator/scripts/coordination_supervisor.py:3547-3817 | the two loops with their counters compute the specified pass |
| AckWait.Await | skills/twinfinity-sprint-orchestrator/scripts/coordination_supervisor.py:1598-1687 | the first observation with news ends the wait with it, under the ceiling of its own sample; at most ceil(T/p)+2 observations for every clock and no ceiling past the deadline; at most ceil(T/p)+1 and no final error for clocks that advance as slept; a frozen clock reaches the final error after exactly ceil(T/p)+2 |
| ApprovalTheorems.LostAuthorityIsNeverRegained | skills/twinfinity-sprint-orchestrator/scripts/approval_guard.py:583-682 | once a decision is revoked, its proposal superseded or its version quarantined, no query on any later state is granted by it |
| ApprovalTheorems.GrantWasAnswered | skills/twinfinity-sprint-orchestrator/scripts/approval_guard.py:112-213 | every grant rests on exactly one user answer, for a choice that was offered in the frozen batch and whose outcome is APPROVE |
| ApprovalGrants.GrantedIff | skills/twinfinity-sprint-orchestrator/scripts/approval_guard.py:437-682 | for every ledger and query the guard grants a row if and only if the actor may ask and is concerned, the row is the only one the query names for its role, and: its scope is the query's, its delivery is CLAIMED or ACKNOWLEDGED, decision, delivery and effectivity agree and are not revoked, the publication is complete under the effectivity receipt, the live source is the effective one, the decision is an APPROVE answered in its frozen batch, and a required role is the planner's and the actor's |
| ApprovalGrants.StandingIff | skills/twinfinity-sprint-orchestrator/scripts/approval_guard.py:437-556 | nothing is required of a query if and only if it may be asked, nobody of the actor's role is interested, and the caller does not insist |
| ApprovalExample.GrantIsReachable | skills/twinfinity-sprint-orchestrator/scripts/approval_guard.py:583-682 | a run of six operations from an empty ledger after which the guard grants the decision to its recipient |
| ApprovalTheorems.OpenDeliveriesAreCurrent | skills/twinfinity-sprint-orchestrator/scripts/approval_ledger.py:1935-1981 | only the current, unrevoked proposal of a key has WAITING_PUBLICATION or CLAIMED deliveries |
| ApprovalTheorems.ClosedStaysClosed | skills/twinfinity-sprint-orchestrator/scripts/approval_ledger.py:2867-2872 | HOLD and ACKNOWLEDGED are absorbing over every run |
| ApprovalProofs.HoldDeliveryKeeps | skills/twinfinity-sprint-orchestrator/scripts/kanban_readiness.py:4224-4232 | the hold that readiness consumption puts on a delivery keeps the invariant and moves only open deliveries |
| ApprovalTheorems.SupersedesChain | skills/twinfinity-sprint-orchestrator/scripts/approval_ledger.py:1935-1964 | the supersedes chain is acyclic, its length is `proposal_generation`, and it holds exactly the proposals of its key that are not newer |
| ApprovalTheorems.WriterMeetsGuard | skills/twinfinity-sprint-orchestrator/scripts/approval_ledger.py:2552-2736 | every decision and delivery that the ledger wrote passes the guard's frozen-batch check |
| ApprovalTheorems.UserEventsNeverMix | skills/twinfinity-sprint-orchestrator/scripts/approval_ledger.py:2637-2652 | decisions that share a user event share its batch and answer map and follow it; no revocation shares an event with a decision |
| ApprovalProofs.StepKeeps | skills/twinfinity-sprint-orchestrator/scripts/approval_ledger.py:1747-3656 | every ledger transaction keeps the invariant and leaves immutable rows as they were |
| ApprovalGrants.PairsOffIff | skills/twinfinity-sprint-orchestrator/scripts/approval_ledger.py:2281-2300 | matching recipients first come first served succeeds if and only if everyone has a role and the roles agree with multiplicity |
| ApprovalChanges.SameProposalIff | skills/twinfinity-sprint-orchestrator/scripts/approval_ledger.py:761-786 | two packets are one proposal if and only if everything but requester, recipient, workstream and ranks agrees, the evidence under version 2 only |
| ApprovalChanges.SubmitIff | skills/twinfinity-sprint-orchestrator/scripts/approval_ledger.py:1823-2034 | a submission commits if and only if it is allowed, bound, new and on its live source, and joins the current proposal (whose recipients freeze with the decision) or starts one never seen over nothing in flight |
| ApprovalChanges.InterestsSummarize | skills/twinfinity-sprint-orchestrator/scripts/approval_ledger.py:1747-1820 | in every reachable ledger an interest is the summary of its recipient's submissions: the most pressing priority and urgency, and their number |
| ApprovalCommits.BatchIff | skills/twinfinity-sprint-orchestrator/scripts/approval_ledger.py:2356-2427 | a batch is frozen if and only if it presents each due proposal of its repository once and nothing else, with source, scope, choices and all current routes |
| ApprovalCommits.ValidAnswersIff | skills/twinfinity-sprint-orchestrator/scripts/approval_ledger.py:2313-2353 | answers to a frozen batch are valid if and only if they are some, for it, and can be placed strictly forward on its entries, each on its proposal with an offered choice |
| ApprovalCommits.DeliveryForIff | skills/twinfinity-sprint-orchestrator/scripts/approval_ledger.py:3159-3188 | an identity stands for its own route's delivery, or else the only one of its role, and for no other |
| ApprovalCommits.DecideIff | skills/twinfinity-sprint-orchestrator/scripts/approval_ledger.py:2488-2753 | a decision commits if and only if a planner answers, once, a current, unexpired proposal on its live source as frozen for the same roles; it records exactly the request, awaits publication, and reaches exactly the frozen recipients, of which only a readiness recipient waits for a deferral |
| ApprovalCommits.RevokeIff | skills/twinfinity-sprint-orchestrator/scripts/approval_ledger.py:2756-2886 | a revocation commits if and only if a planner revokes the recorded decision of a current proposal for the first time; it holds every open delivery and nothing else |
| ApprovalCommits.ClaimIff | skills/twinfinity-sprint-orchestrator/scripts/approval_ledger.py:3427-3607 | the standalone claim commits if and only if decision, publication and stable source stand and nothing else is bound; from WAITING it claims and binds effectivity |
| ApprovalCommits.DriftHolds | skills/twinfinity-sprint-orchestrator/scripts/approval_ledger.py:3530-3546 | a drifted source holds every open delivery of the proposal |
| ApprovalCommits.ClaimInIff | skills/twinfinity-sprint-orchestrator/scripts/approval_ledger.py:3191-3424 | the claim inside a transaction commits if and only if in addition the frozen batch and the live source stand |
| ApprovalCommits.AcknowledgeIff | skills/twinfinity-sprint-orchestrator/scripts/approval_ledger.py:3610-3656 | only a CLAIMED delivery of that very decision is acknowledged |
| ApprovalCommits.ClaimedMeansEffective | skills/twinfinity-sprint-orchestrator/scripts/approval_ledger.py:3191-3607 | in every reachable ledger a CLAIMED or ACKNOWLEDGED delivery has a complete publication under a receipt, and effectivity bound to that decision, that receipt and the proposal's own stable source |
| ApprovalLedger.ValidateAnswers | skills/twinfinity-sprint-orchestrator/scripts/approval_ledger.py:2313-2353 | accepts exactly the answer maps that name offered choices, each proposal once, in batch order |
| ApprovalLedger.MatchRecipients | skills/twinfinity-sprint-orchestrator/scripts/approval_ledger.py:2281-2300 | accepts exactly when current and frozen recipients pair off by role |
| ApprovalLedger.Ledger.DeliveryRecipient | skills/twinfinity-sprint-orchestrator/scripts/approval_ledger.py:3159-3188 | resolves an identity to its own delivery or the only one of its role, and to none otherwise |
| ApprovalLedger.Ledger.SubmitProposal | skills/twinfinity-sprint-orchestrator/scripts/approval_ledger.py:1823-2034 | clusters, suppresses, refuses or supersedes; new tables and reply are those of the value model, and the invariant is kept |
| ApprovalLedger.Ledger.RecordDecision | skills/twinfinity-sprint-orchestrator/scripts/approval_ledger.py:2488-2753 | records one decision per proposal with its event, outbox entry and deliveries; new tables and reply are those of the value model, and the invariant is kept |
| ApprovalLedger.Ledger.RevokeDecision | skills/twinfinity-sprint-orchestrator/scripts/approval_ledger.py:2756-2886 | revokes once and holds every open delivery; new tables and reply are those of the value model, and the invariant is kept |
| ApprovalLedger.Ledger.ClaimInTransaction | skills/twinfinity-sprint-orchestrator/scripts/approval_ledger.py:3191-3424 | re-checks the frozen batch and binds effectivity once; new tables and reply are those of the value model, and the invariant is kept |
| ApprovalLedger.Ledger.ClaimDecision | skills/twinfinity-sprint-orchestrator/scripts/approval_ledger.py:3427-3607 | refreshes the source, then claims or holds on drift; new tables and reply are those of the value model, and the invariant is kept |
| ApprovalLedger.Ledger.AcknowledgeDecision | skills/twinfinity-sprint-orchestrator/scripts/approval_ledger.py:3610-3656 | acknowledges a claimed delivery; new tables and reply are those of the value model, and the invariant is kept |
| ApprovalLedger.Ledger.ActivateContract | skills/twinfinity-sprint-orchestrator/scripts/approval_ledger.py:1397-1467 | moves the contract pointer once; new tables and reply are those of the value model, and the invariant is kept |
| RestorePlacement.FileSystem.PlaceRestore | skills/twinfinity-sprint-orchestrator/scripts/environment_restore_control.py:625-687 | for every pattern of calls that raise before or after their effect: no rename overwrites a file, every file sits at one path, success puts the staged database in place, and a plain failure leaves everything where it was; a failure is plain if and only if nothing had moved or every call of the rollback returned and its result reads back |
| RestorePlacement.FileSystem.RollbackPlacement | skills/twinfinity-sprint-orchestrator/scripts/environment_restore_control.py:558-622 | undoes from what the filesystem shows; it reports no error if and only if every call returned normally and the result reads back, and then everything is back |
| RestorePlacement.UnsafeInstantIff | skills/twinfinity-sprint-orchestrator/scripts/environment_restore_control.py:571-598 | some instant shows an old sidecar beside the restored database, or the old database without a sidecar, if and only if the rollback cannot free the canonical path while a sidecar returns, or returns the database but not a moved sidecar |
| RestorePlacement.PlacementIsSafe | skills/twinfinity-sprint-orchestrator/scripts/environment_restore_control.py:650-687 | unless the rollback is so exposed, no instant of a placement is unsafe |
| RestorePlacement.RestoredIff | skills/twinfinity-sprint-orchestrator/scripts/environment_restore_control.py:571-598 | a failed placement ends where it started exactly when the rollback's own renames take effect |
| RestorePlacement.SuccessPlaces | skills/twinfinity-sprint-orchestrator/scripts/environment_restore_control.py:653-674 | a success sets every original aside and places the staged database |
| RestorePlacement.OnePathEach | skills/twinfinity-sprint-orchestrator/scripts/environment_restore_control.py:646-656 | in every layout each original and the staged file is at exactly one path |
| RestorePlacement.StuckStageExample | skills/twinfinity-sprint-orchestrator/scripts/environment_restore_control.py:571-584 | verification fails, the staged database cannot be moved back, and the old write-ahead log returns beside it |
| RestorePlacement.MissingSidecarExample | skills/twinfinity-sprint-orchestrator/scripts/environment_restore_control.py:589-600 | verification fails, the write-ahead log cannot be returned, and the database returns without it |
| IssueBodyCas.OnePatchEver | skills/twinfinity-sprint-orchestrator/scripts/issue_body_cas.py:172-420 | over every interleaving of clients and outside edits the atomic write is called at most once per repository, issue and desired body |
| IssueBodyCas.PreimageInjective | skills/twinfinity-sprint-orchestrator/scripts/issue_body_cas.py:251-258 | the key preimage determines repository, issue and digest, even for a repository name that contains the separator |
| IssueBodyCas.SameKey | skills/twinfinity-sprint-orchestrator/scripts/issue_body_cas.py:251-258 | two attempts share a key if and only if they agree on repository, issue and desired body |
| IssueBodyCas.SuccessWasRead | skills/twinfinity-sprint-orchestrator/scripts/issue_body_cas.py:290-420 | APPLIED or ALREADY_APPLIED implies that the client's last canonical read was the desired bytes; at most one patch and two reads |
| IssueBodyCas.AfterReadIff | skills/twinfinity-sprint-orchestrator/scripts/issue_body_cas.py:296-335 | a first read lets the attempt go on if and only if it shows the expected body and timestamp, to be changed; the desired body is already applied and anything else a conflict |
| IssueBodyCas.AfterReadbackIff | skills/twinfinity-sprint-orchestrator/scripts/issue_body_cas.py:361-420 | after a write the outcome is APPLIED if and only if the canonical bytes are the desired ones, whatever the write answered |
| IssueBodyCas.InMemoryAttemptLedger.ReservePatch | skills/twinfinity-sprint-orchestrator/scripts/issue_body_cas.py:178-183 | reserves a key once |
| IssueBodyCas.SQLiteAttemptLedger.ReservePatch | skills/twinfinity-sprint-orchestrator/scripts/issue_body_cas.py:215-244 | a reservation is granted only to the call that inserts the key, whether the database works or raises before or after its effect |
| IssueBodyCas.Apply | skills/twinfinity-sprint-orchestrator/scripts/issue_body_cas.py:261-420 | the transport sees a write if and only if it is atomic, the read matches, the ledger works and the key is new; each outcome, count, suppression and observation is given by what transport and ledger showed, in both directions; a success is what its last read showed |
| IssueBodyCas.WriteAndReadBack | skills/twinfinity-sprint-orchestrator/scripts/issue_body_cas.py:361-420 | one write and one read, which decides the outcome |

## Left out

- SQLite mechanics, schema creation and migration, file locks, timestamps and version columns that no branch reads: tables are maps and transactions are atomic; a single supervisor instance and a single handler per proxy are assumed, as the code's own locks provide.
- SHA-256, canonical JSON text, regular expressions and timestamp parsing: digests are their preimages and time is a number; only the `resp_` id pattern and the attempt-key preimage are modelled as text.
- JSON decoding inside the stream parser is a parameter: any function from event data to its decoded shape.
- HTTP header parsing and the request-field policy of the proxy: the handler takes their outcome, including any exception, from the script.
- Closing and killing the isolated upstream worker after a request, and exceptions outside `Exception` such as an interrupt.
- The lineage columns of a target are fixed for the life of the target; a fence that sees another lineage is refused before an intent is written.
- The unseen store code behind an exhausted message wake is modelled as the hold it documents.
- Planner-repository exclusion is modelled in the launch pass, not in the submission machine.
- Wake and watch columns that neither retry nor submission reads; writers of watch rows outside the supervisor appear as budget resets and postponements.
- Presentation order of a review batch, the normal form of a readiness revisit time, notices, comment text and planner messages of the approval ledger.
- ApprovalSpec.CreateBatch: takes the frozen batch as an argument and checks that it lists exactly the reviewable proposals with their current routes, because the sort keys come from code outside this model.
- AckWait.Await: arithmetic is over real numbers, so floating-point rounding is not modelled.
- Liveness of the supervisor: drifted targets stay fenced on purpose, so only safety is stated.
- `_record_launch_failure` and `_record_terminal_watch_launch_failure`, which no pass calls.
- The remaining control scripts, validators and command-line entry points.
