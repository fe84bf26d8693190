# TProxy gateway: verified models of its stateful core

TProxy is a Go gateway between AI clients and providers. This project models the parts of it
that keep state across requests or transform text incrementally, and proves what they keep over
every run and every input. `dafny verify dfyconfig.toml` checks all of it.

The modules follow the program's components.

| component | modules |
|---|---|
| OAuth refresh, shared by concurrent callers | `RefreshFlight` (every interleaving), `RefreshAnswers` (what callers are answered with and what is stored) |
| OAuth login flows | `LoginSession` (every interleaving), `LoginManager` (the objects, the poller's loop, the table) |
| Responses continuation store and history merge | `Continuation`, `ResponseSessions`, `WebSocketTurns`, `OutputAssembly` |
| Responses event stream | `StreamProtocol` (what a client may expect), `StreamWriter` (the writer as a state machine), `StreamOutcomes`, `StreamIds` and `StreamContents` (what a run amounts to, told from the provider's events), `ResponsesWriter` (the object), `ResponsesRelay` (the HTTP stream) |
| Messages built from a request's items | `ParseMessages` |
| Admission, stream slots, media requests | `Limits`, `Admission`, `StreamSlots`, `MediaRequests` |
| Quota resets | `QuotaReset` |
| Grok's TOML configuration | `TomlLines`, `GrokSections`, `GrokDefault`, `GrokModelSection`, `GrokMarker`, `GrokConfig`, `GrokRoundTrip` |
| The VS Code extension's stream decoder | `SseDecoder` |
| Model-name mapping | `Chains`, `ModelMapping` |
| Nested settings | `MapMerge` |
| Shared | `Wrappers`, `Collections`, `Text` |

Code that shares state between goroutines is a state machine whose actions are its critical
sections, store accesses and provider answers; a theorem about a run holds for every sequence of
actions. Objects that the program updates in place are classes; each method is tied to a function of
the old state, and the theorems are about those functions. The clock, JSON sizes, the order in which a Go map
is walked, and what providers and clients send are parameters.

## What the code does where one might expect otherwise

- Admission lets through at most 2L - 1 requests of a scope in a minute, not L and not 2L; the
  bound is met for every L (`AtMostTwiceTheLimitLessOne`, `BoundIsMet`).
- The message, the reasoning and the tool call with index 0 share output index 0. The WebSocket
  path assembles one item per index, so the stored history loses an item exactly when the provider sent two of
  text, reasoning and a tool call whose index is at most 0 (`HistoryKeepsEveryItemIff`, `ReasoningAndTextLoseAnItem`).
- The message's final text misses streamed text exactly when the provider sends text, then a tool call or the
  end, then text again (`MessageCutShortIff`).
- The response is completed before it is created exactly when nothing that opens it precedes the first end
  (`CreatedComesFirstIff`, `EndAloneCompletesWithoutCreated`).
- Over HTTP a failure is sent without a sequence number, and ready-made events are passed on as they are; what a
  client receives is numbered throughout exactly when there is neither (`NumberedThroughoutIff`, `FailureIsNotNumbered`).
- The reasoning item can change its id on the way; it keeps it exactly when every event answered on it finds
  the same id (`ReasoningKeepsItsIdIff`, `LateIdRenamesReasoning`). Messages and tool calls never do (`AnnouncedIds`).
- A media job that upstream accepted but whose response could not be recorded lets a second job
  through (`LostResponseAllowsSecondJob`); otherwise there is at most one (`AtMostOneUnlessLost`).
- A failing callback listener marks a login flow as failed even while it commits; the user can then cancel
  it and its credential is written all the same. Only flows with a listener of their own are open to this
  (`CancelledThoughSavedIff`).
- On names that map in a circle, requests and the dashboard's preview can disagree; they do exactly when
  the circle's length does not divide what is left of eight hops (`PreviewAgreesIff`).
- Applying and resetting Grok's configuration restores the default that was read exactly when there was one, it is
  not blank, has no quote in it and is not one of the proxy's own keys; where there was none, `grok-build` is left
  as the default (`DefaultComesBackIff`).

## Model

| member | source | states |
|---|---|---|
| `RefreshFlight.EachGenerationOnce` | internal/auth/manager.go:1025-1121 | in every interleaving of refreshing callers each stored token generation is successfully refreshed at most once, later generations after earlier ones |
| `RefreshFlight.SentTokensAreStoredAndWanted` | internal/auth/manager.go:1096-1121 | the refresh token sent is the one stored when the leader read again, and it is sent only if it was due or a forced caller had seen just that token |
| `RefreshFlight.OneLeaderAtATime` | internal/auth/manager.go:1082-1119 | at most one caller is between taking the slot and publishing |
| `RefreshFlight.SharedAnswer` | internal/auth/manager.go:1082-1119 | all callers that shared a refresh end with the same answer; which one is `RefreshAnswers.AnswersAreCurrent` |
| `RefreshFlight.BurstRefreshesOnce` | internal/auth/manager.go:1025-1121 | a burst of callers, forced or not, that saw one snapshot makes at most one successful refresh while the new tokens stay fresh |
| `RefreshFlight.RereadIsCurrent` | internal/auth/manager.go:1096-1135 | after reading the store again the leader goes by the stored credential, and stays forced only if nobody rotated the token since |
| `RefreshFlight.EveryRun` | internal/auth/manager.go:1162-1217 | store, slot, published calls and every caller's place stay consistent in every interleaving; what is published is `RefreshAnswers.AnswersAreCurrent` |
| `RefreshFlight.HardMaxAge` | internal/auth/manager.go:1943-1957 | the request path's age limit is the greater of the two configured ages, 48 and 72 hours if they are not positive, so never below the background loop's |
| `RefreshFlight.FreshEarlier` | internal/auth/manager.go:1975-1984 | a token fresh at some time was fresh at every earlier time |
| `RefreshAnswers.AnswersAreCurrent` | internal/auth/manager.go:1025-1121 | in every run a caller is answered with some stored generation's secret and token, the token made of its secret if it has none: one that the caller, or its call's leader, read from the store and found fresh at that reading, or one later than the generation whose refresh token the call sent |
| `RefreshAnswers.StoredAsAnswered` | internal/auth/manager.go:1162-1220 | in every run each generation was written by somebody else or holds the provider's answer to the refresh token of an earlier one: access and expiry as answered, the refresh token as answered or the old one if blank |
| `RefreshAnswers.RefusalsHaveTheirCause` | internal/auth/manager.go:1025-1220 | in every run a refused caller gave up waiting, met a failing store or exchange, or there was a generation that cannot be used or renewed; through a call, somebody had |
| `RefreshAnswers.DueIff` | internal/auth/manager.go:1943-1984 | when a token is due, told from its fields, the window and the configured ages |
| `RefreshAnswers.LoneCallerRefreshes` | internal/auth/manager.go:1082-1220 | a due or forced credential is refreshed when provider and store go along: the new token is stored and handed out |
| `RefreshAnswers.LoneCallerIsAnsweredAtOnce` | internal/auth/manager.go:1025-1081 | a credential that is not due is handed out as it is, and nothing is sent |
| `LoginSession.SectionsGoForward` | internal/auth/manager.go:2030-2105 | no critical section lowers a flow's rank, undoes completion, brings back a secret or leaves one in a finished flow |
| `LoginSession.EveryRun` | internal/auth/manager.go:770-876 | one actor at work, one claim, saves matching reports, the poller's pace: kept in every interleaving of callbacks, poller, denial, cancellation, expiry, listener failure and shutdown |
| `LoginSession.RankNeverFalls` | internal/auth/manager.go:2030-2073 | pending or polling, consumed, committing, finished: a longer run never takes a flow back, and completion is final |
| `LoginSession.SavedAtMostOnce` | internal/auth/manager.go:2051-2073 | the credential is written at most once, only after a successful claim, and once nobody is at work the flow is complete exactly when it was written |
| `LoginSession.EndingBeforeTheClaimPreventsTheSave` | internal/auth/manager.go:946-965 | a flow that is finished before the commit is claimed is never saved or completed afterwards; what finishes an open flow are the next three |
| `LoginSession.CancellationPreventsTheSave` | internal/auth/manager.go:946-965 | from every state of every run whose flow is pending, polling or consumed: cancelled, it stays cancelled and is never saved, whatever happens afterwards |
| `LoginSession.ExpiryPreventsTheSave` | internal/auth/manager.go:2030-2049 | the same for a status query, the purge, the poller waking or a callback past the flow's time: it is expired for good, or cancelled if that is asked for later, and never saved |
| `LoginSession.DenialPreventsTheSave` | internal/auth/manager.go:907-934 | the same for a denial in time that carries a pending flow's own state: failed for good, or cancelled later, and never saved |
| `LoginSession.BrowserFlowCompletes` | internal/auth/manager.go:794-876 | a callback in time whose exchange and write succeed completes the flow, saved once and without secrets |
| `LoginSession.DeviceFlowCompletes` | internal/auth/manager.go:1397-1475 | a poll in time that is granted, and whose write succeeds, does the same |
| `LoginSession.FailuresAreRecorded` | internal/auth/manager.go:2030-2093 | a failed exchange, a refused poll, a failing listener and expiry end an open flow with their code and without secrets; a look in time changes nothing |
| `LoginSession.CancelledThoughSavedIff` | internal/auth/manager.go:732-737 | a saved flow can read cancelled exactly if it is a browser flow with a callback listener of its own |
| `LoginSession.FinishedFlowsHoldNoSecret` | internal/auth/manager.go:2088-2093 | in every run a finished flow has all four secrets empty, so no state matches it |
| `LoginSession.PollerSlowsDown` | internal/auth/manager.go:1464-1472 | whatever the initial interval, the poller waits it plus five seconds for every slow_down so far, five seconds if that is not positive (RFC 8628, section 3.5) |
| `LoginManager.Flow.CompleteCallback` | internal/auth/manager.go:794-876 | a callback consumes a pending flow that has not run out, and saves exactly if exchange, claim and write succeed |
| `LoginManager.Flow.RejectSessionCallback` | internal/auth/manager.go:907-934 | a denial ends a pending flow exactly if it names an error and carries the flow's own state, not empty, in time; anything else is refused and changes nothing but an expired flow |
| `LoginManager.Flow.CancelSession` | internal/auth/manager.go:946-965 | the flow is cancelled with its secrets cleared unless it is complete or committing, and those two are left alone |
| `LoginManager.Flow.ExpireIfNeeded` | internal/auth/manager.go:2030-2049 | expires a flow past its time unless it is finished or committing |
| `LoginManager.Flow.PollDevice` | internal/auth/manager.go:1397-1475 | the poller's loop does its rounds in order and stops at the first that ends the flow |
| `LoginManager.Flow.PollRound` | internal/auth/manager.go:1397-1475 | one round: expiry first, then the answer; goes on only after an unanswered poll, with a wait that is never zero |
| `LoginManager.StillPollingKeepsTheFlow` | internal/auth/manager.go:1460-1475 | unanswered rounds change nothing but the interval, by five seconds each time the provider asked |
| `LoginManager.CallsGoForward` | internal/auth/manager.go:770-876 | whole calls only move a flow forward, and it is completed exactly by a saved callback in time or a granted poll that was saved |
| `LoginManager.SessionForState` | internal/auth/manager.go:893-905 | finds a flow exactly if one holds that non-empty state, and never a finished one |
| `LoginManager.Manager.PurgeExpiredSessions` | internal/auth/manager.go:307-340 | the loop leaves exactly the flows that are not both finished and past retention, those past their time expired |
| `LoginManager.PurgeLeaves` | internal/auth/manager.go:307-340 | committing flows and flows in time stay untouched, nothing past its time stays open, purging again changes nothing |
| `Continuation.JoinedIsShortest` | internal/api/responses_session.go:139-155 | history joined to new input is the one shortest list that begins with the history and ends with the input |
| `Continuation.MergeKeeps` | internal/api/responses_session.go:131-155 | input with a compaction anywhere in it, or that begins with the whole stored input, is sent as it is; any other is sent in the shortest list that begins with stored input and output and ends with it |
| `Continuation.Overlap` | internal/api/responses_session.go:146-154 | the descending search finds the largest suffix of the history that begins the input |
| `Continuation.CoverIsDetermined` | internal/api/responses_session.go:139-155 | two such lists of the same length are equal |
| `Continuation.FullResendIsIdentity` | internal/api/responses_session.go:131-145 | a client that resends input, output and more gets exactly what it sent |
| `Continuation.MergeAppendsIff` | internal/api/responses_session.go:131-155 | the prepared input is the history followed by the whole new input exactly when there is no history or the new input neither repeats it, replaces it, nor begins with a suffix of it |
| `Continuation.ConversationIsTranscriptIff` | internal/api/responses_session.go:106-183 | over k chained turns every prepared input is in1++out1++...++in_k exactly when every turn says something new |
| `Continuation.ResendingGivesTranscript` | internal/api/responses_session.go:106-183 | a client that resends everything every turn gets the plain transcript, unconditionally |
| `Continuation.AcceptedRequest` | internal/api/responses_session.go:117-183 | an accepted request keeps its own settings, inherits only the listed ones, names a model and has every tool output paired with an earlier call |
| `Continuation.AcceptedInput` | internal/api/responses_session.go:95-156 | an accepted request is sent with its own input if it names no earlier response or resets, else with that input joined to the stored response, compaction and restart told from the two lists |
| `Continuation.RefusalHasItsCause` | internal/api/responses_session.go:157-177 | too large, no model of its own or inherited, a tool output that nothing asked for, the first of them: a refusal has its cause, and an accepted request none of them |
| `ResponseSessions.ResponseSessions.Put` | internal/api/responses_session.go:61-93 | byte count, 128-entry and 32 MiB bounds are kept; live entries stay except the oldest ones that must go; a response with an id that fits into 2 MiB is in for 15 minutes with its history, and what is too large changes nothing |
| `ResponseSessions.ResponseSessions.Evict` | internal/api/responses_session.go:81-90 | the eviction loop ends, drops only what it must, oldest first, and makes room |
| `ResponseSessions.NoOlderFitStays` | internal/api/responses_session.go:81-90 | no put evicts an entry as long as it and all that expire no earlier leave room for the new one |
| `ResponseSessions.ResponseSessions.Get` | internal/api/responses_session.go:53-59 | a hit is the latest accepted put under that scope and id, and there is one exactly if it is stored and not expired |
| `ResponseSessions.ResponseSessions.Prune` | internal/api/responses_session.go:44-51 | exactly the expired entries go, and the byte count follows |
| `ResponseSessions.ResponseSessions.Prepare` | internal/api/responses_session.go:106-183 | every answer of prepare: each refusal in order, unknown exactly if the named response is not stored or expired, the settings, and the input: the request's own list if it holds a compaction or restarts from the stored input, else joined to what is stored |
| `ResponseSessions.MergeInput` | internal/api/responses_session.go:131-155 | the scan for compaction and the overlap loop compute the merge that `Continuation.MergeKeeps` describes |
| `ResponseSessions.FindOrphan` | internal/api/responses_session.go:165-177 | the pairing loop finds the first output without an earlier call, or none exactly if all are paired |
| `ResponseSessions.Oldest` | internal/api/responses_session.go:81-90 | the inner loop picks an entry none other expires before |
| `WebSocketTurns.Connection.Turn` | internal/api/websocket.go:80-178 | one turn: the session is the one named, or stays; another session forgets the last response and inherits nothing from it; what is sent and stored; and a response that is stored in time is the one remembered |
| `WebSocketTurns.Connection.Finish` | internal/api/websocket.go:158-177 | a run's response becomes the one to continue exactly if it is in the store afterwards, and when that is |
| `WebSocketTurns.Converse` | internal/api/websocket.go:80-178 | a whole conversation on one connection: exactly the turns before the first inadmissible one are accepted, each sent the merge of everything before it; that one is refused, with its cause |
| `WebSocketTurns.AdmissibleTurnsSendTranscript` | internal/api/websocket.go:80-178 | if every turn's predecessor was stored and has not expired, sizes are within bounds, a model is named and tool outputs are paired, all turns are sent, each the transcript when every turn is new |
| `WebSocketTurns.TurnExtendsChain` | internal/api/websocket.go:158-166 | a turn is accepted exactly if it is admissible, and is then sent the merge and the settings of the turns before |
| `OutputAssembly.AssembleOutput` | internal/api/websocket.go:214-258 | one item per output index, the last that finished with it, by ascending index |
| `OutputAssembly.AssembledOnce` | internal/api/websocket.go:247-256 | the finished items leave only one such list |
| `OutputAssembly.NothingOverwrittenIff` | internal/api/websocket.go:214-258 | no finished item is lost exactly when no two share an index |
| `StreamProtocol.AtMostOnce` | internal/api/responses_stream.go:64-101 | created, completed and every stage of an item but its deltas occur at most once |
| `StreamProtocol.ItemEventsInOrder` | internal/api/responses_stream.go:107-151 | every item event follows created and its own item's added event |
| `StreamProtocol.DoneTextIsDeltas` | internal/api/responses_stream.go:208-293 | a done event carries the deltas before it joined; a tool call without any gets an empty object |
| `StreamOutcomes.MessageCutShortIff` | internal/api/responses_stream.go:107-151 | in every run the message's final text differs from its streamed text exactly when a non-empty text delta, then a tool call or the end, then a non-empty text delta occur |
| `StreamOutcomes.FinalText` | internal/api/responses_stream.go:249-293 | the message is closed by the first tool call or end after some text, with the text up to there |
| `StreamOutcomes.WhatARunOpens` | internal/api/responses_stream.go:396-454 | which items are announced, whether the response is created and completed, and the streamed text are told from the provider's events |
| `StreamWriter.EveryRunIsLegal` | internal/api/responses_stream.go:396-454 | for every sequence of canonical events and every order of closing tool calls the emitted events obey the protocol and are numbered 1, 2, 3, ... |
| `StreamWriter.EndClosesEverything` | internal/api/responses_stream.go:427-435 | when the message ends, every opened item is closed and the response is completed |
| `StreamOutcomes.CreatedComesFirstIff` | internal/api/responses_stream.go:376-435 | in every run the response is created before it is completed exactly when an event that opens it precedes the first end |
| `StreamOutcomes.EndAloneCompletesWithoutCreated` | internal/api/responses_stream.go:376-394 | a stream that only ends is completed without having been created |
| `StreamIds.AnnouncedIds` | internal/api/responses_stream.go:103-105 | in every run every event of a message or tool call carries the id the item was announced with |
| `StreamIds.ReasoningKeepsItsIdIff` | internal/api/responses_stream.go:153-206 | the reasoning item keeps its id exactly when all events answered on it find the same id |
| `StreamIds.LateIdRenamesReasoning` | internal/api/responses_stream.go:184-191 | a reasoning id that comes with the second delta makes the deltas carry different ids |
| `StreamContents.StreamedIsWhatArrived` | internal/api/responses_stream.go:329-340 | in every run the deltas of each tool call join to the argument texts of the events with its index, in order, from the first that brings an id on; those of the reasoning to all reasoning texts, those of the message to all texts |
| `StreamContents.HowItemsEnd` | internal/api/responses_stream.go:208-374 | in every run whose ends close all calls, an item is finished exactly if some event closes it after it was opened, and the first such event finishes it with what had arrived by then, "{}" for a call without arguments, and with the call's last name or the last encrypted reasoning |
| `StreamContents.CallsEndComplete` | internal/api/responses_stream.go:344-374 | when the message ends, each call that was given an id is finished with its last name and all its arguments |
| `StreamContents.ItemsGoBy` | internal/api/responses_stream.go:311-327 | in every run tool-call events go by the first id the call was given, message events by the response's id |
| `StreamContents.OthersAreTold` | internal/api/responses_stream.go:376-454 | in every run, apart from items: created and in_progress once, before what first opens the response; media and errors as they came; one completion with the usage last reported before the first end |
| `StreamWriter.ToolInv` | internal/api/responses_stream.go:295-342 | a tool-call event keeps every flag and buffer in step with the trace; what the calls' arguments are is `StreamContents.StreamedIsWhatArrived` |
| `ResponsesRelay.WriteStream` | internal/api/responses_stream.go:456-540 | what the client receives is exactly the frames of the events up to the first end or failure, numbered events, ready-made ones and failures each in their form, then one closing mark; and exactly the headers relayed up to there |
| `ResponsesRelay.OwnEventsAreTheTrace` | internal/api/responses_stream.go:529-533 | taken by themselves, the writer's events are its trace for the given events: legal and numbered without gaps |
| `ResponsesRelay.ReceivedIsWhatArrived` | internal/api/responses_stream.go:529-533 | put together from its deltas, each item a client receives is what the provider sent for it up to the end |
| `ResponsesRelay.PassedInOrder` | internal/api/responses_stream.go:481-526 | ready-made events come through in order with their data, under their own name or the type the data names, and a failure with its message |
| `ResponsesRelay.LastHeaderWins` | internal/api/responses_stream.go:500-508 | a header has the value the provider set last, or the one every stream starts with |
| `ResponsesRelay.NumberedThroughoutIff` | internal/api/responses_stream.go:509-526 | the whole stream is numbered by place exactly when up to the end there is no failure and no ready-made event |
| `ResponsesRelay.FailureIsNotNumbered` | internal/api/responses_stream.go:512-526 | a provider that fails at once: the failure goes out without a number |
| `ResponsesRelay.EndedStreamIsClosed` | internal/api/responses_stream.go:529-538 | a stream that ends with its message leaves nothing open and is completed |
| `ResponsesRelay.DoneMarkIsLast` | internal/api/responses_stream.go:464-474 | the closing mark is not written before the end |
| `ResponsesWriter.ResponsesStreamWriter.Handle` | internal/api/responses_stream.go:396-454 | the object's handling of one event is the state machine's step and returns exactly the events appended |
| `ResponsesWriter.ResponsesStreamWriter.TextEvents` | internal/api/responses_stream.go:107-151 | text deltas update buffers and trace as specified |
| `ResponsesWriter.ResponsesStreamWriter.ToolEvents` | internal/api/responses_stream.go:295-342 | tool-call deltas update maps and trace as the state machine does, whose outcome is `StreamContents.StreamedIsWhatArrived` |
| `ResponsesWriter.ResponsesStreamWriter.ToolsClosing` | internal/api/responses_stream.go:344-374 | the loop over the call map closes every call, in whatever order the map yields |
| `ResponsesWriter.HistoryKeepsEveryItemIff` | internal/api/responses_stream.go:103-105 | the history stored for an ended run keeps every finished item exactly when the provider sent no two of text, reasoning and a tool call whose index is at most 0 |
| `ResponsesWriter.ReasoningAndTextLoseAnItem` | internal/api/websocket.go:235-258 | a provider that reasons and then answers: one finished item is lost from the history |
| `ResponsesWriter.FinishedOnce` | internal/api/responses_stream.go:208-293 | no item finishes twice |
| `ParseMessages.ParseMessages` | internal/api/protocol.go:94-152 | the loop that appends messages and extends the last one's calls computes the specified messages |
| `ParseMessages.OneMoreItem` | internal/api/protocol.go:94-152 | what one more item adds, kind by kind: a message with its fields, developer as system; a call joined to the assistant's message or in one of its own; a tool message; or nothing |
| `ParseMessages.CallsConserved` | internal/api/protocol.go:94-152 | the tool calls of all messages, in order, are the calls of the items, in order, none lost or doubled |
| `ParseMessages.OutputsAnswered` | internal/api/protocol.go:94-152 | if every output is paired and tool items carry no role, every tool message follows an assistant message holding its call |
| `ParseMessages.CallAnnounced` | internal/api/protocol.go:111-134 | every call item is held by some assistant message |
| `ParseMessages.CallsAreGrouped` | internal/api/protocol.go:120-127 | assistant messages follow one another exactly as often as the client sends its own assistant item after one: calls always join the assistant message before them |
| `Limits.ScopesAreDistinct` | internal/api/server.go:927-941 | the scopes of a request differ, so none is charged or taken twice |
| `Limits.LimitScopes` | internal/api/server.go:927-941 | the appending method yields the specified scopes |
| `Limits.WhoIsLimited` | internal/api/server.go:927-941 | without a key the installation alone; with one the installation, the first team with its team's id if there is one, and the key, each with its own limits |
| `Limits.EndpointAllowedIff` | internal/api/limits.go:123-137 | a path is allowed exactly if there are no patterns or one of them, trimmed, is empty, a star, the path, or a directory above it followed by a star |
| `Limits.MergedPermitsIff` | internal/api/server.go:959-989 | the merged policy permits exactly what both policies permit, a limit that is not positive meaning none |
| `Admission.RequestWindows.AdmitRequest` | internal/api/limits.go:48-83 | a refusal says what refused and changes nothing, an admission charges every scope once |
| `Admission.AtMostTwiceTheLimitLessOne` | internal/api/limits.go:48-83 | any half-open minute of any run with a nondecreasing clock has at most 2L - 1 admissions of a scope with limit L |
| `Admission.BoundIsMet` | internal/api/limits.go:48-83 | for every limit a run reaches that bound |
| `Admission.WaitingOpensANewWindow` | internal/api/limits.go:61-73 | waiting Retry-After seconds opens a new window for the scope that refused |
| `Admission.WaitIsNeeded` | internal/api/limits.go:66-73 | Retry-After is at least one second, at most one second more than is left of the window, and never above 61 |
| `Admission.RunShape` | internal/api/limits.go:48-83 | admissions fall into windows a minute apart, each opened by an admission at its start and holding at most the limit |
| `Admission.ChargeEffect` | internal/api/limits.go:74-81 | charging counts one in every named scope and leaves all others |
| `StreamSlots.StreamLimiter.AcquireStream` | internal/api/limits.go:85-103 | refuses exactly if a scope is full, naming the first and changing nothing; otherwise each scope counts one more live handle |
| `StreamSlots.StreamLimiter.ReleaseStream` | internal/api/limits.go:105-121 | gives back exactly the handle's slots |
| `StreamSlots.ClientStream.Release` | internal/api/limits.go:192-199 | only the first release of a handle gives anything back |
| `StreamSlots.AcquireClientStream` | internal/api/limits.go:192-199 | a stream holds the scopes captured when it was acquired |
| `StreamSlots.NeverAboveLimit` | internal/api/limits.go:85-121 | in every run a scope with a constant positive limit has at most that many live streams |
| `StreamSlots.RefusalIsByHolders` | internal/api/limits.go:85-103 | with slots conserved, the counters refuse exactly when the live handles do |
| `MediaRequests.MutualExclusion` | internal/api/limits.go:161-190 | at most one request of a key and idempotency key is between lock and release |
| `MediaRequests.AtMostOneUnlessLost` | internal/api/server.go:667-720 | upstream accepts at most one job more than there are accepted responses that were not recorded |
| `MediaRequests.EveryoneGetsTheRecordedJob` | internal/api/server.go:586-600 | in every run whoever is answered with a job gets the one recorded, which upstream took; no repeat gets another |
| `MediaRequests.RepeatIsAnswered` | internal/api/server.go:586-600 | once a job is recorded and the lock is free, the next request is answered with it and submits nothing |
| `MediaRequests.LostResponseAllowsSecondJob` | internal/api/server.go:586-600 | recording before release is necessary: without it a second job is accepted |
| `QuotaReset.OneCallInFlight` | internal/api/quota_actions.go:39-83 | at most one unfinished call per credential |
| `QuotaReset.ActiveIffInFlight` | internal/api/quota_actions.go:66-79 | active holds exactly the credentials with an unfinished call |
| `QuotaReset.TableIsBounded` | internal/api/quota_actions.go:66-72 | the table never exceeds 1024 calls |
| `QuotaReset.CallsAreApart` | internal/api/quota_actions.go:39-83 | two upstream calls for one credential and id are more than the retention time apart |
| `QuotaReset.RepeatIsAnsweredFromTheCall` | internal/api/quota_actions.go:57-65 | a repeat before the retention ends makes no call and gets that call's result |
| `QuotaReset.AnswersAgree` | internal/api/quota_actions.go:39-83 | everyone answered from one call has the same answer; that it is upstream's is `QuotaReset.AnsweredAsReturned` |
| `QuotaReset.AnsweredAsReturned` | internal/api/quota_actions.go:57-82 | in every run whoever was answered from a call holds what upstream returned to the caller that made it |
| `QuotaReset.NewcomerIsTold` | internal/api/quota_actions.go:39-73 | in every run: a malformed id is refused, a kept call for the same key is waited for, a credential with a call in flight or 1024 kept calls means retry, and otherwise the newcomer makes the upstream call |
| `QuotaReset.PrunedIsKept` | internal/api/quota_actions.go:52-56 | the pruned table holds each call that is kept once, so that its size is the number of calls kept |
| `QuotaReset.QuotaResetState.Begin` | internal/api/quota_actions.go:40-73 | the first critical section does the state machine's step |
| `QuotaReset.QuotaResetState.Complete` | internal/api/quota_actions.go:74-82 | the second critical section records what upstream returned, answers the caller with it and frees the credential |
| `QuotaReset.QuotaResetState.Prune` | internal/api/quota_actions.go:52-56 | the pruning loop removes exactly the finished calls whose retention is over |
| `GrokSections.FindSection` | internal/clitools/grok.go:82-103 | the offset scan finds the first section of its kind: where it starts, where its body starts and the next header line |
| `GrokSections.TextAround` | internal/clitools/grok.go:131-153 | the offsets cut the text into the lines before, in and after the section |
| `GrokSections.ParseModelsDefault` | internal/clitools/grok.go:155-168 | reads the first offered default of the first [models] section, or runs out of range exactly on an unended header or a line with a single quote |
| `GrokSections.UpsertPuts` | internal/clitools/grok.go:185-197 | an upserted text is the text before, the section and the text after, both unchanged, and the section is found there |
| `GrokSections.SecondUpsertWins` | internal/clitools/grok.go:185-197 | a second upsert gives exactly what it would have given without the first |
| `GrokSections.CoreOfRemove` | internal/clitools/grok.go:199-206 | removal drops the section's lines and, besides, only empty lines |
| `GrokDefault.SetModelsDefaultInPlace` | internal/clitools/grok.go:208-236 | the loop overwrites the first assignment, or else a line is added at the section's top, or a block in front |
| `GrokDefault.CoreOfSetDefault` | internal/clitools/grok.go:208-236 | setting the default changes or adds that one line and keeps all other lines |
| `GrokDefault.DefaultIsSet` | internal/clitools/grok.go:208-236 | whatever the text was, the default read afterwards is the one set |
| `GrokModelSection.ParseModelSection` | internal/clitools/grok.go:105-129 | the nested loops read every field's first offered value, or none |
| `GrokModelSection.WrittenLines` | internal/clitools/grok.go:170-183 | the lines of a built section as they are written, the key only if it is not blank |
| `GrokModelSection.ParseAfterUpsert` | internal/clitools/grok.go:170-197 | after upserting a built section into any text every field reads as it was built |
| `GrokModelSection.ValuesComeBack` | internal/clitools/grok.go:71-129 | model and base URL come back, the key exactly if not blank, and the proxy counts as configured exactly if the URL is not blank |
| `GrokMarker.CoreOfStrip` | internal/clitools/grok.go:257-263 | replacing the marker pattern acts line by line, and the first match is the first line's |
| `GrokMarker.MarkerLineMatches` | internal/clitools/grok.go:238-247 | the written marker always matches; it reads up to the value's first quote, and vanishes whole if there is none |
| `GrokRoundTrip.ApplyAll` | internal/clitools/grok.go:271-287 | after any number of applications the text is the user's lines with the proxy as default, a marker if there was a default to remember, and the last section |
| `GrokRoundTrip.ApplyThenReset` | internal/clitools/grok.go:271-308 | with or without a default of the user's, it reads as the proxy after applying and as the restored one after the reset |
| `GrokRoundTrip.DefaultComesBackIff` | internal/clitools/grok.go:238-308 | for every text without proxy section or marker whose default is read in range, what is read comes back exactly if it is a default, not blank, without a quote and not the proxy's own; without a default grok-build is left and the other lines are kept |
| `GrokRoundTrip.NothingIsLost` | internal/clitools/grok.go:271-308 | for a well-formed default, applying any number of times and resetting is the identity up to blank lines and indentation |
| `SseDecoder.SSEDecoder.Push` | extensions/vscode-tproxy/sse.js:5-14 | returns the payloads of the lines closed so far and keeps the unfinished line, which never holds LF |
| `SseDecoder.SSEDecoder.End` | extensions/vscode-tproxy/sse.js:15-19 | returns the last line's payload and empties the buffer |
| `SseDecoder.ChunkInvariance` | extensions/vscode-tproxy/sse.js:3-20 | for every way of cutting a text, pushing the pieces and ending gives the batch decoding of the whole |
| `SseDecoder.DecodeStream` | extensions/vscode-tproxy/sse.js:3-20 | a caller's loop over chunks collects the batch decoding |
| `SseDecoder.RestIsUnclosed` | extensions/vscode-tproxy/sse.js:8-12 | what is carried over never holds LF |
| `SseDecoder.DataLine` | extensions/vscode-tproxy/sse.js:9-11 | a data line gives its value without the white space before and behind it and before the field |
| `SseDecoder.OtherLine` | extensions/vscode-tproxy/sse.js:9-11 | a line that does not begin with the field after white space gives nothing |
| `SseDecoder.ToolCallAccumulator.AddOne` | extensions/vscode-tproxy/sse.js:25-33 | each slot is its own call's fragments joined in order of arrival, whatever was interleaved |
| `SseDecoder.ToolCallAccumulator.Complete` | extensions/vscode-tproxy/sse.js:34-40 | one finished call per index, ascending, made of all its fragments, named after its position if it has no id |
| `SseDecoder.CallNamesDiffer` | extensions/vscode-tproxy/sse.js:38 | calls without an id get names that differ by place |
| `ModelMapping.ModelMappingResolver.ResolveChain` | internal/bridge/model_mapping.go:63-89 | the loop with its seen set follows the bounded chain |
| `ModelMapping.ModelMappingResolver.Preview` | internal/api/mapping_admin.go:262-284 | the preview is eight single hops, every step listed |
| `ModelMapping.ModelMappingResolver.Resolve` | internal/bridge/model_mapping.go:92-103 | one hop, or the name itself |
| `ModelMapping.NormalizeModelMappings` | internal/bridge/model_mapping.go:123-134 | keeps exactly normalized sources of trimmed targets, none blank, none leading to itself |
| `ModelMapping.NormalizeTwice` | internal/bridge/claude_alias.go:235-244 | normalizing is idempotent, and only a blank name becomes empty |
| `ModelMapping.NormalizedName` | internal/bridge/claude_alias.go:235-244 | a name in white space, with or without a bracket and anything after it, normalizes to itself in lower case |
| `Chains.ChainVisitsNothingTwice` | internal/bridge/model_mapping.go:63-89 | at most eight hops, each to a target, through names that all differ |
| `Chains.AgreeAfterReturnIff` | internal/bridge/model_mapping.go:63-103 | where a path comes back, the chain equals eight single hops exactly when they end a lap |
| `ModelMapping.PreviewAgreesIff` | internal/api/mapping_admin.go:274-284 | with sanitized mappings requests and preview agree on every path that does not come back, and on one that does exactly when the lap length divides the hops left |
| `ModelMapping.ResolvedAgainIff` | internal/bridge/model_mapping.go:63-89 | resolving a resolved name changes nothing exactly when its path ended within eight hops |
| `ModelMapping.SwappedNamesDisagree` | internal/bridge/model_mapping.go:80-85 | two names mapped to each other: the request goes to the other, the preview comes back |
| `MapMerge.MergeMaps` | internal/clitools/registry.go:202-212 | the recursive loop computes the merge |
| `MapMerge.MergeReads` | internal/clitools/registry.go:202-212 | what every path reads after a merge: the source's leaf, a merged map, the old value where the path leaves the source, or nothing below a source leaf |
| `MapMerge.MergeTwice` | internal/clitools/registry.go:202-212 | merging the same source again changes nothing |
| `MapMerge.DeleteReads` | internal/clitools/registry.go:174-185 | deletion takes away the leaves at and below the path and no other |
| `MapMerge.SetReads` | internal/clitools/registry.go:163-172 | setting puts the value's leaves under the path, replaces leaves on the way and keeps every other |
| `MapMerge.DeleteAfterMerge` | internal/clitools/registry.go:174-212 | deleting after a merge takes away that path alone |

## Left out

- HTTP handlers, WebSocket frames, JSON encoding and decoding, flushing and keepalive timers: I/O; requests, items and events are datatypes and encoded sizes are parameters.
- The store, the router and the provider adapters are not part of this model; the store is read and written in atomic steps, and an exchange succeeds or fails as it likes.
- The clock is read before the lock in limits.go and responses_session.go; the model takes one nondecreasing time per critical section.
- Scope digests and joined keys are modelled as pairs; hashing, PKCE and UUID parsing are opaque, and an id is well formed or not by a parameter.
- The stored history is what prepare returned; a later compression step that rewrites the raw request is not modelled.
- keyCapacity and the other limits in routing, per-provider OAuth exchanges, credential imports, the Antigravity project lookup and prewarming.
- Headers: only which ones are set up to the end of the stream; net/http's canonical names and its ignoring of headers set after the first write are not modelled. Payloads that cannot be encoded are skipped by the program and do not occur here.
- Panics inside a refresh leader and fairness between waiting callers.
- RefreshFlight.BurstRefreshesOnce: tokens stored meanwhile are assumed fresh, since one that is due again may rightly be refreshed again.
- LoginManager.Flow.PollDevice: as an object the poller runs without interference; its interleavings with the other actors are those of `LoginSession`.
- ModelMapping.NormalizeTwice: lower-casing is modelled for ASCII letters only.
- GrokSections.ParseModelsDefault: text is a sequence of characters; the program's offsets count bytes, which cut at the same line breaks.
- GrokRoundTrip.NothingIsLost: blank lines and indentation are not compared, because collapsing line breaks and the final trim change them.
- WebSocketTurns.Converse: the turns of one connection only; other clients' puts between them are not interleaved, and NoOlderFitStays says when an entry survives them.
- MapMerge.MergeMaps: nested maps are values, so that a map shared between two places is not modelled.
- SseDecoder.ToolCallAccumulator.Complete: argument text is returned as it is; parsing it as JSON is left to the caller.
- The dashboard password cache, the live log, arena ratings, compression heuristics and the other CLI tools' file writers: smaller copies of these patterns, or file plumbing.
