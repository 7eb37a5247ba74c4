# A verified model of the fabricsdk client

fabricsdk wraps the Hyperledger Fabric Gateway client for Go with three promises: writes whose errors say whether
sending them again is safe, event listeners that resume from a checkpoint without skipping, and error kinds recovered
from chaincode messages. This project models the code behind the promises and proves what they amount to, for every
input, every schedule of failures and every interleaving the model admits.

| module | models |
|---|---|
| `Text`, `Ccerr` | the string functions in use, and the wire format of chaincode errors with its printer and parser |
| `Errors`, `Classification`, `DetailOrder` | the structured error, `classify` and its three-stage search, what a caller may conclude from the result, and when the order of the peers' reports matters |
| `Guidance`, `Wording` | what callers read off an error, spelled out: kinds by status code, numbers, the six codes, the errors of every phase, and the phrases free text is read by |
| `Ledger`, `Options` | the peer's log and resume rule, checkpointers, event options, the reconnect delay with 64-bit doubling |
| `Listener` | `ListenChaincodeEvents` and `ListenBlocks` as imperative loops, each proved equal to one abstract resumable consumer |
| `Delivery`, `Outcomes`, `Progress` | what that consumer delivers over whole runs and sequences of crashed runs, how every session and run ends, how long they take |
| `Forwarder`, `Streams` | the goroutine behind `EventStream`, as a machine stepped in any order by peer, goroutine, consumer and contexts, and as the stream a listener's session reads |
| `Contract` | the submit phases, pending transactions, look-ups and the gateways they hold, as classes |
| `WriteProtocol`, `Pending`, `Gateways` | the retry protocol against a nondeterministic orderer, one pending transaction shared by goroutines, and all gateway holders of a client |
| `Deadlines` | configuration checks, default timeouts, and the time a submission takes |

The environment is explicit: a listener runs against a script that says, session by session, how the subscription
went, what became of each item (kept, handler error, death before the checkpoint, checkpoint error with or without the
position stored), whether the stream was closed, the context ended or the sleep was cut short. The write protocol, the
forwarder, the pending transaction and the gateway holders are machines whose events come in any order their guards
allow. The log of a listener stands for everything the peer will ever commit; an unpositioned subscription without a
start block is served from the block the peer commits next, so it never begins inside a block.

## What the proofs found

- "No event is skipped" (events.go:209-210) holds exactly for listeners with an anchor, that is, a start block or a
  recorded position, unless all events lie in one block. Without an anchor, every block committed while a stream that
  delivered nothing is down is lost
  (`Delivery.UnanchoredRunSkips`, `Delivery.NeverSkipsExactlyWhenAnchored`). What always holds is that one run accepts
  a contiguous segment; and over any crash schedule without an anchor, what is accepted from the first recorded item
  on is contiguous (`Delivery.AtLeastOnceFromFirstRecord`).
- A position that names a transaction its block does not hold makes the peer withhold the whole block
  (`Ledger.StalePositionDropsBlock`).
- The delay is the minimum doubled and capped, and stays within its bounds, exactly when the maximum is at most half
  the largest 64-bit integer; above that, a doubling wraps below zero within the first 64
  sessions without a record (`Options.DelayExact`).
- When the context has ended, `ListenBlocks` returns nil even if the handler failed; `ListenChaincodeEvents` returns
  the handler's error (`Delivery.ItemErrorsAreFinal`).
- Obeying the retry guidance applies a write at most once exactly when four conditions hold: "not found" is not taken
  for "not ordered", neither the errors of a broadcast nor those of a wait were classified elsewhere, and a rejection by
  the orderer is definite (`WriteProtocol.SafeExactlyWhenSound`). Errors of an endorsement may be anything.
- A submission that waits by itself leaves another identity's gateway connected exactly when the commit status could
  not be confirmed, since nobody is left to release it (`Contract.FabricClient.SubmitWith`).
- Which layer an error is blamed on never depends on the order of the peers' reports
  (`Classification.SourceIgnoresDetailOrder`). Its kind, and whether it is retryable, are the same in every order exactly
  when the reports that decide agree: all coded ones if there are any, else, unless the status text is coded, all
  responses, else, unless the status text is a response or the setting is strict, all with a keyword
  (`DetailOrder.OrderFreeExactlyWhenReportsAgree`; `Classification.RetryGuidanceFollowsDetailOrder` has a pair that
  disagrees).
- Nothing is connected after `Close` exactly when no admitted call was still waiting for its gateway then; one that was
  may get it, and releases it like any other (`Gateways.NothingConnectsExactlyWhenNobodyWaits`,
  `Gateways.GatewaysAreConserved`).

## Model

| member | source | states |
|---|---|---|
| Ccerr.ParseRendered | ccerr/ccerr.go:62-95 | Every known code with every message parses back from its rendering, as that code and the trimmed message. |
| Ccerr.ParseWrapped | ccerr/ccerr.go:76-95 | Behind "chaincode response NNN, " the same round trip holds if and only if NNN contains no ", " of its own. |
| Ccerr.ParseStable | ccerr/ccerr.go:79-95 | Whatever parses, rendering the result and parsing again changes nothing. |
| Ccerr.ParseFailure | ccerr/ccerr.go:86-94 | Success means exactly a known code; failure hands the input back untouched with no code. |
| Errors.CollectDetails | errors.go:250-258 | The loop keeps the Gateway's own details, all of them and in order, and drops foreign ones. |
| Errors.CodedCandidate | errors.go:358-363 | The first stage returns the error of the first candidate that parses, or nothing when none does. |
| Errors.ResponseCandidate | errors.go:364-375 | The second stage decides by the first "chaincode response" candidate alone, with its kind left to the fallback. |
| Errors.KeywordDetail | errors.go:379-387 | The third stage returns the first detail that has a keyword, with its own text. |
| Errors.ChaincodeError | errors.go:346-388 | The three loops together meet the declarative priority: first coded candidate, else first response, else, unless strict, first detail with a keyword; nothing for other status codes. |
| Errors.Classify | errors.go:261-317 | Over every error, phase and fallback the imperative classifier computes the specified error, with nil for nil. |
| Classification.RetryGuidance | errors.go:286-316 | Outcome unknown exactly for commit-status errors and submit errors outside the three rejections; it coincides with its kind and excludes retrying; timeout, unavailable and endorsement arise only before submit; a submit error is retryable exactly when it is a rejection; code matches kind, and transaction ID, status code, details and cause are kept. |
| Classification.CommitFailureGuidance | errors.go:390-400 | A failed commit is definite, and retryable exactly for the two read conflicts. |
| Classification.VerdictIsChaincode | errors.go:346-388 | Whatever the search finds is blamed on chaincode, never has an open outcome, and has a kind only chaincode wording can give. |
| Classification.SourceByVerdict | errors.go:286-294 | An error is blamed on chaincode exactly before submit and when the search finds something. |
| Classification.SourceIgnoresDetailOrder | errors.go:346-388 | Permuting the reported details, foreign ones included, never changes the source. |
| Classification.RetryGuidanceFollowsDetailOrder | errors.go:350-363 | A witness that order matters: two peer reports in one order give a retryable conflict and in the other a permanent error. |
| DetailOrder.SearchByStage | errors.go:350-388 | Whatever the search looks for, it yields what the first stage with a find yields, and within a stage a report comes before the status text. |
| DetailOrder.VerdictIsSearch | errors.go:346-388 | What is seen of the kind of the classifier's verdict is what such a search finds. |
| DetailOrder.OrderFreeExactlyWhenReportsAgree | errors.go:350-388 | For every error, phase and fallback, anything seen of the kind is the same for every permutation of the details if and only if the reports of the deciding stage agree on it. |
| DetailOrder.KindIgnoresOrderExactlyWhen | errors.go:350-388 | The kind is the same in every order if and only if the deciding reports all have one kind. |
| DetailOrder.RetryabilityIgnoresOrderExactlyWhen | errors.go:102-112 | Whether an error is retryable is the same in every order if and only if the deciding reports are all of retryable kinds or all of others. |
| Classification.StrictOnlyDropsKeywords | errors.go:364-387 | Strictness changes the result if and only if a keyword decides, whatever the keywords are; it then yields `chaincode` with the same text, or `endorsement`, and never touches ID, code, details, cause or outcome. |
| Classification.UncodedStrictness | errors.go:364-387 | The same equivalence for the last two stages, with the exact error that replaces the keyword's. |
| Classification.KeywordsIgnoreCase | errors.go:226-244 | Lower-casing a message first makes no difference to the keyword search. |
| Classification.PeerWordingIsNeverClassified | errors.go:207-232 | A message with peer-side wording anywhere in it, in any case, has no keyword kind. |
| Classification.CodedErrorReachesItsKind | errors.go:198-205 | End to end: a rendered chaincode error, bare or behind a response prefix, reaches the caller as its code's kind with the trimmed message, provided no earlier detail parses. |
| Classification.CodedStatusReachesItsKind | errors.go:354-363 | The same for a status text, with or without the wording of an evaluate call in front, provided no detail parses. |
| Classification.CodedDetailDecides | errors.go:350-363 | The first detail that parses decides kind, source and message, whatever follows it and whatever the status says. |
| Guidance.EveryErrorHasItsNumber | errors.go:191-196 | Every error the classifier makes carries the HTTP number of its kind, number by number. |
| Guidance.KindPerCode | errors.go:319-341 | Before submit and without chaincode wording, each kind arises from exactly its status codes; retryable are exactly a passed deadline, an unavailable peer, and the two codes of a failed endorsement. |
| Guidance.ContextDecidesUnknown | errors.go:274-284 | An error without a code of its own counts as canceled, or as past its deadline, exactly when its context did so; any other code stands. |
| Guidance.KindAfterBroadcast | errors.go:295-311 | From submit on there are two kinds: rejected, for exactly three codes of a broadcast, and unknown for all else, with their wording. |
| Guidance.KnownErrorsPass | errors.go:265-272 | An SDK error passes through untouched; a commit error gives a failed commit under its own transaction ID. |
| Guidance.FailedCommit | errors.go:390-401 | A conflict exactly for the two read conflicts, with its wording; every other verdict a failed commit that names it. |
| Guidance.DecimalReadsBack | errors.go:397 | The number such an error prints reads back as the verdict's. |
| Guidance.RenderingSaysIt | errors.go:85-96 | What an error's message or transaction ID says, its rendering says. |
| Guidance.SixCodes | ccerr/ccerr.go:47-54 | The codes, by name; there is no seventh. |
| Guidance.ReportedCode | errors.go:198-205 | From the wire to the caller, code by code: the first report that parses gives its kind and the trimmed message, and only a conflict is retryable. |
| Guidance.FailsBeforeSending | contract.go:170-184 | Without a gateway its error is returned; without a proposal a configuration error that keeps the cause. |
| Guidance.FailedEndorsement | contract.go:187-195 | A failed endorsement never leaves the outcome open, carries the proposal's ID, and is retryable when a peer is unavailable, a deadline passed, or endorsement failed without chaincode wording. |
| Guidance.ReportedEndorsement | contract.go:187-195 | A coded report on it decides kind, source and message. |
| Guidance.FailedBroadcast | contract.go:198-206 | A failed broadcast is open, and not retryable, exactly unless the orderer rejected it. |
| Guidance.AcceptedBroadcast | contract.go:209-210 | An accepted one carries the proposal's ID and the endorsed payload. |
| Guidance.AnswerOfWait | contract.go:224-233 | A wait reports block and payload of a valid transaction, the verdict of an invalid one, and an unknown outcome with the ID for everything else. |
| Guidance.FailedLookUp | contract.go:264-270 | A look-up that fails otherwise than by "no such transaction ID" leaves nothing open, and its kind follows its code. |
| Wording.KeywordsRead | errors.go:207-244 | For every message: no kind with peer-side wording; else a conflict, an existing record, a missing one, a denial, each for exactly its phrases, in this order; else none. |
| Wording.CaseMakesNoDifference | errors.go:226-227 | Messages that differ only in the case of ASCII letters are read alike. |
| Wording.ResponseIsRead | errors.go:364-375 | The first response, when nothing parses, gives its text after the first ", " and the kind it reads as, or `chaincode`; only a conflict is retryable. |
| Wording.ReportIsRead | errors.go:379-386 | Without a response, in lenient mode, the first report that reads as something gives its kind and its text; only a conflict is retryable. |
| Wording.NothingIsRead | errors.go:376-387 | When nothing reads as anything, or in strict mode, the error is an endorsement failure with the status text. |
| Ledger.FirstFrom | events_test.go:48-51 | The first item at or after a block: everything before it is in an earlier block. |
| Ledger.ServeIsSuffix | events_test.go:42-73 | For any position, the peer's loop serves exactly the suffix of the log that starts at the resume index. |
| Ledger.ResumeAfterMark | events.go:34-37 | Resuming from the mark left by an item goes on with the very next item, for events and for blocks. |
| Ledger.BlockRequested | fake_gateway_test.go:186-206 | A block subscription starts at the very block its position names, whatever transaction stands beside it, as far as the ledger reaches. |
| Ledger.StalePositionDropsBlock | events_test.go:52-61 | Only processed items are withheld, if and only if the position names no transaction, or one the log holds in its block, or a block without items. |
| Options.Resolved | events.go:105-117 | For any options whatever, the delays come out positive and in order. |
| Options.ResolveOptions | events.go:105-117 | The loop over the options applies them left to right, then clamps. |
| Options.ResolvedExactly | events.go:105-117 | Each setting is the last one asked for, or its default of no start block, one second and thirty; the clamped range in numbers. |
| Options.ListenerCheckpointerWins | events.go:219-220 | The listener's own checkpointer overrides any the caller passed and changes no other option. |
| Options.DelayIsCappedPower | events.go:221-249 | With a maximum that leaves room for doubling, the delay after `k` sessions without a record is exactly min(minimum times two to the k, maximum), within bounds. |
| Options.DelayExact | events.go:246-249 | Exactness for every `k`, and staying within bounds for every `k`, each hold if and only if the maximum is at most half the largest 64-bit integer; otherwise both fail for one k of at most 63. |
| Listener.HandleItems | events.go:225-235 | The loop over a stream's items leaves checkpointer, history and delay as the abstract consumer does, and stops at the first handler error, death or checkpoint error. |
| Listener.ChaincodeEvents | events.go:150-170 | A subscription resolves the options anew, is served from the checkpoint, else the start block, else the next commit, and classifies a refusal strictly. |
| Listener.ListenChaincodeEvents | events.go:215-251 | For every script the loop ends in exactly the state of the abstract consumer, with the checkpointer at its position; without checkpointer or handler it fails at once with a configuration error and delivers nothing. |
| Listener.BlockSession | events.go:302-330 | One block session hands its items over like the abstract consumer and returns its session's error. |
| Listener.ListenBlocks | events.go:267-291 | The same refinement of the same consumer, in block mode. |
| Delivery.FeedContinues | events.go:158-165 | Once something is recorded, or with an anchor, every later subscription is served from the first unrecorded item on, however far the ledger has grown. |
| Delivery.SessionLawful | events.go:222-237 | With an anchor or a record, every session, whatever goes wrong in it, keeps the delivery law: each accepted item is the one at the start plus the number of records before it, and the position is the mark of the last record. |
| Delivery.RunLawful | events.go:215-251 | A whole run keeps the law, once anchored or recorded. |
| Delivery.RunsLawful | events.go:208-237 | So does any number of crashed, failed or finished runs that share one durable position. |
| Delivery.AtLeastOnce | events.go:208-237 | Over any crash schedule the accepted items, adjacent repeats collapsed, are exactly the first ones of the log from the anchor; accepted equals recorded plus deaths and lost checkpoints; at most one item is accepted but unrecorded at the end. |
| Delivery.ExactlyOnce | events.go:25-28 | With a handler that moves the position atomically with its data, the applied effects over any crash schedule are the first items from the anchor, each once, and the position is right after the last; the listener's own write is then a no-op, and only then (`Delivery.CheckpointIsNoOpExactlyAfterAtomicHandler`). |
| Delivery.AtLeastOnceFromFirstRecord | events.go:208-237 | Without an anchor, over any crash schedule: before the first record each run loses at most one acceptance; from it on the accepted items, repeats collapsed, are contiguous, with the same count of losses and the same position as with an anchor. |
| Delivery.AnchoredRunIsPrefix | events.go:208-213 | One anchored run accepts a prefix of the log from its anchor: in order, no gap, no duplicate. |
| Delivery.RunIsSegment | events.go:82-87 | One unanchored run still accepts a contiguous segment, which starts at the block that was next when the first delivering session subscribed: none before it delivered anything. |
| Delivery.UnanchoredRunSkips | events.go:82-84 | Without an anchor, every block committed while a stream that delivered nothing is down is skipped, however many there are, though it was offered. |
| Delivery.NeverSkipsExactlyWhenAnchored | events.go:209-210 | Every run accepts a prefix of what it was first offered if and only if the listener is anchored or all items lie in one block. |
| Delivery.BlocksAreConsecutive | events.go:267-291 | Block numbers, repeats collapsed, count up by one from the block asked for over any crash schedule, and the recorded position is the last recorded block plus one. |
| Delivery.DropsNeverEndAListener | events.go:241-249 | Dropped streams and reconnectable refusals, in any number and order, leave the listener running. |
| Delivery.NilMeansContextEnded | events.go:238-248 | A listener that returns nil saw its context end. |
| Delivery.ItemErrorsAreFinal | events.go:273-290 | A handler or checkpoint error ends the run whatever its kind, and is the error returned, except that the block listener returns nil once the context has ended. |
| Delivery.FailurePoint | events.go:226-233 | Everything before a failed item was kept; a failed handler leaves no trace, a failed checkpoint one accepted item, unrecorded unless the store or an atomic handler kept it. |
| Delivery.GivesUpExactlyOn | events.go:332-339 | A refused subscription ends a listener exactly for the four codes that say the request is wrong, or when the first coded text, a peer's report or the status text, says so. |
| Outcomes.SessionIsSettled | events.go:238-249 | At every point of every run, a session whose items went well ends in exactly one way: nil for an ended context; else the denial, by kind, by status code or by coded text, returned without another sleep or item; else one sleep, then nil if it was cut short, or the next session with the next delay. |
| Outcomes.DeniedListenerGivesUp | events.go:332-339 | A listener that may not subscribe, or whose client is closed, gives up at once with exactly that error and what it had. |
| Outcomes.DeathIsFinal | events.go:226-233 | A process that dies over an item leaves exactly what its items left. |
| Progress.TroubledSession | events.go:222-249 | A session with only connection trouble sleeps once, the minimum after a delivery and the current delay otherwise, and doubles it under the cap. |
| Progress.TroubledRun | events.go:221-249 | Over a whole run, the items accepted and the time slept are those computed from the deliveries session by session. |
| Progress.SleepBound | events.go:221-249 | While items remain and never more than `f` sessions in a row deliver nothing, total sleep is at most deliveries times the sum of the first f + 1 delays, plus those of one more gap. |
| Progress.ProgressWithinBound | events.go:221-250 | If no more than `f` sessions in a row deliver nothing until n items are accepted, n times (f + 1) sessions accept at least n items, and while fewer are accepted the listener has slept at most n times the sum of the first f + 1 delays. |
| Progress.ProgressAtEverySession | events.go:221-250 | The same after every session of the run, so the sleep before the session that accepts the n-th item is bounded too. |
| Progress.EverythingIsDelivered | events.go:208-213 | With an anchor, that many sessions for what the log holds accept all of it, in whatever bursts, and with any idling afterwards. |
| Forwarder.StepKeepsInv | events.go:173-193 | Every step of peer, goroutine, consumer, `Close` or contexts keeps the stream's invariant. |
| Forwarder.StreamContract | events.go:156-195 | Over every interleaving: delivered is, field by field, a prefix of what the peer sent; at most one read event is lost, only after the stream's context ended; the error is set exactly when upstream ended and both contexts were then seen live; the gateway is released once, at the goroutine's end. |
| Forwarder.ClosedStreamError | events.go:187-191 | That error says the network is unavailable, 503, with the closed stream as its message and cause. |
| Forwarder.FinalAfterClose | events.go:137-143 | Once the channel is closed, error and delivered events never change. |
| Forwarder.EndWithoutErrorMeansContextEnded | events.go:187-191 | A stream nobody closed that ends without an error ended because the caller's context did. |
| Forwarder.NoLeak | events.go:173-193 | With the stream's context over and upstream closed, the goroutine alone exits within seven steps, closes the channel and releases once, delivering nothing more. |
| Streams.StreamIsASession | events.go:222-237 | For every interleaving of a stream that is sent what a subscription is served: what the consumer receives is a prefix of it, handling that is handling the session's items, and a stream nobody closed ends with the session's error, or with none when the caller's context is over. |
| Contract.FabricClient.Gateway | contract.go:55-70 | Each outcome exactly under its condition: a configuration error for a closed client or a missing identity, the shared gateway, a new one for another identity, or its failed connection; only the new one is counted. |
| Contract.FabricClient.Close | client.go:190-205 | Closes the shared gateway the first time only. |
| Contract.FabricClient.Evaluate | contract.go:101-125 | The answer or its classified error, with the number of open gateways unchanged on every path. |
| Contract.FabricClient.LookUp | contract.go:260-303 | With a gateway and a proposal, not found exactly when "no such transaction ID" occurs in the status message, in a detail the Gateway added, or in the error's wording; found with its verdict; else an error; open gateways unchanged. |
| Contract.FabricClient.SubmitAsync | contract.go:169-211 | The first phase that fails decides the error and gives the gateway back; success hands it to a fresh pending transaction with the endorsed payload and the proposal's ID. |
| Contract.FabricClient.SubmitWith | contract.go:142-148 | The result is that of the phases in order; exactly an unconfirmed status leaves another identity's gateway open. |
| Contract.PendingTx.Release | contract.go:236-238 | Gives the gateway back the first time only. |
| Contract.PendingTx.Wait | contract.go:216-234 | Returns what the status says, with the ID and the payload; a definite status releases, an unconfirmed one does not. |
| WriteProtocol.StepKeepsInv | contract.go:169-234 | Under the four conditions every event, in any order, keeps the protocol's invariant. |
| WriteProtocol.GuidanceIsSafe | errors.go:100-112 | Over any number of attempts and any behaviour of orderer and network at most one attempt is applied; success means exactly that one; an unknown outcome means at most the transaction named in the error; a definite failure means none, now or later. |
| WriteProtocol.SubmitWithIsAnAttempt | contract.go:142-148 | A submission's result is exactly what the protocol's steps leave the client with: done on success, free to resend exactly on a retryable error, unsure exactly on an open outcome, stopped on any other. |
| WriteProtocol.LookUpSettles | contract.go:242-277 | Found valid is done, found invalid may be sent again, and not found settles nothing unless the client takes it for "not ordered". |
| WriteProtocol.UnsureNeedsBroadcast | errors.go:286-311 | With fresh endorsement errors, an outcome is open only on a run on which a broadcast was answered. |
| WriteProtocol.BothApplied | errors.go:78-80 | A client free to resubmit while its first attempt may still be ordered can have both applied. |
| WriteProtocol.ResubmitsTooEarly | contract.go:245-247 | Dropping any of the four conditions leads there. |
| WriteProtocol.SafeExactlyWhenSound | errors.go:302-309 | At most one attempt is applied on every run if and only if the four conditions hold. |
| Pending.AnswersAgree | contract.go:153-165 | Over every interleaving of waits, releases and look-ups: released at most once, and already released when a definite answer is out; all definite answers and found look-ups agree, after any number of unknown outcomes. The errors of a wait are taken to be the library's own, not classified before. |
| Pending.ReplyMatches | contract.go:224-233 | An answer of a wait is definite exactly when the status was read, and then says what the ledger says. |
| Pending.WaitIsARun | contract.go:216-234 | An undisturbed wait moves the machine exactly as the method's contract says: answer, release at most once, mutex free again. |
| Gateways.GatewaysAreConserved | contract.go:55-70 | In every reachable state, connected minus disconnected gateways are exactly the holders in flight or kept by an unreleased pending transaction; each release has run once if its holder is through and never otherwise; only `Close` closes the shared gateway, once; all this also when `Close` comes between a call's test and its connection. |
| Gateways.ClosedAdmitsNobody | contract.go:55-69 | After `Close` nobody new gets a gateway, and no more are connected than calls were waiting for one. |
| Gateways.EveryWaiterConnects | contract.go:55-69 | That bound is reached from every state: all who wait for a gateway can be connected. |
| Gateways.NothingConnectsExactlyWhenNobodyWaits | contract.go:55-69 | From every closed state, no run connects anything if and only if no call is waiting for a gateway. |
| Gateways.ConnectsAfterClose | contract.go:55-69 | A closed state with a waiting call can be reached, and then connects. |
| Gateways.SubmitWithIsARun | contract.go:142-148 | A waiting submission moves exactly the gateways its method's contract says, and its holder stays entitled to one exactly after an unconfirmed status. |
| Deadlines.AnyNegative | config.go:159-164 | The loop answers whether any timeout is negative. |
| Deadlines.ValidateNetwork | config.go:131-141 | Reports exactly the network problems, and none when the connection is the caller's. |
| Deadlines.ValidateIdentity | config.go:142-152 | Adds exactly the identity problems, in order. |
| Deadlines.Validate | config.go:129-169 | Reports exactly the problems the config has, each once and in order, as one configuration error; no error if and only if the config is acceptable. |
| Deadlines.EveryProblemIsNamed | config.go:165-167 | The text of every reported problem occurs in the error. |
| Deadlines.AcceptedExactlyWhen | config.go:129-169 | A config is accepted if and only if its target has text, no timeout is negative, it brings an identity or all that is needed to load one, and, when dialling, all that is needed to dial. |
| Deadlines.SubmitEndsExactly | config.go:105-117 | A submission takes each phase's work cut at its timeout, in numbers where the config says nothing; with a deadline of the caller's, all its work cut there. |
| Deadlines.BoundedExactlyWhen | client.go:315-324 | A phase is bounded if and only if the caller set a deadline or its timeout is positive. |
| Deadlines.SubmitIsBounded | config.go:105-116 | Under every accepted config no phase is unbounded, and a submission is over by the caller's deadline, or else within its three timeouts together. |

## Left out

- Dialling, TLS, certificates, PEM and HSM loading, the gRPC connection and the loaded identity that `Close` also closes.
- fabric-gateway, protobuf and the peer itself: their answers are parameters. What a peer serves follows the fakes of the repository's tests; numbers a client puts on the wire wrap at 64 bits in the library, here they do not.
- Logging, observers, handle getters, `Is...` helpers, delegating methods, `Height`, `proposalOptions`, `grpcTarget`, `serverNameFor`: easy members.
- Real time and scheduling: a logical clock, and atomic steps in any order.
- Listener.ListenChaincodeEvents: runs over a finite script, whose end means the process is gone; unbounded runs appear as scripts of every length. Here a stream is a sequence of items; that the channel amounts to one is `Streams.StreamIsASession`.
- Listener.ListenBlocks: a block is its number alone; its contents reach the handler unread.
- Delivery.AtLeastOnce: the runs share one configuration, and what a file checkpointer writes to disk is the library's; a store either keeps the new position or the old one.
- Forwarder.StreamContract: the goroutine's shared fields are a value that steps change, so the mutex around the error and the memory behind the channel do not appear.
- Pending.AnswersAgree: an error of a wait that already carries an SDK error, which `classify` hands through, is not modelled; `WriteProtocol.SafeExactlyWhenSound` shows why that assumption matters. Mutex and `sync.Once` are states of the machine; the class `Contract.PendingTx` has the same methods for one caller at a time.
- Gateways.GatewaysAreConserved: holders are a map of values; the methods of `Contract` are tied to it by their contracts and `Gateways.SubmitWithIsARun`, streams and block sessions by their deferred release alone.
- WriteProtocol.GuidanceIsSafe: one writer; other clients' transactions take no part beyond the verdicts they cause.
- Classification.StrictOnlyDropsKeywords: strict is a fallback without keywords, lenient one with any keyword function; `FallbackFor` maps the setting to the two.
- Strings are sequences of Unicode scalars instead of bytes. White space is Go's table; lower-casing is exact for whatever can become an ASCII letter, which is all the phrases can see.
- Messages of errors are structured, with `Message.Text` as their wording.
- The text of an SDK error is its own rendering; text that other code wraps around one is left out.
