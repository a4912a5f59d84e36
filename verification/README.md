# OpsAssist in Dafny

OpsAssist is an internal operations assistant: it answers questions from company documents with
citations, runs a few tools, and lets a second person approve the sensitive ones. What it promises
is kept by ordinary code around the language models. This project models that code and proves the
promises for all inputs, all provider behaviours and all interleavings.

| files | what they model |
|---|---|
| `Audit`, `Redaction`, `Approvals`, `ApprovalRuns`, `ApprovalEffects` | the hash-chained audit log, what its redaction hides, and propose / approve / execute-once over it |
| `Resilience`, `Gateway`, `GatewayProperties`, `ProbeProperties`, `GatewayReference`, `StreamProperties` | circuit breakers and their probes, and the gateway's fallback chains, retries, deadlines and streams |
| `Ingest`, `IngestRuns`, `IngestEffects` | versioned re-indexing by any number of concurrent jobs |
| `Egress`, `EgressRuns`, `EgressEffects` | which texts of a conversation may leave the boundary, over interleaved turns |
| `RateLimit`, `RateWindows` | the token bucket behind status 429 (section 4 of RFC 6585) and Retry-After (section 10.2.3 of RFC 9110) |
| `Blocks`, `Parsing`, `ParsingProperties`, `DocumentStructure` | lines to blocks under a heading path |
| `Chunking`, `Grouping`, `Packing`, `Sections`, `ChunkContents` | blocks to units, sections and chunks |
| `Digest` | the content digest against the units it stands for |
| `Access`, `Retrieval`, `RetrievalProperties`, `RankFusion` | who may read which rows; rank fusion, relevance gate, one match per section |
| `Citations`, `CitationProperties`, `CitationEffects`, `Answers` | citation repair by greedy set cover, and the finished answer |
| `Memory`, `MemoryRuns`, `MemoryEffects` | the history window and the rolling summary |
| `Common`, `Labels` | shared values |

Code that changes state is a class whose methods are proved against functions on values; runs of
the system are sequences of those functions' steps, and the main results are about runs. Code that
computes is functions and methods with the source's loops. Separate files
(`ApprovalEffects`, `GatewayReference`, `DocumentStructure`, `ChunkContents` and their like) state
what those functions come to in other terms: of a request and the stored state, of a script of
provider answers, or of lines, units, hits and tokens.

SHA-256 over canonical JSON is a constructor: injective, and never the genesis value. Providers
are an arbitrary script of answers, errors, adapter crashes, delays and stream items. Database queries that rank
rows are arbitrary lists of rows their filter selects. Regular expressions have been applied
already: a sentence arrives as tokens, a line with its kind.

Where the obvious claim is not what the code does, the exact statement is proved instead:

* Cutting off the tail of the audit log is invisible (`TruncationIsInvisible`), and so is exactly
  the kind of edit that redaction hides (`EditIsReportedUnlessRedacted`).
* A half-open probe whose outcome is never recorded blocks its model for good
  (`ProbeBlocksUntilRecorded`).  A request leaves one out exactly when the probe's error does not
  count against the breaker, the client left or the adapter raised what is no provider error
  during it, or the deadline had passed before it (`ProbeStaysOutIff`, `StreamedProbeStaysOutIff`);
  `LeavingBlocksForGood`, `CrashBlocksForGood` and `LatenessBlocksForGood` are three such requests.
* A stream can end without a completion or failure event while its client is still there: when an
  adapter raises what is no provider error (`StreamsObeyTheProtocol`).
* A message can pass into the summarised part without any summariser having seen it, because the
  transcript is cut to 6000 characters (`FirstAnswerIsLost`); it is then lost for good
  (`CutOffIsLostForGood`).  Nothing is lost exactly when every transcript is within the limit
  (`AllSeenIffAllFit`).
* A search tool's reply names the sections it found, confidential ones included, and is saved
  without raising the conversation's class, so it can leave with a later turn (`SearchReplyLeaks`).
  What leaves above the limit always comes from such a reply (`OnlyRepliesLeak`), nothing does if
  every reply passes one check as it is saved (`NothingAboveTheLimitLeaves`), and any reply that
  fails the check can leave (`UnsafeSaveLeaks`).
* A tool call appends its audit row exactly when no handler crashes; a crash, as when a search
  cannot embed its question, rolls the whole call back (`EveryStepIsAudited`).
* The stream's `fallback_used` is also set by a retry on the same model (`StartedFallbackFlag`),
  the chat outcome's is not (`FallbackIffNotFirst`).
* The retrieval filter alone is right exactly for the classes a table's CHECK constraint admits
  (`FilterNeedsTheCheck`).
* The content digest sees neither a block's kind nor its page: marking a line as a heading can
  take a unit away unseen (`DigestMissesKinds`), and moving page breaks between paragraphs is never
  seen (`DigestMissesPages`, `RepaginationIsMissed`).  While no paragraph is split, the units are
  the same exactly when the paragraphs and items with their pages and paths are
  (`SameUnitsIffSameProse`).

## Model

| member | source | states |
|---|---|---|
| Audit.RedactIsIdempotent | src/opsassist/policy/audit.py:52-62 | redacting a redacted value changes nothing, so a stored row hashes to the digest of the entry it was built from |
| Redaction.RedactedAt | src/opsassist/policy/audit.py:52-62 | at every path of a redacted value: nothing behind a sensitive key but the mark in place of its value, and elsewhere what was there, strings over 500 characters cut |
| Redaction.SensitiveByItsWords | src/opsassist/logging_setup.py:38-42 | a key is sensitive exactly if, split at runs of "_" and "-" in lower case, it has one of the eight listed words or "api" followed by "key" |
| Redaction.LogsAreRedacted | src/opsassist/policy/audit.py:88-113 | every row of an appended log is the entry written, its arguments and result redacted and nothing else changed |
| Audit.AppendKeepsChain | src/opsassist/policy/audit.py:65-113 | appending any entry to an intact log leaves it intact |
| Audit.AppendedLogsVerify | src/opsassist/policy/audit.py:88-150 | every log built by appends alone verifies |
| Audit.HeadFixesContent | src/opsassist/policy/audit.py:65-85 | two intact logs have the same last hash exactly when all times and redacted entries agree |
| Audit.HeadsAreDistinct | src/opsassist/policy/audit.py:88-113 | no two positions of an intact log share a hash |
| Audit.TruncationIsInvisible | src/opsassist/policy/audit.py:128-150 | any prefix of an intact log verifies |
| Audit.EditIsReportedUnlessRedacted | src/opsassist/policy/audit.py:128-150 | a row with changed content is reported, and at that row, exactly when the change survives redaction |
| Audit.DeletionIsReportedAtSuccessor | src/opsassist/policy/audit.py:128-150 | removing a row is reported at its successor, or goes unnoticed for the last row |
| Audit.TamperEvident | src/opsassist/policy/audit.py:128-150 | any log that verifies and keeps the last hash has kept all protected content |
| Audit.VerifyChain | src/opsassist/policy/audit.py:128-150 | the result is intact exactly for intact logs; otherwise it names the first broken row and whether its link or its content is wrong |
| Approvals.Executor.RunTool | src/opsassist/tools/executor.py:307-389 | commits the state and outcome specified for a tool call - unknown, denied, invalid, executed or proposed, with one audit row - or, when its handler crashes, nothing |
| ApprovalEffects.UncallableIsDenied | src/opsassist/tools/executor.py:317-336 | a call of an unknown tool, with arguments that do not fit, or without the permission leaves one denial that says which, and nothing else |
| ApprovalEffects.VpnCallProposes | src/opsassist/tools/executor.py:338-367 | a permitted VPN call only proposes: an action waiting for 24 hours, its hash over tool, arguments and requester |
| ApprovalEffects.OtherCallsRun | src/opsassist/tools/executor.py:369-389 | any other permitted call leaves one row that says what its handler said, or nothing if it crashes |
| ApprovalEffects.RequestsAreBounded | src/opsassist/tools/registry.py:70-76 | VPN access can be requested for exactly 1 to 30 days |
| Approvals.Executor.CreateVpnProfile | src/opsassist/tools/executor.py:232-252 | adds one profile for the resolved employee, naming requester and action |
| Approvals.Executor.ApprovePending | src/opsassist/tools/executor.py:422-562 | commits the state and outcome specified for an approval, in every branch |
| Approvals.Executor.RejectPending | src/opsassist/tools/executor.py:565-593 | rejects exactly a waiting action whose approve permission the caller holds; the refusals change nothing |
| ApprovalEffects.UnconfirmedIsDenied | src/opsassist/tools/executor.py:447-497 | an approval that does not confirm a waiting action in time, by another holder of the permission, is denied and changes nothing but the log, except that an action out of time expires |
| ApprovalEffects.DenialSaysWhy | src/opsassist/tools/executor.py:447-497 | the row such an approval leaves, with the first reason that applies |
| ApprovalEffects.UnpermittedIsRejected | src/opsassist/tools/executor.py:499-515 | a confirmed action whose requester is no longer active and permitted is rejected |
| ApprovalEffects.UnnamedFails | src/opsassist/tools/executor.py:213-229 | a confirmed action that names no employee, or a name that several have, fails with the reason and makes no profile |
| ApprovalEffects.NamedIsExecuted | src/opsassist/tools/executor.py:517-562 | a confirmed and permitted action that names an employee is executed for that one: profile, closed action and row in full |
| ApprovalEffects.RejectDecides | src/opsassist/tools/executor.py:565-593 | a waiting action is rejected by a holder of the approve permission or its requester, with one row; any other rejection changes nothing |
| ApprovalEffects.ProfilesNameTheirEmployee | src/opsassist/tools/executor.py:213-252 | over every run each profile was made by one approval that confirmed its action, for the employee its stored arguments name - an id in the users table, or the one row found by name - until the requested 1 to 30 days later |
| ApprovalEffects.RanCallsWerePermitted | src/opsassist/tools/executor.py:307-389 | over every run each tool call logged as executed was of a known tool, not the VPN one, by a caller who held its permission when authenticated |
| ApprovalRuns.ProfilesAreExecutedActions | src/opsassist/tools/executor.py:232-252 | at every commit of every run VPN profiles and executed actions correspond one to one and agree on requester, approver and duration |
| ApprovalRuns.ExecutionsAreAuditedOnce | src/opsassist/tools/executor.py:422-562 | an action has one executed approval row if its status is executed, and none otherwise |
| ApprovalRuns.EveryStepIsAudited | src/opsassist/tools/executor.py:307-593 | approvals append one audit row each, calls one exactly when no handler crashes, rejections one exactly when they change the action; earlier rows stay, and a crashed call changes nothing |
| ApprovalRuns.DecisionsAreFinal | src/opsassist/tools/executor.py:422-593 | over every run a decided action never changes, and no action's tool, arguments, hash, requester or expiry do |
| ApprovalRuns.ExecutedAtMostOnce | src/opsassist/tools/executor.py:422-562 | no run executes an action twice |
| ApprovalRuns.ApproverHeldPermission | src/opsassist/tools/executor.py:395-405 | the approver of an execution was an active user with the approve permission when authenticated |
| ApprovalRuns.ExecutedActionsWereAuthorised | src/opsassist/tools/executor.py:422-562 | every executed action of every run had an approver other than its requester who confirmed the hash of exactly what is stored, in time, while the requester was still permitted |
| Resilience.CircuitBreaker.Allow | src/opsassist/gateway/resilience.py:63-77 | admits and marks a probe as specified |
| Resilience.CircuitBreaker.RecordFailure | src/opsassist/gateway/resilience.py:84-88 | counts, re-opens and releases the probe as specified |
| Resilience.FieldsFollowHistory | src/opsassist/gateway/resilience.py:47-88 | after any history the fields are the run of failures since the last success, its last time once it reached the threshold, and whether a probe is out |
| Resilience.AdmissionRule | src/opsassist/gateway/resilience.py:63-77 | a request is admitted exactly when the breaker has not tripped, or has cooled down with no probe out |
| Resilience.ProbeBlocksUntilRecorded | src/opsassist/gateway/resilience.py:70-88 | once a probe is out nothing is admitted until an outcome is recorded |
| Resilience.RecordingReleasesProbe | src/opsassist/gateway/resilience.py:79-88 | a recorded success re-admits at once, a recorded failure after the cooldown |
| Gateway.LLMGateway.Admit | src/opsassist/gateway/gateway.py:486-514 | skips a target for the specified reason, asking the breaker only when nothing else skips it |
| Gateway.LLMGateway.TryTarget | src/opsassist/gateway/gateway.py:401-474 | the attempts at one target are a stretch of the specified walk |
| Gateway.LLMGateway.Reach | src/opsassist/gateway/gateway.py:271-397 | the loop over targets performs exactly the specified walk |
| Gateway.LLMGateway.Chat | src/opsassist/gateway/gateway.py:213-246 | result, attempt log and state after a chat request are the specified ones |
| Gateway.LLMGateway.StreamChat | src/opsassist/gateway/gateway.py:271-397 | events, attempt log and state after a stream are the specified ones |
| GatewayReference.WalkIsReference | src/opsassist/gateway/gateway.py:401-535 | for every script the walk over the targets has the ending, log, calls, time and reports to breakers of a reference that keeps no breakers but reads admission and retries off each history |
| GatewayReference.ChatIsReference | src/opsassist/gateway/gateway.py:213-246 | so has a chat request as a whole: its result or error, log, cost, breakers and time |
| GatewayReference.BlockedIffOutside | src/opsassist/gateway/gateway.py:478-484 | without permission exactly the models that send data off the box are blocked |
| StreamProperties.StreamsEndRight | src/opsassist/gateway/gateway.py:317-397 | a stream that answered completes, with its usage and cost and a success for the breaker, exactly if it ends properly with no item too late; it fails midway exactly if one is, the provider reports an error or it stops; it is cut short exactly if the client leaves or the adapter crashes |
| StreamProperties.UnansweredStreamsFail | src/opsassist/gateway/gateway.py:271-316 | a stream no provider answered is one failure with the log, or cut short |
| StreamProperties.PartialIsEstimated | src/opsassist/gateway/gateway.py:622-627 | a broken stream is charged its prompt and a token per four characters shown, rounded up |
| GatewayProperties.AttemptLogIsOrdered | src/opsassist/gateway/gateway.py:401-474 | for every script the log follows the targets with attempts numbered 1..k up to the maximum, retries follow only retryable errors with a closed breaker, and nothing follows a success or a rejected request |
| GatewayProperties.ResultMatchesLog | src/opsassist/gateway/gateway.py:401-474 | chat is served exactly when the log ends in a success, by that model |
| GatewayProperties.NoProviderIffAllSkipped | src/opsassist/gateway/gateway.py:464-474 | the no-available-provider error means exactly that every target was skipped, once each |
| GatewayProperties.FallbackIffNotFirst | src/opsassist/gateway/gateway.py:119-121 | a chat outcome used a fallback exactly when its server is not the first target |
| GatewayProperties.OneCallPerProbe | src/opsassist/gateway/gateway.py:516-535 | an attempt made while half-open is the only one at its target |
| ProbeProperties.ProbeStaysOutIff | src/opsassist/gateway/gateway.py:401-474 | a chat request leaves a tripped target's probe out, and the target blocked at every later time, exactly when its attempt has an error that does not count, the client left or the adapter crashed during it, or the deadline had passed before it |
| ProbeProperties.StreamedProbeStaysOutIff | src/opsassist/gateway/gateway.py:271-397 | a stream leaves it out exactly then, or when the client leaves, the adapter crashes or an uncounted error comes after the first item |
| ProbeProperties.LeavingBlocksForGood | src/opsassist/gateway/gateway.py:455-459 | a client that leaves during a probe: nothing is logged and the model stays blocked |
| ProbeProperties.CrashBlocksForGood | src/opsassist/providers/openai_compat.py:69-72 | an answer that makes the adapter raise what is no provider error: nothing is logged, the request ends, and the model stays blocked |
| ProbeProperties.LatenessBlocksForGood | src/opsassist/gateway/gateway.py:422-425 | a first target that uses up the time: the second target's probe is never made and the model stays blocked |
| GatewayProperties.DelayIsCapped | src/opsassist/gateway/resilience.py:29-38 | a retry waits no longer than the cap: Retry-After if within it, else below the base doubled with every attempt |
| GatewayProperties.CallsAreLogged | src/opsassist/gateway/gateway.py:537-595 | provider calls are the log's attempts that were not skipped, plus the one that answered, was abandoned or crashed |
| GatewayProperties.ChatEndsByDeadline | src/opsassist/gateway/gateway.py:401-474 | with exact timers a request is over by its deadline, up to the writing of one usage record |
| GatewayProperties.NoEgressWithoutPermission | src/opsassist/gateway/gateway.py:478-514 | without permission no provider that sends data off the box is called |
| GatewayProperties.StreamsObeyTheProtocol | src/opsassist/gateway/gateway.py:271-397 | a stream is one failure, or a start, deltas and one completion or mid-stream failure, and the completed cost is the sum over all attempts - exactly if neither the client leaves nor an adapter crashes; else it is a beginning of that without a last event |
| GatewayProperties.DeltasComeFromTheStartedModel | src/opsassist/gateway/gateway.py:271-397 | all deltas come in order from the stream that answered, all of them if it completed, and no provider is called after its first item |
| GatewayProperties.StartedFallbackFlag | src/opsassist/gateway/gateway.py:315 | the start event's flag is set exactly for a later target or a later attempt |
| Ingest.VectorsLineUp | src/opsassist/knowledge/ingest.py:118-147 | embedding in batches gives every chunk the vector of its own text |
| Ingest.Index.Check | src/opsassist/knowledge/ingest.py:118-130 | unchanged exactly when the active version has the same digest and model |
| Ingest.Index.Swap | src/opsassist/knowledge/ingest.py:141-211 | the whole new index, and the result, are the specified ones; a count mismatch or unchanged content leaves it alone |
| Ingest.Index.Deactivate | src/opsassist/knowledge/ingest.py:223-240 | retires the active version and silences all its chunks, or changes nothing |
| IngestEffects.SwapDecides | src/opsassist/knowledge/ingest.py:141-211 | a swap leaves content alone that is indexed as it is, rejects vectors that do not match the chunks, and else retires what is active for the key and adds the next version with its rows in the table of its class |
| IngestEffects.RemovalWithdraws | src/opsassist/knowledge/ingest.py:223-240 | in every run a removal marks its key's active version deleted, silences all the key's rows in both tables, and touches nothing else |
| IngestEffects.RemovedIsGone | src/opsassist/knowledge/ingest.py:223-240 | from then until a job for the key is swapped in, the key has no active version and retrieval finds nothing of it |
| IngestEffects.BatchesAreSmall | src/opsassist/knowledge/ingest.py:133-138 | the result depends only on what the provider answers to batches of 1 to 32 texts |
| IngestEffects.AnsweredIsEmbedded | src/opsassist/knowledge/ingest.py:133-138 | embedding fails only if the provider fails on a batch |
| IngestRuns.OnlyTheActiveVersionIsVisible | src/opsassist/knowledge/ingest.py:141-211 | at every commit of every interleaving a key has at most one active version, its newest, and the active chunks over both tables are that version's, in the table its class selects |
| IngestRuns.JobsStayFiled | src/opsassist/knowledge/ingest.py:171-211 | each version holds exactly the chunks, with their vectors, of the one job that created it, in one table, for good |
| IngestRuns.EveryVersionHasAJob | src/opsassist/knowledge/ingest.py:171-188 | every stored version was made by a job of the run, as its row says |
| IngestRuns.EveryRowIsAChunk | src/opsassist/knowledge/ingest.py:189-211 | every row of either table is one chunk of the job that made its version, at its index, with the vector that job got for it |
| IngestRuns.EveryRowHasItsVector | src/opsassist/knowledge/ingest.py:133-211 | with a provider that answers text by text, that vector is the one of the chunk's own embedded text |
| IngestRuns.VersionsRise | src/opsassist/knowledge/ingest.py:160-169 | versions of a key strictly increase |
| IngestRuns.VersionsOnlyGrow | src/opsassist/knowledge/ingest.py:160-169 | versions are only added, and a retired one never becomes active again |
| IngestRuns.SameContentCreatesOneVersion | src/opsassist/knowledge/ingest.py:118-161 | jobs with one digest and model, with nothing else touching the key between them, create one version in total if the content is new and none if it is current |
| Egress.FirstMaxIsTheFirstMaximum | src/opsassist/config.py:24-30 | the most sensitive class is the first of the highest rank, unknown names ranking as confidential |
| Egress.AllowsMostSensitive | src/opsassist/config.py:122-126 | a list's class may leave exactly when every class in it may |
| Egress.EgressAllowedIff | src/opsassist/api/chat.py:153-159 | a turn may leave exactly when the class stored at its start and every source's class may |
| Egress.RememberBounds | src/opsassist/api/chat.py:162-173 | recording a turn's context never lowers the stored class and bounds every source, also when the write is skipped |
| Egress.ChatStore.Prepare | src/opsassist/api/chat.py:102-127 | one transaction reads history and class and stores the user's message |
| Egress.ChatStore.RememberContext | src/opsassist/api/chat.py:162-173 | changes the stored class as specified and nothing else |
| EgressEffects.ClassesInOrder | src/opsassist/config.py:24-30 | public may always leave, internal unless the limit is public, confidential and any unlisted class only if the limit is confidential |
| EgressEffects.HistoryIsTheWindow | src/opsassist/api/chat.py:102-127 | a turn's history is the summary, if any, and the window's messages in order, with the class stored at that moment |
| EgressEffects.AnswersAreSent | src/opsassist/api/chat.py:303-327 | in every run each answer call, first or second, carries the history and the sources of its turn and may go outside only if the class stored at its start and all its sources are within the limit |
| EgressEffects.OthersAreSent | src/opsassist/agent/service.py:129-156 | the judge gets the near misses, outside only if all are within the limit; a summary's transcript never goes outside |
| EgressEffects.AnswersCarryTheirPrompt | src/opsassist/agent/service.py:273-330 | an answer counts as drawn from all its prompt carried, and the second one replaces the first if there is one |
| EgressEffects.SummariesCarryTheirTexts | src/opsassist/memory.py:169-220 | a new summary counts as drawn from the messages it folds and the summary before |
| EgressEffects.OnlySavesChangeTexts | src/opsassist/api/chat.py:208-232 | a conversation gains texts only by a question, a saved draft, another reply or a turn's summary, as they are |
| EgressRuns.NothingAboveTheLimitLeaves | src/opsassist/api/chat.py:303-327 | over every interleaving in which each tool's reply was within the limit, or later turns were already kept inside, as it was saved, no prompt that reached an outside provider - review, answer, escalation or summary - was drawn, through sources, history or summary, from a class above the limit |
| EgressRuns.OnlyRepliesLeak | src/opsassist/api/chat.py:287-327 | over every interleaving whatever leaves above the limit was drawn from a saved tool's reply |
| EgressRuns.UnsafeSaveLeaks | src/opsassist/api/chat.py:287-298 | the check is exact: after any run, saving a reply that fails it has a continuation in which an outside provider gets a class above the limit |
| EgressRuns.SearchReplyLeaks | src/opsassist/agent/service.py:413-417 | the shortest such run: a search reply that names a confidential section, then a question with a public source |
| EgressRuns.StoredOnlyRises | src/opsassist/api/chat.py:162-173 | the stored class never falls |
| EgressRuns.StoredBoundsTheConversation | src/opsassist/api/chat.py:208-232 | at every commit the stored class bounds what every stored message and the summary were drawn from exactly if it bounds every saved tool's reply |
| EgressRuns.BoundedThroughoutIff | src/opsassist/api/chat.py:287-298 | it does so at every commit of a run exactly if it bounded each reply as the reply was saved |
| EgressRuns.LaterTurnsStayInside | src/opsassist/api/chat.py:153-173 | once a class above the limit is stored, every turn prepared later keeps its answer calls inside |
| EgressRuns.ReviewIsContained | src/opsassist/agent/service.py:129-156 | near misses go to an outside judge only if all of them may |
| RateLimit.AllowedInWindow | src/opsassist/ratelimit.py:38-63 | in any window of length T at most burst + rate * T requests are allowed |
| RateWindows.AllowedIffRoomThroughout | src/opsassist/ratelimit.py:38-63 | a request is allowed exactly if, for every stretch of time from an earlier request to it, those allowed and it are at most burst + rate * the stretch |
| RateLimit.RefusedRequestsAreFree | src/opsassist/ratelimit.py:38-63 | deleting refused requests from a history changes no other answer |
| RateLimit.AllowedOnceWaited | src/opsassist/ratelimit.py:51-59 | after a refusal, with none allowed between, a request is allowed exactly when the reported wait has passed |
| RateLimit.RetryAfterSuffices | src/opsassist/ratelimit.py:100-105 | waiting out Retry-After guarantees admission, and it is the least whole number of seconds, at least 1, that does |
| RateLimit.RemainingIsExact | src/opsassist/ratelimit.py:100-105 | the reported remainder is the number of further requests that would be allowed at once |
| RateLimit.ExpiryIsUnobservable | src/opsassist/ratelimit.py:60-61 | key expiry changes no answer |
| RateLimit.RateLimiter.RunScript | src/opsassist/ratelimit.py:38-63 | one key's bucket changes as specified and no other key's does |
| RateLimit.RateLimiter.Check | src/opsassist/ratelimit.py:88-105 | decides by the script; without Redis it allows and records nothing |
| Parsing.BlockBuilder.AddHeading | src/opsassist/knowledge/parsing.py:124-128 | pops and pushes the heading path as specified |
| Parsing.BlockBuilder.Feed | src/opsassist/knowledge/parsing.py:130-148 | feeding a page changes the builder as specified |
| Parsing.HeadingPathsAreRight | src/opsassist/knowledge/parsing.py:108-148 | for every sequence of pages every block's heading path is exactly the headings up to it that no later one of equal or smaller level closes, and its levels strictly increase |
| ParsingProperties.PagesAreOneText | src/opsassist/knowledge/parsing.py:96-148 | feeding pages gives the blocks of feeding them once joined by blank lines, page numbers aside |
| ParsingProperties.NoTextIsLost | src/opsassist/knowledge/parsing.py:108-148 | joined, the block texts are the joined texts of the lines |
| DocumentStructure.BlocksFollowTheLines | src/opsassist/knowledge/parsing.py:96-148 | for every document the blocks are the pieces of its lines - marked lines at their own level, runs of lines, items, one-line headings - in order, each with its page and the titles of the headings open there |
| Chunking.SplitIsReversible | src/opsassist/knowledge/chunking.py:81-89 | each piece starts with the last sentence of the one before, dropping those overlaps rebuilds the sentences, and a piece fits the target or has at most two sentences |
| Chunking.SplitUnits | src/opsassist/knowledge/chunking.py:71-90 | the units are the specified ones, block by block |
| ChunkContents.UnitsInFull | src/opsassist/knowledge/chunking.py:71-90 | every paragraph or item, numbered from 1, has one unit with its text, page and path or, if oversized, pieces of its sentences that each end as late as the target allows |
| Packing.PackUnits | src/opsassist/knowledge/chunking.py:93-108 | the loop packs exactly as the greedy grouping by heading path and token limit |
| Packing.PackingIsTheFewest | src/opsassist/knowledge/chunking.py:93-108 | packing loses and reorders nothing, never mixes heading paths, exceeds the limit only in single-unit groups, and uses the fewest groups of any order-preserving grouping that does |
| Grouping.GreedyIsFewest | src/opsassist/knowledge/chunking.py:93-108 | greedy grouping by any rule closed under parts needs no more groups than any other grouping |
| Grouping.GreedyIffFull | src/opsassist/knowledge/chunking.py:93-108 | greedy grouping is the one grouping in which no group could have taken one item more |
| ChunkContents.PackedIffDivides | src/opsassist/knowledge/chunking.py:93-108 | packing is the one way to divide units into groups of one heading path that are within the limit unless single and could not take the next unit |
| Sections.ChunkDocument | src/opsassist/knowledge/chunking.py:173-183 | the nested loops make the specified chunks |
| Sections.ChunksCoverTheDocument | src/opsassist/knowledge/chunking.py:147-183 | flattened, the chunks' units are the document's in order; indexes are 0..n-1; each text occurs in its context; only single-unit chunks exceed the target |
| ChunkContents.ChunksInFull | src/opsassist/knowledge/chunking.py:140-183 | the chunks are the parts of the sections in order, each with its lines, its section's lines, title and path, section heading, page, token count and locator |
| ChunkContents.PathLeavesOutTheTitle | src/opsassist/knowledge/chunking.py:111-113 | a path leaves out headings equal to the title and no others |
| Sections.SectionsAreContiguous | src/opsassist/knowledge/chunking.py:173-183 | section numbers start at 0 and rise without gaps, and chunks of one section share context and locator |
| Sections.LocatorsHoldTheirUnits | src/opsassist/knowledge/chunking.py:116-133 | a section's locator names a paragraph range that holds every unit of the section |
| Digest.SameUnitsIffSameProse | src/opsassist/knowledge/ingest.py:58-68 | documents whose paragraphs and items agree in text, page and heading path have the same units; with no paragraph to split, only those do |
| Digest.DigestMissesPages | src/opsassist/knowledge/ingest.py:58-68 | however a text is cut into pages between paragraphs, its digest is the same |
| Digest.RepaginationIsMissed | src/opsassist/knowledge/ingest.py:58-68 | two paragraphs on one page and on two, parsed: one digest, different units |
| Digest.DigestMissesKinds | src/opsassist/knowledge/ingest.py:58-68 | a heading and a line of its words, plain and marked as a heading, parsed: one digest, two units and one |
| Access.LayersAgree | migrations/versions/0004_knowledge_index.py:113-133 | on rows a table's CHECK admits, the SQL filter and the row-level policies both select exactly what the scope may read |
| Access.FilterNeedsTheCheck | src/opsassist/knowledge/retrieval.py:190-204 | the filter alone is right for every principal exactly for the classes the CHECK admits |
| Retrieval.Retrieve | src/opsassist/knowledge/retrieval.py:173-253 | fusion, gate, near misses and collapse compose to the specified result |
| Retrieval.CollapseSections | src/opsassist/knowledge/retrieval.py:256-266 | the loop with its set of seen sections keeps the first match of each |
| RetrievalProperties.ScoreIsTheSumOfShares | src/opsassist/knowledge/retrieval.py:206-226 | every row some query returned is one candidate, scored by the sum of 1 / (60 + rank) over its ranks |
| RankFusion.BetterRanksScoreHigher | src/opsassist/knowledge/retrieval.py:206-226 | a row no query ranks worse than another, and one ranks better, scores strictly higher; being found by one query more is being ranked better there |
| RankFusion.OneRankScores | src/opsassist/knowledge/retrieval.py:222 | a row found by one query at rank n scores 1 / (60 + n) |
| RankFusion.ScoresComeFromTheirKind | src/opsassist/knowledge/retrieval.py:223-226 | a candidate's similarity comes from vector queries alone and its text rank from full-text ones |
| RankFusion.ResultCounts | src/opsassist/knowledge/retrieval.py:228-253 | the result counts the candidates and those the gate stopped |
| RetrievalProperties.GateIsEmptyIff | src/opsassist/knowledge/retrieval.py:228-242 | the gate is empty exactly when no similarity reaches the threshold |
| RetrievalProperties.SurvivesIff | src/opsassist/knowledge/retrieval.py:226-242 | a candidate survives exactly when it reaches the threshold and no other is more than the relative margin better |
| RetrievalProperties.SortIsStable | src/opsassist/knowledge/retrieval.py:256-261 | sorting puts the best first and keeps the order of equals |
| RetrievalProperties.BestOfEachSection | src/opsassist/knowledge/retrieval.py:256-266 | one match per section, the best, for every section that has one |
| RetrievalProperties.ResultIsBestFirst | src/opsassist/knowledge/retrieval.py:228-253 | the result is empty exactly when nothing is relevant; it holds survivors only, at most as many as wanted, best first, one per section |
| RetrievalProperties.ResultIsTheTop | src/opsassist/knowledge/retrieval.py:239-253 | every survivor's section is represented by its best, or the result is full and its last scores no worse |
| RetrievalProperties.NearMissesAreNear | src/opsassist/knowledge/retrieval.py:232-244 | near misses exist only when nothing is returned, and lie within the review margin below the threshold |
| RetrievalProperties.NearMissesAreTheTop | src/opsassist/knowledge/retrieval.py:232-244 | when nothing is returned every candidate within the review margin is represented, or the near misses are full of better ones |
| RetrievalProperties.OnlyReadableRows | src/opsassist/knowledge/retrieval.py:190-253 | every returned chunk and near miss is one the caller may read |
| Citations.Best | src/opsassist/rag.py:219 | the source with the most missing figures, the earliest of several |
| Citations.RepointSentence | src/opsassist/rag.py:206-236 | rewrites the sentence and counts the changes as specified |
| CitationProperties.CoverCovers | src/opsassist/rag.py:214-223 | the greedy loop ends with every missing figure covered, by sources that each have one |
| CitationEffects.CoverIsGreedy | src/opsassist/rag.py:214-223 | each source of the cover has the most of the figures that those before it leave, the earliest of several |
| CitationProperties.RepairKeepsTheWords | src/opsassist/rag.py:206-236 | repair moves, drops and adds no words and states the same figures |
| CitationProperties.EveryKnownFigureIsCovered | src/opsassist/rag.py:206-236 | afterwards every stated figure some source has is in a source the sentence cites, if it cited one |
| CitationProperties.ChangedCitationsAreSupported | src/opsassist/rag.py:224-236 | in a changed sentence every citation of a retrieved source is to one with a stated figure |
| CitationProperties.ChangedSentencesDoNotRepeat | src/opsassist/rag.py:193-235 | a changed sentence never cites a source twice in a row |
| CitationProperties.RepairIsIdempotent | src/opsassist/rag.py:206-236 | a second pass changes nothing |
| CitationProperties.ChangesAreCounted | src/opsassist/rag.py:236 | the count is 0 exactly when the sentence needed no repair, which is exactly when it is unchanged |
| CitationEffects.ChangesAreTheDifference | src/opsassist/rag.py:224-236 | the count is the number of sources no longer cited and newly cited, the first replacement once |
| CitationEffects.CitationsStayInPlace | src/opsassist/rag.py:206-236 | every citation stays where it was among the words, those of dead sources now to the best source, and the rest of the cover follows the last; only repeats at one place may be fewer |
| CitationEffects.OnceLeavesAlone | src/opsassist/rag.py:196 | collapsing repeated markers changes exactly the sentences that repeat one |
| CitationEffects.SourcesOnceLeavesAlone | src/opsassist/rag.py:193-195 | collapsing repeated mentions changes exactly the sentences that mention a source again |
| CitationEffects.FiguresStayCited | src/opsassist/rag.py:206-236 | token by token: a stated figure that some source has, in a sentence that cites a retrieved source, is stated and in a cited source afterwards |
| Answers.Finalize | src/opsassist/rag.py:258-291 | the finished answer is the specified one, abstentions included |
| Answers.CitationsInOrderOfFirstUse | src/opsassist/rag.py:265-275 | the listed numbers are exactly the valid markers', in order of first use |
| Answers.OnlyInvalidMarkersGo | src/opsassist/rag.py:268-277 | only markers of sources not retrieved are removed, each is counted, and the words stay |
| Answers.FinishedAnswer | src/opsassist/rag.py:258-291 | the markers left are exactly the listed citations, all valid, and cover every known figure of a sentence that cited a retrieved source |
| Answers.AnswerInOrder | src/opsassist/rag.py:239-291 | the text is the sentences in order, each repaired by itself, with what was between them, less the invalid markers; those and the changes are counted |
| Answers.AbstentionCitesNothing | src/opsassist/rag.py:258-262 | an abstention is the fixed sentence without citations, every marker of the draft counted as invalid |
| Answers.RepairTwiceIsOnce | src/opsassist/rag.py:239-255 | repairing an answer again changes and counts nothing |
| Memory.ConversationStore.LoadWindow | src/opsassist/memory.py:135-166 | the newest-first loop returns the specified window |
| Memory.ConversationStore.UpdateSummary | src/opsassist/memory.py:169-220 | summary and number change as specified; too few messages or a failed call change nothing |
| Memory.WindowIsLongest | src/opsassist/memory.py:152-166 | the window is the longest run of the newest eligible messages within both limits |
| MemoryEffects.WindowHasTheNewest | src/opsassist/memory.py:135-166 | in every run the window has exactly the complete messages, not summarised while a summary is sent, that are within both limits together with all newer ones, in order |
| MemoryEffects.SummaryFoldsTheRest | src/opsassist/memory.py:169-220 | in every run a summary is due exactly if more than 12 complete messages are not folded; it asks with the first 6000 characters of the others' lines and, if answered, folds just those and keeps the last 2000 characters; else nothing changes |
| Memory.SeenIffWithin | src/opsassist/memory.py:193-206 | a message's line is whole in the transcript, at its place, exactly if it and the lines before it are within 6000 characters |
| MemoryRuns.SummaryNeverGoesBack | src/opsassist/memory.py:182-220 | the summarised number never falls, what summaries account for only grows, and a conversation with a summary keeps one |
| MemoryRuns.FoldedOnceInOrder | src/opsassist/memory.py:182-220 | what the successful summaries account for, end to end, is the complete messages from the first on: each at most once, in order, with no gap, never one of the newest 12 |
| MemoryRuns.SeenIffItFits | src/opsassist/memory.py:193-206 | a message that a summary accounts for was whole in any transcript exactly if it fitted its own summary's |
| MemoryRuns.AllSeenIffAllFit | src/opsassist/memory.py:182-220 | over every run each complete message up to the summarised number was whole in a transcript exactly if every successful summary's transcript was within the limit |
| MemoryRuns.CutOffIsLostForGood | src/opsassist/memory.py:135-220 | a message its summary's transcript cut off is whole in no later transcript and, once there is a summary, in no later window |
| MemoryRuns.FirstAnswerIsLost | src/opsassist/memory.py:193-220 | seven turns whose first question fills the transcript: the first answer is summarised away unseen |
| MemoryRuns.NothingIsSentTwice | src/opsassist/memory.py:135-166 | when a summary is sent, the window holds only messages not yet summarised, as many as fit |

## Left out

- Approvals.Executor.RunTool: the handlers of the search, status and ticket tools are inputs that say what they report, or that they crash; their own records are not modelled.
- Approvals.Executor.ApprovePending: name lookup is an arbitrary list of rows, argument schemas are an input that says valid or invalid, and refusal texts are values of a datatype.
- ApprovalEffects.ProfilesNameTheirEmployee: which rows a search for part of a name finds is arbitrary.
- Approvals.Executor.CreateVpnProfile: one clock serves the database and the application, in whole seconds.
- Redaction.SensitiveByItsWords: keys are put in lower case in ASCII only; the source folds every alphabet.
- Audit.VerifyChain: row numbers have no gaps, as rolled-back appends could leave; the advisory lock that serialises appends is the atomicity of each step.
- Gateway.LLMGateway.Reach: chat and streaming share one loop over targets in the model; the source writes it twice.
- Gateway.LLMGateway.StreamChat: a client that leaves after the last event, and partial usage estimates of streams cut short.
- Gateway.Walk: a client leaves only during a provider call here, not during the wait before a retry, when the errors so far are logged, the breaker knows of them and no call is open; breakers belong to one request's sequence of operations; other requests interleaving on the same breaker, and the jitter's distribution, are not modelled. That the targets are distinct models is a hypothesis of the results about positions in the log, fallbacks and probes (AttemptLogIsOrdered, FallbackIffNotFirst, OneCallPerProbe, StartedFallbackFlag, ProbeStaysOutIff) and of the reference (WalkIsReference, ChatIsReference): the catalog does not check a route's list for repeats.
- Gateway.LLMGateway.Chat: times and prices are reals; embedding requests, which take the same walk, have no model of their own.
- Ingest.Index.Check: the refusal to embed a confidential document with a provider that sends data off the box, which comes before the index is read.
- Ingest.Index.Deactivate: one atomic step; the source takes no advisory lock here.
- Ingest.Index.Swap: the advisory lock and row lock are the atomicity of the step; document metadata other than key, class, digest and model is not kept.
- Egress.ChatStore.Prepare: an atomic step; the source reads the stored class and the messages in two statements of one plain transaction, and an isolation level that shows the second a newer commit would pair an old class with a newer answer.
- Egress.ChatStore.RememberContext: an atomic step; the source reads and writes in one plain transaction.
- EgressRuns.NothingAboveTheLimitLeaves: the obvious claim for all runs is false, see `SearchReplyLeaks`; what a user types and fixed replies count as drawn from no document, and what a tool's reply was drawn from is arbitrary; which complete messages the window picks is arbitrary here; the question's embedding and routing calls, which carry only the question, are not logged.
- RateLimit.RateLimiter.Check: real arithmetic instead of Lua numbers; the choice of bucket by path and of identity by token, and the response itself, are not modelled; Redis and the callers share one clock.
- Parsing.BlockBuilder.Feed: which lines are items or headings is decided by regular expressions outside the model; lines arrive stripped.
- ParsingProperties.NoTextIsLost: table rendering and front matter are not modelled.
- Chunking.SplitUnits: where sentences end is a parameter.
- Sections.ChunkDocument: locators are records, not text, and the embedded text is kept as its heading lines and its body.
- Digest.SameUnitsIffSameProse: one direction for documents with a paragraph to split, as an arbitrary splitter may cut different texts alike.
- Access.LayersAgree: the session settings are sets; joining and splitting them at commas is not modelled.
- RankFusion.BetterRanksScoreHigher: that a query returns a row at most once is a hypothesis here and of OneRankScores, as the rows come by primary key.
- Retrieval.Retrieve: vector and full-text ranking are arbitrary lists; document versions and titles are not kept; latency is not measured.
- Citations.RepointSentence: markers, figures and the words between repeated mentions are tokens, and a marker is its number however it is written; on raw characters deleting a marker could create another.
- Answers.Finalize: whether an answer is an abstention is an input; surrounding white space is not stripped.
- MemoryRuns.FoldedOnceInOrder: the messages accounted for, not what summarisers saw of them, see `FirstAnswerIsLost`; what a model keeps of a transcript, and what the summary's own limit drops of older summaries, is not modelled.
- Memory.ConversationStore.UpdateSummary: runs are sequential, as one conversation's turns usually are; the summary call's answer arrives stripped.
- MemoryRuns.NothingIsSentTwice: an empty summary counts as none, and then folded messages may be in the window again.
- The agent graph's routing and resume, provider adapters, authentication, HTTP routes and events as text, metrics, logging, health checks, the console, upload rendering, preference memory and ticket de-duplication: plumbing or one-branch case analysis.
