# Verified kernels of the knowledge agent

This project models the stateful kernels of the retrieval and agent backend and proves what they promise, for every
input, every interleaving and every run. There is one file per kernel.

| file | kernel |
|---|---|
| `Registry.dfy` | the retrieval pipeline cache, its per-key build locks, invalidation and refresh as interleaved blocks |
| `AnswerStream.dfy`, `AnswerTokens.dfy` | the streaming answer sanitizer, for every way of cutting a text into deltas: marker lines, and identifiers |
| `IsoTime.dfy`, `SyncJobs.dfy` | ISO timestamps as ordered texts; the sync-job queue with leases, recovery and many workers |
| `BugGraph.dfy`, `BugDetails.dfy` | the bug-diagnosis graph: nodes as partial updates, clarification, retries, evidence grades, evidence map, what a call leaves in its thread |
| `ResultCache.dfy`, `ResultKey.dfy` | the bounded cache of metric results against an unbounded timed map; its JSON keys |
| `Citations.dfy`, `RetrievalBudget.dfy` | the choice of public citations; the retrieval budget and the evidence collectors |
| `MarkdownSplit.dfy`, `SplitReply.dfy` | the two text splitters: when they end, what they cover, what they keep |
| `IdentityMerge.dfy`, `FeishuEvents.dfy` | identity merge under failures and retries; the event table in both database versions |
| `BoundedValue.dfy` | the bounds on evidence that is given to the model |

A class mirrors each object of the source that changes its fields, and its methods are proved against functions on
values. Concurrency, failures and restarts are step systems: one SQL transaction, one block under a lock, or one stretch
between two awaits is one step. Lemmas about runs hold for any number of steps in any order. What the code cannot know -
the clock, new ids, the log platform, the retriever, the parser, the model - is a parameter or an arbitrary answer.

## What the proofs found

- Streaming: the promise that a memory marker line is never reached holds for every chunking exactly when the line is
  plain. A marker line is not plain exactly when it carries a bold mark (`**` or `__`), or can be read only as markers
  spelled with a dotted capital or dotless small i (`NotPlainExactly`). `_possible_memory_prefix_start` does not hold
  those back, although `_INTERNAL_MEMORY_LINE` matches them. `BoldLineLeaks` is one such line and two deltas.
- Streaming: an internal identifier (a watched word, a hyphen or underscore, and the letters, digits and `._:/-` after it)
  is handed over in one piece by every chunking exactly when no listed word begins inside it and goes on behind its end,
  or ends with it before a separator (`KeptWholeExactly`, for texts without marker lines and without runs as long as the
  tail). "code-a.chunk id" is cut behind "code-a." (`SplitsIdentifier`): `_STREAM_INTERNAL_SUFFIX` matches "chunk id" at
  the end of the buffer and no longer matches from "code-" on.
- Markdown: the split loop ends on every content exactly when `overlap_chars <= 100` or `max_chunk_chars <= 101`. The
  constructor accepts more, its own defaults 1800 and 180 among them: a heading line of 101 characters before a long
  line keeps the loop at its start for ever (`TrapHolds`, `DefaultsTrapped`).
- Identity merge: the attempt that completes a job records all the conversations that moved exactly when no earlier
  attempt had moved any (`RecordsAllExactly`). A call leaves a failed job whose work is all done exactly for the faults
  listed in `Ruined`: in an attempt that reaches the try statement, the first exception comes when nothing is left to
  do - from the audit event, say - and the handler's update is applied (`FailedThoughDoneExactly`). `CountForgotten` is
  a run in which the retry then records no conversation instead of one.
- Diagnosis: whatever the outside world answers, a call leaves the evidence map as it was exactly when it is cancelled,
  its history lookup fails, it carries a run id, it is no resume, the interrupted call had no run id either, or the log
  platform is never called (`LeavesNothingExactly`). `EntryStays` is two calls after which an entry is left for good.
- Citations: with the quality gate on, an eligible citation whose `_retrieval` is neither a dictionary nor empty raises.
- Reply splitting: `split_reply` returns exactly for `max_chars >= 1` or a text of white space alone (`EndsExactly`). The
  function does not check that; its caller's setting is at least 500 (`knowledge/config/settings.py`, lines 437-442).

## Model

| member | source | states |
|---|---|---|
| Registry.RetrievalPipelineRegistry.Recheck | knowledge/agent_runtime/pipeline_registry.py:94-98 | the second check sees the cache and the generation of one instant |
| Registry.RetrievalPipelineRegistry.PublishBuilt | knowledge/agent_runtime/pipeline_registry.py:105-112 | a built pipeline is published exactly when the key is absent and no invalidation came since the check |
| Registry.RetrievalPipelineRegistry.Invalidate | knowledge/agent_runtime/pipeline_registry.py:182-205 | the generation grows, exactly the covered keys go, and their number is returned |
| Registry.RetrievalPipelineRegistry.EvictScope | knowledge/agent_runtime/pipeline_registry.py:191-205 | the same for a normalised scope, by the deletion loop |
| Registry.RetrievalPipelineRegistry.PublishReplacements | knowledge/agent_runtime/pipeline_registry.py:173-180 | exactly the keys that still hold their snapshot are replaced, and counted |
| Registry.CachedNeverStale | knowledge/agent_runtime/pipeline_registry.py:80-205 | in every interleaving of get, refresh and invalidate, no cached pipeline began building before an invalidation that covers its key |
| Registry.OneBuilderPerKey | knowledge/agent_runtime/pipeline_registry.py:86-112 | one builder per key, and the key stays absent until it publishes, so the `existing` branch is never taken |
| Registry.BuildsBounded | knowledge/agent_runtime/pipeline_registry.py:86-112 | a get builds at most once more than there were invalidations during the call |
| Registry.GenerationCounts | knowledge/agent_runtime/pipeline_registry.py:191-192 | the generation is the number of invalidations |
| Registry.NoDeadlock | knowledge/agent_runtime/pipeline_registry.py:86-112 | while a call is unfinished, it or the holder of its build lock can take its own next step |
| Registry.ReturnsCached | knowledge/agent_runtime/pipeline_registry.py:80-112 | what get returns was cached under its key at an instant of the call |
| Registry.InvalidateReaches | knowledge/agent_runtime/pipeline_registry.py:189-202 | an invalidation reaches exactly the keys that its blank, missing or given arguments mean, written out on the texts |
| Registry.KeysAgree | knowledge/agent_runtime/pipeline_registry.py:80-85 | two gets share a key exactly when their trimmed app and domain agree, a missing domain counting as blank |
| Registry.HitsReturn | knowledge/agent_runtime/pipeline_registry.py:86-98 | a hit is returned without a build, at the lookup and at the recheck; only a miss at the recheck leads to a build |
| AnswerStream.PublicAnswerStream.Feed | knowledge/agent_runtime/public_answer.py:211-255 | one delta changes buffer, block and emitted flag as the stream function says |
| AnswerStream.PublicAnswerStream.TakePiece | knowledge/agent_runtime/public_answer.py:215-251 | what is taken off the buffer: up to a marker line, up to a line that may become one, or up to the cut |
| AnswerStream.PublicAnswerStream.FindCut | knowledge/agent_runtime/public_answer.py:234-246 | the cut before a split identifier, or before the shortest tail of up to eight characters that begins a watched word; what that keeps together is said by the AnswerStreamTokens rows |
| AnswerStream.PublicAnswerStream.Flush | knowledge/agent_runtime/public_answer.py:257-268 | the rest, or the fallback sentence |
| AnswerStream.SearchLeftmost | knowledge/agent_runtime/public_answer.py:24-30 | the search finds the first marker line and only that |
| AnswerStreamProofs.NeverReachesPlainMarkerLine | knowledge/agent_runtime/public_answer.py:211-268 | for every chunking, the released raw text is a prefix that ends before every plain marker line |
| AnswerStreamProofs.SafeExactlyWhenPlain | knowledge/agent_runtime/public_answer.py:47-57 | every chunking stops before the first marker line if and only if that line is plain |
| AnswerStreamProofs.SourceSafeExactlyWhenPlain | knowledge/agent_runtime/public_answer.py:17-44 | the same for the source's own word lists and any tail |
| AnswerStreamProofs.PlainWrittenOut | knowledge/agent_runtime/public_answer.py:24-30 | blanks, up to six hashes with blanks and a marker make a plain marker line |
| AnswerStreamProofs.LeakyChunks | knowledge/agent_runtime/public_answer.py:47-57 | for a first marker line that is not plain, two deltas that release part of it |
| AnswerStreamProofs.NotPlainExactly | knowledge/agent_runtime/public_answer.py:24-57 | a marker line is not plain exactly when it is bold or every marker it can be read as has a dotted capital or dotless small i |
| AnswerStreamProofs.BoldLineLeaks | knowledge/agent_runtime/public_answer.py:24-57 | a bold marker line of the source's lists, and two deltas that release its first character |
| AnswerStreamProofs.PlayFeeds | knowledge/agent_runtime/public_answer.py:211-255 | feeding the deltas one by one gives the buffer, the block and the pieces that the lemmas on chunkings speak of |
| AnswerStreamProofs.FlushHands | knowledge/agent_runtime/public_answer.py:257-268 | a flush after the feeds hands the rest of the buffer to the sanitizer unless the stream is blocked |
| AnswerStreamProofs.BlockedRelease | knowledge/agent_runtime/public_answer.py:215-225 | a feed that blocks lets go the text before the first marker line without the white space at its end |
| AnswerStreamProofs.TailKept | knowledge/agent_runtime/public_answer.py:247-251 | a buffer held from its beginning is kept whole up to the tail length, and keeps exactly the tail when it is longer |
| AnswerStreamTokens.NeverSplits | knowledge/agent_runtime/public_answer.py:17-21 | while the buffer never outgrows the tail, no boundary between released pieces lies inside an identifier without such an inner word |
| AnswerStreamTokens.KeptWholeExactly | knowledge/agent_runtime/public_answer.py:234-251 | in a text without marker lines and long runs, every chunking keeps an identifier in one piece if and only if no listed word inside it goes on behind its end |
| AnswerStreamTokens.SourceKeptWholeExactly | knowledge/agent_runtime/public_answer.py:17-23 | the same for the source's own word lists and any tail |
| AnswerStreamTokens.SplitsIdentifier | knowledge/agent_runtime/public_answer.py:17-21 | an identifier that two deltas split |
| AnswerStreamTokens.UnderWayHeld | knowledge/agent_runtime/public_answer.py:17-21 | a listed word at the end of a buffer, with a separator and letters, digits or `._:/-` behind it, is not begun to be handed over unless the buffer has outgrown the tail |
| AnswerStreamProofs.Lossless | knowledge/agent_runtime/public_answer.py:211-268 | a text without markers is released whole, whatever the deltas |
| AnswerStreamProofs.EmittedExactly | knowledge/agent_runtime/public_answer.py:211-268 | the emitted flag is set exactly when some call returned text |
| AnswerStreamProofs.FallbackExact | knowledge/agent_runtime/public_answer.py:257-263 | once blocked, feeds return nothing and a flush returns the fallback exactly when nothing was returned before |
| IsoTime.MicrosOrder | knowledge/catalog/repository.py:61-64 | calendar order is the order of instants |
| IsoTime.IsoOrder | knowledge/catalog/repository.py:61-64 | comparing two `_to_iso` texts byte by byte compares the instants, with or without microseconds |
| SyncJobs.CatalogJobs.Enqueue | knowledge/catalog/repository.py:797-859 | a job is added once per source, kind and target commit; blank kinds and webhooks without commit are refused |
| SyncJobs.CatalogJobs.ClaimNext | knowledge/catalog/repository.py:861-903 | grants the first due job, or none when no job is due; rows locked elsewhere are skipped as PostgreSQL does (lines 1544-1572) |
| SyncJobs.CatalogJobs.Finish | knowledge/catalog/repository.py:982-1021 | ends a job exactly for the worker and attempt that hold it, with the error of each refusal |
| SyncJobs.CatalogJobs.Requeue | knowledge/catalog/repository.py:1023-1102 | requeues exactly failed jobs, or the jobs of the lease that is named, for the instant that is given; field by field what changes and what stays |
| SyncJobs.CatalogJobs.RequeueStale | knowledge/catalog/repository.py:1104-1122 | running rows claimed at or before the cut-off are queued without worker but with their attempt, every other row stays as it was, and the count is theirs |
| SyncJobs.CatalogJobs.DeleteQueued | knowledge/catalog/repository.py:914-921 | deletes exactly a queued job |
| SyncJobs.SelectFirst | knowledge/catalog/repository.py:871-883 | the minimum by available_at, created_at and id |
| SyncJobRuns.AttemptCountsGrants | knowledge/catalog/repository.py:861-903 | in every run a job's attempt is the number of its grants |
| SyncJobRuns.GrantedOnce | knowledge/catalog/repository.py:861-903 | each (job, attempt) is granted once, to one worker |
| SyncJobRuns.ClosedOnce | knowledge/catalog/repository.py:982-1122 | each (job, attempt) is finished, given back or recovered at most once |
| SyncJobRuns.EndedByGrantee | knowledge/catalog/repository.py:982-1021 | whoever ends or gives back a lease is the worker it was granted to |
| SyncJobRuns.RecoveredLeaseIsDead | knowledge/catalog/repository.py:1104-1122 | after a recovery nothing ever happens under that lease again |
| SyncJobRuns.RecoveredWorkerRefused | knowledge/catalog/repository.py:982-1102 | the worker of a recovered lease can neither finish nor requeue the job with it |
| SyncJobRuns.SucceededIsFinal | knowledge/catalog/repository.py:861-1122 | the row of a succeeded job never changes again |
| SyncJobRuns.NeverRepeats | knowledge/catalog/repository.py:797-859 | no two rows ever share source, kind and target commit |
| SyncJobRuns.AlwaysStamped | knowledge/catalog/repository.py:61-64 | every stored time is the text of an instant |
| SyncJobRuns.ClaimTakesEarliest | knowledge/catalog/repository.py:871-883 | the claimed job is first by instants among the queued jobs that are due |
| SyncJobRuns.RecoversExactlyStale | knowledge/catalog/repository.py:1112-1120 | recovery takes exactly the running jobs whose claim instant is at or before the cut-off |
| SyncJobRuns.NotBeforeItsTime | knowledge/catalog/repository.py:871-883 | a job added or requeued for an instant is granted at no instant before it, unless it was requeued or recovered in between |
| SyncJobRuns.RecoveredByGrantTime | knowledge/catalog/repository.py:1112-1120 | a running lease is recovered by exactly the cut-offs at or after the instant of its grant |
| BugDiagnosis.BugDiagnosisGraphService.QueryPlatform | knowledge/bug_graph/service.py:536-553 | the retry loop yields the first result, or the last error |
| BugDiagnosis.BugDiagnosisGraphService.VisitOnce | knowledge/bug_graph/service.py:415-758 | one node: its update is merged, it pauses, or it raises |
| BugDiagnosis.BugDiagnosisGraphService.Invoke | knowledge/bug_graph/service.py:162-204 | the loop over nodes and edges is the walk of the graph, and it ends |
| BugDiagnosis.BugDiagnosisGraphService.Diagnose | knowledge/bug_graph/service.py:216-293 | threads, evidence map and reply after a call, for cancel, expiry, resume, fresh start and exceptions |
| BugDiagnosis.BugDiagnosisGraphService.HasPending | knowledge/bug_graph/service.py:295-305 | true exactly for a pending thread that has not expired; an expired one is deleted |
| BugGraphProofs.RetriesStop | knowledge/bug_graph/service.py:536-553 | between one and retries + 1 calls, every one but the last failed in a retryable way, and the last decides |
| BugGraphProofs.InitialCoversAll | knowledge/bug_graph/service.py:366-409 | the initial state, written key by key, has a value for every key of the state, so nothing of the thread is left under it |
| BugGraphProofs.FromUnderstand | knowledge/bug_graph/service.py:162-204 | what a whole run of the graph amounts to, in closed form: status, grade, citations, warnings, answer, evidence, outside effects |
| BugGraphProofs.FromInterrupt | knowledge/bug_graph/service.py:507-526 | the same for a run that resumes |
| BugDiagnosisRuns.RepliesAreSupported | knowledge/bug_graph/service.py:528-758 | in every run, the status, grade, citations, warnings and answer of a reply stand exactly on the evidence of this call |
| BugDiagnosisRuns.AsksForMissing | knowledge/bug_graph/service.py:415-473 | a reply asks for exactly what neither the intake nor what the call started from tells |
| BugDiagnosisRuns.QueriesAsTold | knowledge/bug_graph/service.py:322-348 | in every run, environment, trace and request time of a log query are each the first that the intake, the live thread and the earlier diagnosis give, with the cases in which thread and earlier diagnosis count |
| BugDiagnosisRuns.SearchesAsLogged | knowledge/bug_graph/service.py:599-652 | the code search is given the log count, the exception types, services and endpoints of this call's logs and their distinct frames in order |
| BugDiagnosisRuns.GradesNeedEvidence | knowledge/bug_graph/service.py:718-725 | `correlated` needs matched code and positive logs, `contract_supported` also a Swagger operation or a document |
| BugDiagnosisRuns.EffectsAreLawful | knowledge/bug_graph/service.py:528-676 | logs are queried only with environment and trace known, code is searched only after logs were found, the model is asked only after that |
| BugDiagnosisRuns.AsksExactly | knowledge/bug_graph/service.py:727-781 | the model is asked about exactly the logs, the code, the contracts and the grade of this call, as long as calls carry run ids |
| BugDiagnosisRuns.QueriesBounded | knowledge/bug_graph/service.py:538-553 | at most retries + 1 log queries, all before anything else |
| BugDiagnosisRuns.FreshIgnoresThread | knowledge/bug_graph/service.py:350-405 | a diagnosis that is no resume comes out the same whatever its thread held, but for what it inherits |
| BugDiagnosisRuns.OthersUntouched | knowledge/bug_graph/service.py:216-293 | a call reads and writes no evidence entry but its own |
| BugDiagnosisRuns.FreshRunLeavesNothing | knowledge/bug_graph/service.py:275-292 | with a fresh run id the evidence map is as before, after a return or an exception |
| BugDiagnosisRuns.EvidenceAlwaysEmpty | knowledge/bug_graph/service.py:216-293 | between calls that carry run ids the evidence map is empty, in every run |
| BugDiagnosisRuns.LeavesNothingExactly | knowledge/bug_graph/service.py:507-526 | for all answers of the world the evidence map stays as it was, exactly under a guard that the caller can check |
| BugDiagnosisRuns.EntryStays | knowledge/bug_graph/service.py:275-292 | two calls after which the guard fails and an entry is left |
| BugDiagnosisRuns.MissingShrinks | knowledge/bug_graph/service.py:415-473 | over any sequence of resumes the set of missing fields never grows |
| BugDiagnosisRuns.ResumesOnlyInTime | knowledge/bug_graph/service.py:969-973 | a pending thread is resumed exactly by messages before interrupt time plus time to live |
| BugDiagnosisDetails.StoryIsTold | knowledge/bug_graph/service.py:350-409 | in every run: the report begins the thread's story, a resume adds its message to it, and the problem stays the first report's |
| BugDiagnosisDetails.IntakeIsKept | knowledge/bug_graph/service.py:415-473 | the thread keeps what the intake told, and what it knew before where the intake is silent |
| BugDiagnosisDetails.CompletedIsDocumented | knowledge/bug_graph/service.py:475-684 | a completed diagnosis leaves its own signals, matches, hints and procedure in the thread |
| BugDiagnosisDetails.CancelDeletes | knowledge/bug_graph/service.py:228-235 | the cancelling message deletes the conversation's thread and does nothing else |
| ResultCache.MetricMCPResultCache.constructor | knowledge/agent_runtime/metric_mcp.py:22-25 | the limits are at least one second and one entry |
| ResultCache.MetricMCPResultCache.Get | knowledge/agent_runtime/metric_mcp.py:45-55 | the answer and the order of the entries after a get |
| ResultCache.MetricMCPResultCache.Put | knowledge/agent_runtime/metric_mcp.py:57-62 | the entries after a put and the eviction loop |
| ResultCacheRuns.SizeBounded | knowledge/agent_runtime/metric_mcp.py:45-62 | never more than max_entries, and one entry per key |
| ResultCacheRuns.ReturnsLatestPut | knowledge/agent_runtime/metric_mcp.py:45-62 | a value returned is the latest put under its key, unexpired |
| ResultCacheRuns.MissesExactlyCrowded | knowledge/agent_runtime/metric_mcp.py:45-62 | the cache answers like an unbounded timed map exactly for keys that were never crowded out since their last use |
| ResultCacheRuns.MissNeedsRivals | knowledge/agent_runtime/metric_mcp.py:61-62 | an unexpired key is missing only after max_entries distinct other keys were used since its last use |
| ResultKey.SharesExactly | knowledge/agent_runtime/metric_mcp.py:27-43 | two calls share a key text exactly when user, conversation and tool agree and the arguments agree but for white space in their texts, said by comparing the texts themselves |
| ResultKey.SpaceKeepsKey | knowledge/agent_runtime/metric_mcp.py:36-43 | one more white space character anywhere in the arguments leaves the key as it is |
| ResultKey.SpacelessKeysDiffer | knowledge/agent_runtime/metric_mcp.py:27-43 | without white space in the texts, keys are equal exactly when the arguments are |
| ResultKey.WriteSame | knowledge/agent_runtime/metric_mcp.py:28-34 | compact JSON text determines the value |
| ResultKey.NormalizeTwice | knowledge/agent_runtime/metric_mcp.py:36-43 | normal arguments are their own normal form |
| Citations.PublicCitations | knowledge/agent_runtime/context.py:171-307 | raises exactly when a citation that passes the gate has an odd `_retrieval`; otherwise the choice is good in the sense of PublicIsGood and PublicKinds |
| Citations.CollectDistinct | knowledge/agent_runtime/context.py:252-290 | the loop over keys and titles keeps the first of each |
| Citations.CollectFirsts | knowledge/agent_runtime/context.py:295-302 | the first citation of each type while there is room |
| Citations.SelectIndexes | knowledge/agent_runtime/context.py:295-306 | first of each type as far as they fit, then the earliest others, exactly max_count |
| Citations.PublicIsGood | knowledge/agent_runtime/context.py:171-307 | min(max_count, distinct) items from the run and through the gate, no two the same, all that pass shown unless the room is used up, min(max_count, types) types, and, apart from supplemental ones, exact first, then by scores and rank, all written out in numbers and texts |
| Citations.PublicKinds | knowledge/agent_runtime/context.py:293-306 | every type that passes is shown, or each citation shown is of its own type and the room is used up |
| Citations.PublicEarliest | knowledge/agent_runtime/context.py:293-306 | which distinct candidates are left out: never an earlier one for a later one of a type already shown |
| Citations.PublicKeepsOrder | knowledge/agent_runtime/context.py:223-307 | the order of the candidates is kept; without a gate, that of the run |
| Citations.RankedStable | knowledge/agent_runtime/context.py:228-235 | citations of one standing keep the order of the run |
| Citations.SupplementalThird | knowledge/agent_runtime/context.py:236-250 | supplemental candidates stand behind the two best others |
| Citations.CandidatesAre | knowledge/agent_runtime/context.py:223-250 | the candidates are exactly the eligible citations, best first apart from supplemental ones |
| Citations.DistinctRepresents | knowledge/agent_runtime/context.py:252-290 | distinct by key and title, and each candidate is represented |
| Citations.DroppedAreShown | knowledge/agent_runtime/context.py:252-290 | each citation that passes is shown by a kept one with its place or title, which with a gate is itself, supplemental, or no worse |
| RetrievalBudget.AgentRunContext.ReserveRetrieval | knowledge/agent_runtime/context.py:127-169 | duplicate first, then budget; a granted call stays within both limits |
| RetrievalBudget.SignatureExactly | knowledge/agent_runtime/context.py:149-163 | one signature exactly when each of the six fields, case-folded, holds the same letters and digits |
| EvidenceCollection.ReservePlan | knowledge/agent_runtime/rag_tools.py:584-602 | the reservation loop makes one task per granted modality |
| EvidenceCollection.PlanIs | knowledge/agent_runtime/rag_tools.py:570-582 | which modalities each task type plans, each once and in which order |
| EvidenceCollection.ReservedAsAsked | knowledge/agent_runtime/rag_tools.py:584-602 | in every interleaving each reservation is signed for its own collector's domain, task type, source and branch, and its query or a follow-up on it |
| EvidenceCollection.BudgetKept | knowledge/agent_runtime/context.py:127-169 | in every interleaving the call count is the sum of the signature counts and both limits hold |
| EvidenceCollection.EveryCallPaid | knowledge/agent_runtime/rag_tools.py:375-453 | every search and chunk lookup has its own earlier granted reservation of its collector and source |
| EvidenceCollection.CallsWithinBudget | knowledge/agent_runtime/rag_tools.py:375-453 | all collectors together make at most as many pipeline calls as were granted |
| EvidenceCollection.OncePerDomain | knowledge/agent_runtime/rag_tools.py:559-569 | evidence is collected once per domain and run |
| MarkdownSplit.SplitIfNeeded | knowledge/loaders/markdown_loader.py:113-147 | the parts are the stripped windows in order, numbered from 1; short chunks are left alone |
| MarkdownSplit.EndsOnAllExactly | knowledge/loaders/markdown_loader.py:18-26 | the loop ends on every content exactly when overlap is at most 100 or the chunk size at most 101 |
| MarkdownSplit.EndsExactlyWhenMoving | knowledge/loaders/markdown_loader.py:113-147 | the loop ends on a content exactly when every round moves forward |
| MarkdownSplit.TrapHolds | knowledge/loaders/markdown_loader.py:118-146 | for other accepted limits, a stripped section with a heading line on which the loop never ends |
| MarkdownSplit.DefaultsTrapped | knowledge/loaders/markdown_loader.py:18 | the default limits are among them |
| MarkdownSplit.WindowsCover | knowledge/loaders/markdown_loader.py:118-146 | the windows cover the content without gaps, within the limit, with the overlap |
| MarkdownSplit.NothingLost | knowledge/loaders/markdown_loader.py:118-146 | every character that is not white space is in a part no longer than the limit |
| MarkdownSplit.PartIdsDiffer | knowledge/loaders/markdown_loader.py:125 | part ids with different numbers differ |
| MarkdownSplit.ThreeDigitsWrite | knowledge/loaders/markdown_loader.py:125 | a part number is written in decimal with at least three digits |
| SplitReply.SplitReply | knowledge/feishu/messages.py:235-258 | the loop yields the messages that the paragraphs lay out |
| SplitReply.CutParagraph | knowledge/feishu/messages.py:248-255 | the branch for a paragraph that does not fit |
| SplitReply.InnerLoopEndsExactly | knowledge/feishu/messages.py:252-254 | the inner loop ends exactly for a limit of at least one |
| SplitReply.EndsExactly | knowledge/feishu/messages.py:235-258 | the function returns exactly for a limit of at least one or a blank text |
| SplitReply.ParagraphsJoin | knowledge/feishu/messages.py:239 | splitting at blank lines and joining give the text back |
| SplitReply.MessagesFit | knowledge/feishu/messages.py:235-258 | every message is non-empty and within the limit |
| SplitReply.MessagesTight | knowledge/feishu/messages.py:241-258 | no two neighbouring messages could have been one |
| SplitReply.MessagesConserve | knowledge/feishu/messages.py:235-258 | the messages are the cuts of the paragraphs in order, joined by paragraph breaks only |
| SplitReply.CutsConcat | knowledge/feishu/messages.py:252-255 | the cuts of a paragraph are its characters |
| IdentityMerge.UserAuthRepository.GetOrCreateMergeJob | knowledge/auth/repository.py:779-814 | one job per source and target; unknown ones are refused |
| IdentityMerge.UserAuthRepository.UpdateMergeJob | knowledge/auth/repository.py:816-850 | status, result and error are overwritten |
| IdentityMerge.UserAuthRepository.TransferConversationOwners | knowledge/auth/repository.py:761-777 | each row of the source becomes the target's, every other row stays as it was, and the count is theirs |
| IdentityMerge.UserAuthRepository.DisableAnonymousDevice | knowledge/auth/repository.py:281-298 | only an active device is disabled |
| IdentityMerge.UserAuthRepository.BindConversationOwner | knowledge/auth/repository.py:627-664 | the first bind decides the owner; others are refused |
| IdentityMerge.IdentityMergeService.Merge | knowledge/auth/merge.py:42-94 | under any faults: exactly when it returns, raises or dies, what a returning merge did, and the state after every other |
| IdentityMergeRuns.ConversationsConserved | knowledge/auth/repository.py:761-777 | in every run no conversation is lost, only the source's rows change and only to the target, and the counts add up |
| IdentityMergeRuns.EndsLikeCleanRun | knowledge/auth/merge.py:42-94 | a completed job leaves the source exactly what was bound to it since the last transfer; otherwise ownership is that of one clean run |
| IdentityMergeRuns.CleanAttemptCompletes | knowledge/auth/merge.py:42-94 | after any failures a clean attempt completes and leaves the source nothing |
| IdentityMergeRuns.CompletedChangesNothing | knowledge/auth/merge.py:52-53 | a completed job is given back unchanged |
| IdentityMergeRuns.DeviceSetOnce | knowledge/auth/repository.py:281-298 | `disabled_at` and `merged_to_open_id` are set at most once |
| IdentityMergeRuns.CompletedDisables | knowledge/auth/merge.py:66-70 | a completed job has disabled the device, into the target if it was active |
| IdentityMergeRuns.RecordsLastTransfer | knowledge/auth/merge.py:71-77 | in every run the recorded count of a completed job is that of its last transfer |
| IdentityMergeRuns.RecordsAllExactly | knowledge/auth/merge.py:58-77 | an attempt that completes the job records all that ever moved exactly when nothing had moved before it |
| IdentityMergeRuns.FailedThoughDoneExactly | knowledge/auth/merge.py:57-94 | the faults for which a call leaves the job failed though nothing is left to do |
| IdentityMergeRuns.AuditFailureForgetsCount | knowledge/auth/merge.py:78-94 | after a failed audit event the job is failed and a clean retry records no conversation |
| IdentityMergeRuns.CountForgotten | knowledge/auth/merge.py:78-94 | a run in which that happens to one conversation |
| FeishuEvents.FeishuEventRepository.Claim | knowledge/feishu/repository.py:63-102 | the select-then-branch claim: when it succeeds, and the whole row it leaves |
| FeishuEvents.PostgresFeishuEventRepository.Claim | knowledge/feishu/repository.py:171-211 | the insert-then-update claim is the same transition |
| FeishuEvents.FeishuEventRepository.Initialize | knowledge/feishu/repository.py:51-61 | afterwards no event is being processed: each that was is failed with ServiceRestart, and every other row stays as it was |
| FeishuEvents.FeishuEventRepository.MarkComplete | knowledge/feishu/repository.py:104-114 | only a processing event is completed |
| FeishuEvents.FeishuEventRepository.MarkFailed | knowledge/feishu/repository.py:116-127 | only a processing event is failed, with a sanitized error |
| FeishuEvents.Sanitized | knowledge/feishu/repository.py:117 | the error text is never empty and at most 100 characters |
| FeishuEvents.SanitizedIs | knowledge/feishu/repository.py:117 | it is the first hundred of the characters that may stay, or "Error" |
| FeishuEvents.FilteredJoins | knowledge/feishu/repository.py:117 | the filter works character by character, in order |
| FeishuEvents.SameClaim | knowledge/feishu/repository.py:63-211 | both versions claim the same events with the same rows |
| FeishuEventRuns.ClaimedAtMostTwice | knowledge/feishu/repository.py:63-127 | an event is claimed at most twice and its attempt is the number of claims |
| FeishuEventRuns.NeverWhileProcessing | knowledge/feishu/repository.py:63-127 | between two claims lies a failure or a restart |
| FeishuEventRuns.CompletedIsFinal | knowledge/feishu/repository.py:63-127 | after its completion an event is never claimed, completed or failed again |
| FeishuEventRuns.SplitClaimIsAtomic | knowledge/feishu/repository.py:178-211 | whatever comes between its two statements, a PostgreSQL claim is one SQLite claim at its last statement |
| FeishuEventRuns.InsertIsAtomic | knowledge/feishu/repository.py:178-192 | a PostgreSQL claim whose insert succeeds is one SQLite claim |
| BoundedValue.BoundedWithin | knowledge/bug_graph/service.py:915-947 | the result is within every bound on depth, fan-out, strings and keys |
| BoundedValue.UnchangedExactlyWithin | knowledge/bug_graph/service.py:915-947 | a value is left alone exactly when it is within the bounds |
| BoundedValue.TextKept | knowledge/bug_graph/service.py:915-927 | a text keeps its beginning, of the bounded length |
| BoundedValue.ContentKept | knowledge/bug_graph/service.py:924-947 | a list keeps its first thirty items, a dictionary the last value under each shortened key of its first thirty entries, each bounded one level deeper |
| BoundedValue.BoundedTwice | knowledge/bug_graph/service.py:915-947 | bounding twice is bounding once |
| BoundedValue.BoundedIsSmall | knowledge/bug_graph/service.py:915-947 | at most five levels and the sum of 30^i nodes for i up to 5 |

## Left out

- Freshness of overlapping refresh calls: the code keeps the older build when the later refresh loses the identity check.
- `refresh` with stale serving disabled, which is an invalidation and nothing more.
- `warm`, `warm_status` beyond the state field, and the retrieval services that a pipeline holds.
- What `sanitize_public_answer` does to a piece: it is a parameter. Case folding is modelled on the characters that can
  meet a marker or a watched word; characters whose folding is longer than one character are not in the model.
- Catalog sources and chunks, the foreign key from jobs to sources, and naive timestamps, which `_to_iso` refuses.
- The time window of a log query (range and end, derived from the request time).
- BugDiagnosis.BugDiagnosisGraphService.Diagnose: does not model `_run_users`, delta handlers, the incident recorder, task
  cancellation, or the fields of a match other than chunk id and heading; model-side bounds are in `BoundedValue.dfy`.
- The environment and trace patterns of the intake: its result is an arbitrary answer. `should_resume` and the wording of
  follow-up markers are not modelled.
- LangGraph checkpoints: a thread is the merged state after its last completed node, and one call at a time runs on it.
- Dictionary keys that are no strings in cache arguments, and floating-point scores that are not a number or infinite.
- The legacy argument form of `reserve_retrieval`; Unicode normalisation and `isalnum`, which are parameters.
- EvidenceCollection.EveryCallPaid: does not say how many results a search returns; Swagger inspection makes no pipeline call.
- The tool description promises at most three retrievals; the code bounds them by `max_calls`, and so does the model.
- Heading extraction, front matter and metadata of chunks, and chunk fields other than id, heading, content and part.
- IdentityMerge.IdentityMergeService.Merge: does not model the memory repository, whose merge is an arbitrary answer, nor
  two merges of one pair at the same time; its run lemmas are about one source and one target, and leave out merging an
  identity into itself.
- Timestamps of event rows, conversation titles and channels, and the length limits of names.
- HTTP routes, uploads, settings, command line, migrations, document generation, agents and their hooks.
