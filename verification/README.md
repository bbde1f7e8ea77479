# Verified model of the agent harness core

A Dafny model of the parts of the harness whose correctness spans whole runs: context compaction, the transcript
codecs, the RPC client with its notification hub, request retries and their accounting, the schema cache protocol,
pause diagnostics, stream assembly, payload offloading and union schemas. `dafny verify dfyconfig.toml` checks it.

- **Compaction** (`Pairing`, `Compaction`, `SummaryParser`, `Checkpoint`, `Excerpt`). A transcript is cut at complete
  turns; its middle becomes one checkpoint. The model proves that tool calls stay next to their results over any run
  of turns and compactions, that nothing but the replaced middle is lost, and that a checkpoint printed within its
  character budget can always be read again. Costs, token estimates and generated summaries are parameters.
- **Codecs** (`Wire`, `Neutral`, `AnthropicCodec`, `AnthropicRoundTrip`, `AnthropicConservation`, `ChatCodec`,
  `ChatConservation`). Neutral history is encoded with
  deferred flushes and projected back; the round trip is an explicit normal form.
- **Client** (`NotificationHub`, `RpcClient`, `RpcOutcomes`, `EventReplay`). Every stretch of code without an await is one step.
  Responses are matched by id alone (section 5 of the JSON-RPC 2.0 Specification; notifications: section 4.1).
- **Retries** (`Retry`, `Usage`). The retry loop, and the counters that follow from it into the usage totals.
- **Schema cache** (`Bootstrap`, `BootstrapResults`, `SchemaUnion`). Processes share a directory; each file operation is a step, and a
  process may fail or vanish between any two of them.
- **Diagnostics** (`Diagnostics`), **streams** (`StreamAssembly`) and **offloading** (`Offload`).

Classes stand for the objects whose methods update fields (hub, waiters, client, replayer, usage buckets and
aggregator, cache directory, worker diagnostics, offload store); loops stand where the code loops. Each such method is
proved against a specification function or a direct statement, and the lemmas are about those. What a specification
function itself computes is stated once more in other terms: by filters over the inputs, from the events of a run alone,
or by what is read back. `Filter`, `Mapped` and `Flat` in `Wrappers` are the usual list operations; a lemma takes the test
it filters by as a parameter and says in its `requires` which one is meant.

Places where a promise does not hold as stated, each with a concrete run and, where there is one, the exact condition:

- A Chat history may hide a gap between a call and its answer behind a turn that encodes to nothing
  (`ChatCodec.InvisibleTurnHidesGap`; `ToolsFollowCallsIff` says exactly when the wire is in order).
- If the reader task dies outside its receive, later calls are accepted with nobody reading and wait for their timer
  (`RpcClient.StrandedIff`, `AcceptingWithoutReaderIff`, `CrashStrandsLaterCall`).
- An accepted live event moves the stored cursor past events that a failing replay never delivered
  (`EventReplay.ReplayMissesIff`, `LiveJumpHidesGap`).
- A call that ends in throttling or another raised error reports none of its retries
  (`Retry.RetriesAreLostIff`, `ThrottledCallLosesRetries`).
- The hit path rewrites an old manifest without the lock, and the rewrite truncates it first, so a second process may
  rebuild a good cache. A revision the server does not publish is left out of the manifest but compared as an empty
  text, so such a manifest is old for ever, and two processes with different guide revisions keep rewriting each
  other's (`BootstrapResults.RebuildsAtMostOnceIff`, `RebuildBound`, `Bootstrap.UnpublishedRevisionRebuildsTwice`).
- With several catalog digests the unlocked check may accept another catalog's files
  (`BootstrapResults.HitsOwnFilesIff`, `TwoDigestsMixUp`), and with one digest those of a directory that a rebuild is
  half way through removing (`HitsWholeFilesIff`). The lock of a vanished process is never removed
  (`LockIsReleasableIff`, `AbandonedLockStays`).
- The comment on the pause generations says that the resume of one pause cannot clear the next. A resume carries no
  generation, so that rests on the order of calls: the pause tools await each wait, nested ones included, and report the
  last one before another pause can begin (`harness/tools/browser_tools/hitl.py:1902-1923`). The class itself does not
  enforce it (`Diagnostics.ResumeSparesNewerIff`, `LateResumeClearsNextPause`).
- Fifty kept entries may hide failed extractions (`Diagnostics.TrimmedHistoryHidesExtractionsIff`).
- A schema that mixes keywords is flattened without what stands beside its first object form, so required names may be
  missed or invented (`SchemaUnion.FlattensExactlyIff`, `UniversalNameMissedIff`, `ReportedNameInventedIff`,
  `RequiredBesideUnionIsDropped`, `BareBranchIsDropped`).
- The excerpt of the replaced turns may exceed a limit below 361 characters (`Excerpt.LimitIsKeptIff`).
- `WORKER_STATUS_HARD_PRIORITY` lists hitl_waiting before hitl_timeout; the classifier tests the timeout first, and
  the model follows the classifier.
- Stream ids that repeat their own beginning lose characters (`StreamAssembly.MergeIsConcatIff`).
- One path for every full view of a page makes the content index point at changed text
  (`Offload.PayloadsAreFoundIff`, `PageViewsCollide`).

## Model

| member | source | states |
|---|---|---|
| Pairing.ValidateToolPairing | harness/context/compaction.py:99-140 | None exactly when every call message is directly followed by its results and no result stands alone or twice; an error names a position where that is so |
| Pairing.WellPairedMeansAnsweredOnce | harness/context/compaction.py:99-140 | a transcript is well paired exactly when the calls of each message are different and answered by the next one, each once, and no other message answers any |
| Pairing.WellPairedAppend | harness/context/compaction.py:99-140 | joining two valid transcripts is valid |
| Pairing.WellPairedCut | harness/context/compaction.py:99-140 | a cut of a valid transcript breaks both halves or neither |
| Pairing.WellPairedAroundWall | harness/context/compaction.py:99-140 | around a plain user message, validity is validity of both sides |
| Compaction.SplitMessagePairs | harness/context/compaction.py:228-251 | the loop computes the reference split into turns |
| Compaction.FlattenSplit | harness/context/compaction.py:228-251 | the groups put together again are the transcript |
| Compaction.ValidIffGroupsValid | harness/context/compaction.py:228-251 | a transcript is valid exactly when each group is valid alone |
| Compaction.SplitAppend | harness/context/compaction.py:228-251 | splitting distributes over joining after a valid left part |
| Compaction.TurnsRoundTrip | harness/context/compaction.py:228-251 | complete turns glued together are found again by splitting |
| Compaction.CutIndexIsCut | harness/context/compaction.py:295-309 | the backward scan finds the longest suffix within the budget, the newest group always kept |
| Compaction.CutIsUnique | harness/context/compaction.py:295-309 | only one cut has that property |
| Compaction.TokensAddUp | harness/context/compaction.py:295-309 | the cost of a run of groups is the sum of the costs of each |
| Compaction.SelectGroupsForCompaction | harness/context/compaction.py:295-309 | None exactly when there is no middle to replace, otherwise both sides of that cut |
| Compaction.CompactMessagesIfNeeded | harness/context/compaction.py:942-1219 | with a middle of k groups to replace: the pinned turns, one checkpoint counting what it replaces, and the rest, exactly when not skipped, over the threshold or told to, persisted, valid, and under cache pressure cheaper; in every other case the transcript itself |
| Compaction.CompactedIff | harness/context/compaction.py:942-1219 | the same of the run model's compaction step, and for a valid transcript what is rebuilt is valid |
| Compaction.RebuiltValidIff | harness/context/compaction.py:1083-1096 | the rebuilt transcript is valid exactly when what was kept is |
| Compaction.FinalCheckNeverFires | harness/context/compaction.py:984-1096 | for a valid transcript the final pairing failure is unreachable, whatever the head count, budget and costs |
| Compaction.RebuiltConserves | harness/context/compaction.py:985-1095 | head, middle and tail are the old turns in order, and the length changes by the replaced count less one |
| Compaction.TailIsLongest | harness/context/compaction.py:985-1011 | the retained tail is the longest run of newest complete turns that fits |
| Compaction.RunKeepsShape | harness/context/compaction.py:942-1219 | over every run of appended turns and compactions: valid, head unchanged, one checkpoint, then a suffix of the true history |
| Compaction.AtMostOneSummary | harness/context/compaction.py:942-1219 | over every run there is at most one checkpoint, right after the pinned turns |
| AnthropicCodec.EncodeMessages | llm/adapters.py:43-111 | the pass with two pending lists equals the batch-by-batch encoding, under both image placements |
| AnthropicConservation.AssistantKeepsItems | llm/adapters.py:92-111 | an assistant turn sends its items in order, each with all its fields, save empty texts, partial calls and what redaction hides |
| AnthropicConservation.ResultsKeepTheirText | llm/adapters.py:59-72 | a run of results becomes one message, one block per result with its id, error flag and all its text; images stay only under Native |
| AnthropicConservation.ImagesFollowTheRun | llm/adapters.py:46-67 | under AsUser the next message holds the images of the run in order, each group followed by the caption naming its call; nothing else comes between |
| AnthropicConservation.ImagesAreConserved | llm/adapters.py:43-111 | under both placements the wire shows every image of the history once, in the order of the history |
| AnthropicConservation.EncodeSplits | llm/adapters.py:43-111 | between two turns that are not both results a history is encoded piece by piece |
| AnthropicConservation.PartsKeepTheirPlaces | llm/adapters.py:22-40 | every part of an input keeps its place and content |
| AnthropicCodec.ProjectMessages | llm/legacy.py:34-114 | the walk over blocks with its pending list equals the message-by-message projection, or raises where it does |
| AnthropicConservation.ProjectKeepsBlocks | llm/legacy.py:77-114 | a projected message holds every block in order: results alone and without a tool name, other user blocks in longest runs, assistant blocks one item each |
| AnthropicConservation.ProjectFailsIff | llm/legacy.py:34-114 | a message is refused exactly for its role or for a block its role does not know |
| AnthropicRoundTrip.ProjectEncode | llm/legacy.py:77-114 | projecting an encoding gives the normal form: tool names erased, empty text and partial calls dropped, images moved as placed |
| AnthropicRoundTrip.EncodeNormal | llm/adapters.py:43-111 | the normal form encodes to the same wire |
| AnthropicRoundTrip.EncodeProjectEncode | llm/adapters.py:43-111 | encode, project, encode equals encode |
| AnthropicRoundTrip.EncodedIsPairedIffAnswered | llm/adapters.py:48-111 | the wire passes the pairing check exactly when each turn's calls are answered by the run of results right after it |
| ChatCodec.EncodeMessages | llm/adapters.py:113-143 | the pass with pending images equals the batch-by-batch encoding, the leftmost unsupported turn deciding the error |
| ChatConservation.AssistantReads | llm/adapters.py:112-142 | joined texts as content, complete calls, readable reasoning apart or as content when alone, one opaque block at most, and each error exactly when the source raises it |
| ChatConservation.RunReads | llm/adapters.py:73-85 | each result is one tool message with its texts by lines, in an envelope for an error; then one user message with the captioned images of the run |
| ChatConservation.EncodeSplits | llm/adapters.py:113-143 | between two turns that are not both results a history is encoded piece by piece, the leftmost error first |
| ChatCodec.ToolsFollowCallsIfAnswered | llm/adapters.py:113-143 | for answered histories each tool run is unbroken right after its call and images follow the whole run; conversely when every turn is visible |
| ChatCodec.EncodeVisible | llm/adapters.py:113-143 | dropping the turns that encode to nothing leaves the wire alone unless one splits a run of results whose images move out |
| ChatCodec.ToolsFollowCallsIff | llm/adapters.py:113-143 | for any history that encodes: tool runs are unbroken exactly when the visible turns are answered and no invisible turn splits a run with images |
| ChatCodec.InvisibleTurnHidesGap | llm/adapters.py:113-143 | with an invisible turn between call and answer the converse fails |
| SummaryParser.StructuredSummaryBodies | harness/context/compaction.py:260-287 | the two passes over line positions equal the recursive parse, with the first missing heading as the error |
| SummaryParser.BodiesAreBetween | harness/context/compaction.py:260-287 | a successful parse cuts the lines at the first places where the headings occur in order, and the last body at the first fact block |
| SummaryParser.MissingIsFirst | harness/context/compaction.py:266-277 | the heading reported missing is the first that cannot be found in order |
| SummaryParser.ValidIffOrdered | harness/context/compaction.py:254-287 | greedy search succeeds exactly when the nine headings occur in order at all |
| Checkpoint.PrintedParses | harness/context/compaction.py:736-746 | whatever the bodies contain, all headings are found again |
| Checkpoint.ReparseIffUntruncated | harness/context/compaction.py:736-746 | reading back gives the same bodies exactly when no section was clipped |
| Checkpoint.SectionsFit | harness/context/compaction.py:736-753 | sections printed on half the budget stay within the whole |
| Checkpoint.BoundedSectionsKeep | harness/context/compaction.py:736-746 | every heading, and under each the longest beginning of what it said within an equal share of the budget, whitespace at its end dropped |
| Checkpoint.BoundedTag | harness/context/compaction.py:755-774 | the longest prefix of the list that fits, and the omission note only if that fits too |
| Checkpoint.TagPartShows | harness/context/compaction.py:755-774 | nothing when not even one value fits; else one more value would not fit or a hundred are shown, and the omission note is there exactly if it fits |
| Checkpoint.FactsAreGreedy | harness/context/compaction.py:776-799 | taken one by one, a field is kept exactly when the block with it and those kept before fits |
| Checkpoint.BoundedFacts | harness/context/compaction.py:776-799 | the block of the fields kept and the names left out, or nothing when that does not fit |
| Checkpoint.CheckpointContent | harness/context/compaction.py:749-812 | the clipped sections, then each block that still fits in what the earlier ones left, and never more than max(1024, 3 max_tokens) characters |
| Checkpoint.CheckpointTextFits | harness/context/compaction.py:749-812 | that text stays within the limit and nothing follows its sections but fact blocks |
| Checkpoint.CheckpointReadsBack | harness/context/compaction.py:749-812 | the checkpoint of a valid summary is valid, and keeps every meaning exactly when no section was clipped |
| Checkpoint.PrintReadsBack | harness/context/compaction.py:815-842 | unclipped printing is undone by parsing |
| Checkpoint.NoticeIsGood | harness/context/compaction.py:815-842 | the notice that is added cannot be taken for a heading or a fact block |
| Checkpoint.FallbackReadsBack | harness/context/compaction.py:815-842 | the mechanical fallback always validates and keeps every earlier section |
| Checkpoint.FallbackKeepsMeanings | harness/context/compaction.py:815-832 | read back, the first eight sections say what they said, and the critical context what it said and the notice |
| Excerpt.BoundedFits | harness/context/compaction.py:699-703 | a text that fits is kept; a cut one keeps both ends and fits |
| Excerpt.PlacesSpread | harness/context/compaction.py:726-729 | sampled old turns start at the first, are distinct, in order, and evenly spread |
| Excerpt.RenderReads | harness/context/compaction.py:693-733 | notice lines, the kept old turns, then every one of the newest turns in order, each cut to an equal share |
| Excerpt.OlderPartsRead | harness/context/compaction.py:722-732 | all old turns, or the sample at the spread places, each cut to an equal share |
| Excerpt.ExcerptFits | harness/context/compaction.py:693-733 | from a limit of 361 characters on, the excerpt, notice lines included, stays within it for any list of fewer than 10^35 turns |
| Excerpt.LimitIsKeptIff | harness/context/compaction.py:693-733 | a limit is kept for all such lists exactly from 361 on; below, one list of turns exceeds it |
| Excerpt.TinyLimitIsExceeded | harness/context/compaction.py:693-733 | a limit smaller than the notice is not kept |
| Excerpt.NewestTurnsAreKept | harness/context/compaction.py:720-733 | each newest turn has its own place and is unchanged when it fits its share |
| NotificationHub.EvictedDecidesRecent | abcp_client.py:152-182 | after eviction the bounded queue answers like the unbounded acceptance log |
| NotificationHub.EvictExpired | abcp_client.py:169-176 | the loop leaves exactly the keys still remembered, key set and queue in step |
| NotificationHub.TryAccept | abcp_client.py:152-182 | a key is refused exactly when the unbounded log accepted it within TTL and fewer than limit - 1 keys ago |
| NotificationHub.RunsAreSpaced | abcp_client.py:152-182 | over every run, an accepted repeat comes more than TTL or at least limit acceptances after the one before |
| NotificationHub.RefusedIffRemembered | abcp_client.py:152-182 | in every run a call is refused exactly when its key was accepted at most TTL ago and fewer than limit acceptances back |
| NotificationHub.SameKeyIff | abcp_client.py:184-210 | two messages share a key exactly when their first event ids are equal, or neither has one and their first cursors with a name are equal with it |
| NotificationHub.Hub.HistoryFollowsRule | abcp_client.py:152-182 | that rule and the spacing hold of the calls a hub has really taken: its log is what they accept, over its whole life |
| NotificationHub.RingIsExactIff | abcp_client.py:249-270 | scanning the ring equals scanning all history exactly when not every hit has fallen off |
| NotificationHub.Hub.Publish | abcp_client.py:129-150 | every pending waiter that wants the message gets it, nobody else changes, the ring stays the last messages |
| NotificationHub.Hub.PublishOnce | abcp_client.py:152-182 | a message is refused exactly when the hub is closed or accepted the same event at most TTL ago and fewer than limit acceptances back; pending waiters that want a published one get it |
| NotificationHub.Hub.PeekReplay | abcp_client.py:249-270 | the newest wanted message of the ring inside the window |
| NotificationHub.Hub.BeginWait | abcp_client.py:212-247 | looks back over the window and registers with nothing published in between; a waiter is registered only when the scan found nothing in that window |
| NotificationHub.YoungFromFirst | abcp_client.py:259-264 | the window that is looked back over holds exactly the ring's messages at or after the cutoff |
| NotificationHub.NothingFound | abcp_client.py:259-270 | a scan without a result has passed over every message of that window |
| NotificationHub.Hub.Timeout | abcp_client.py:212-247 | a waiter that gives up has missed no wanted message since its window started, in the ring before it registered or live after it, each judged by its own matcher |
| NotificationHub.Hub.EndWait | abcp_client.py:212-247 | a result is the first wanted message since registration, the scanned window before it held none, and the waiter leaves the list |
| NotificationHub.Hub.Close | abcp_client.py:283-294 | pending waiters are cancelled and state is emptied |
| RpcClient.StepKeepsInv | abcp_client.py:511-690 | every legal step keeps the table, the futures and the transport flags consistent |
| RpcClient.RunKeepsInv | abcp_client.py:511-690 | so does every interleaving of starts, sends, frames, timers, failures and close |
| RpcClient.OutcomeIsFinal | abcp_client.py:572-631 | at most one outcome per call in every run, and a response carries that call's id |
| RpcOutcomes.OutcomeIff | abcp_client.py:538-631 | over every run, from its events alone: a call ends in a response exactly when it resumed and a frame answering it came before its timer and any failure; times out, fails or is refused exactly when that came first; ends by send error or cancellation exactly when that happened |
| RpcOutcomes.StateFollows | abcp_client.py:843-1026 | the table and what each call will resume on follow from the events |
| RpcOutcomes.RouteIs | abcp_client.py:953-967 | a frame belongs to a call exactly when it is no notification and the first of its three ids naming a listed call is that call's |
| RpcClient.FrameCompletesOnlyItsOwner | abcp_client.py:884-905 | a frame completes at most the unanswered call whose id it carries |
| RpcClient.OrphanCompletesNobody | abcp_client.py:884-905 | unmatched, late and unidentified answers change no call |
| RpcClient.GoneTransportFinishesEveryCall | abcp_client.py:996-1026 | after a receive failure or close every registered call ends without further input |
| RpcClient.AcceptingWithoutReaderIff | abcp_client.py:843-882 | in every run: calls are accepted with no reader behind them exactly when the reader has crashed outside its receive and no close has begun |
| RpcClient.StrandedIff | abcp_client.py:843-882 | in every run: a call waits with nobody reading exactly when it was started after such a crash and before any close, and no send error, timer, cancellation of its caller or end of a close has come since |
| RpcClient.CrashStrandsLaterCall | abcp_client.py:843-882 | such a run: the later call waits for nothing but its timer |
| RpcClient.Client.BeginCall | abcp_client.py:538-603 | refused at once, or registered under its id |
| RpcClient.Client.CancelCall | abcp_client.py:600-631 | a cancelled caller's call leaves the table, in the send or after it |
| RpcClient.Client.ResumeCall | abcp_client.py:600-690 | the future decides the outcome and the call leaves the table in every case |
| RpcClient.Client.PendingFor | abcp_client.py:953-967 | the first of the three id fields that names a registered call |
| RpcClient.Client.Dispatch | abcp_client.py:884-905 | delivered to its owner, reported as orphan, or passed on: exactly one |
| RpcClient.Client.FailPending | abcp_client.py:996-1026 | every unanswered call in the table is failed, no other changes |
| RpcClient.Client.FinishClose | abcp_client.py:511-536 | closing fails what is left and empties the table |
| EventReplay.CursorNeverDecreases | abcp_client.py:730-748 | the stored cursor never goes back, whatever live events do |
| EventReplay.CursorIsMax | abcp_client.py:730-748 | it is the largest of the last commit and the accepted live cursors |
| EventReplay.Replayer.TakePage | abcp_client.py:788-830 | a page's cursor is committed only after all its events were delivered |
| EventReplay.Replayer.ReplayEvents | abcp_client.py:750-841 | the page loop equals the reference run with at most min(100, max(1, max_pages)) reads, each error in its place |
| EventReplay.RunWalks | abcp_client.py:770-841 | every run reads pages as long as they are usable, have more and advance, at most its budget; the last one read decides the result, its counters and its cursors |
| EventReplay.PageInOrder | abcp_client.py:788-830 | a page's trace is what arrived while it was awaited, its events in order, then its cursor |
| EventReplay.ReplayIsComplete | abcp_client.py:770-841 | on success the delivered events are the log's (after, next], in order, and the counters say so |
| EventReplay.EveryCommitIsSafe | abcp_client.py:770-830 | even in failing runs no cursor is committed before its events |
| EventReplay.CursorStaysAtCommitIff | abcp_client.py:730-841 | the stored cursor ends on the last safe commit exactly when no accepted live cursor is beyond it |
| EventReplay.RunFollowsFate | abcp_client.py:770-841 | how far a run commits and what it replays follows from the server's answers alone |
| EventReplay.RunTakesLive | abcp_client.py:770-841 | the live events of a run are those arriving during the reads the server's answers allow |
| EventReplay.ReplayMissesIff | abcp_client.py:730-841 | from any stored cursor: it passes an undelivered event exactly when the readable pages stop before it, it does not arrive live itself, and the cursor held at the start or a later live event is beyond it |
| EventReplay.ReachingLiveLeavesNoGap | abcp_client.py:730-841 | when the readable pages reach every cursor accepted live, and the stored one is not ahead of the start, no event is missed |
| EventReplay.LiveJumpHidesGap | abcp_client.py:903-905 | a run where a live event hides an undelivered one |
| Retry.MaxRetries | llm/base.py:446-450 | the nearest number from 0 to 10 to the configured one |
| Retry.RequestWithRetries | llm/base.py:488-708 | the loop's result, entries and number of requests follow from the first outcome not worth repeating |
| Retry.RunEndsAsLast | llm/base.py:488-708 | the last request is the first not worth repeating or the last allowed; its outcome decides the ending, and entry i has request i's number, kind of failure and pause |
| Retry.RequestBudget | llm/base.py:536-650 | at most max_retries + 1 requests, one more exactly when all failed, the last in a decode error, and a fallback exists |
| Retry.RetryUsage | llm/base.py:191-213 | counts all failures but the last |
| Retry.ReportedIsCharged | llm/openai_provider.py:412-429 | for every ending with attempts, each request beyond the first is counted under the failure before it |
| Retry.ReportedPerReason | llm/openai_provider.py:412-429 | what is reported under a reason is the number of requests before the last that ended so |
| Retry.RetriesAreLostIff | llm/base.py:191-213 | the counters disagree with the requests sent exactly when the first outcome was worth repeating and the last one, or the fallback after it, raises an error without attempts |
| Retry.ThrottledCallLosesRetries | llm/base.py:651-659 | a timeout then throttling: one retry made, none reported |
| Retry.PausesAddUp | llm/base.py:531-534 | n pauses add up to a geometric sum or n intervals |
| Usage.UsageBucket.Add | harness/utils.py:325-346 | each counter grows by its amount and calls by one |
| Usage.UsageBucket.AddRetries | harness/utils.py:348-359 | only retry counters grow |
| Usage.BookAddsToSum | harness/utils.py:392-448 | an amount booked on any source raises the sum over sources by that amount |
| Usage.UsageAggregator.Add | harness/utils.py:416-448 | the total stays the sum over sources; one source gets the call |
| Usage.UsageAggregator.AddFailedCallRetries | harness/utils.py:392-414 | only retries move, and no source appears when there were none |
| Usage.SumIsConserved | harness/utils.py:384-448 | after any calls the sum over sources is the sum over calls |
| Usage.SourceHoldsItsCalls | harness/utils.py:384-448 | each source holds the sum of its own calls |
| Usage.TokensAreConserved | harness/utils.py:384-448 | each kind of token in the total is the sum of that kind over the calls that returned |
| Usage.TotalsMatchRequests | harness/utils.py:384-448 | total retries are the requests beyond the first of all calls ending with attempts; calls counts returned ones |
| Usage.AccountAll | harness/utils.py:863-889 | running calls through loop and aggregator yields that ledger |
| Bootstrap.StepKeepsInv | harness/capabilities/bootstrap.py:92-241 | every step of any process keeps lock ownership, trusted files and recorded hits right |
| Bootstrap.BootstrapIsSafe | harness/capabilities/bootstrap.py:92-241 | for one digest, in every interleaving with failures: one process at most holds the lock, and each hit saw files for the digest |
| Bootstrap.CleanRunRebuildsOnce | harness/capabilities/bootstrap.py:139-241 | from a clean start no run of any number of processes completes two rebuilds |
| BootstrapResults.RebuildsAtMostOnceIff | harness/capabilities/bootstrap.py:92-241 | for any number of processes with one digest: at most one rebuild in every run exactly for two processes, for three with a good cache, or from a clean start: a manifest with the digest suits all and has files, or, with no such manifest, all were told the same two published revisions |
| BootstrapResults.RebuildBound | harness/capabilities/bootstrap.py:92-241 | with one digest, n processes complete at most n / 2 rebuilds from a good cache and (n + 1) / 2 otherwise |
| Bootstrap.OldManifestRebuildsTwice | harness/capabilities/bootstrap.py:105-123 | two unlocked upgrades of one old manifest each invite a rebuild |
| Bootstrap.OddOneRebuildsTwice | harness/capabilities/bootstrap.py:105-123 | a process with another guide revision upgrades the manifest to one that is old for everybody else |
| Bootstrap.DisagreementRebuildsTwice | harness/capabilities/schema_cache.py:138-163 | what a rebuild writes is old at once for a process with other, or with unpublished, revisions |
| Bootstrap.UnpublishedRevisionRebuildsTwice | harness/capabilities/schema_loader.py:225-232 | with a server that publishes no guide revision an empty directory is rebuilt twice |
| Bootstrap.NoFilesRebuildsTwice | harness/capabilities/bootstrap.py:99-123 | a reader that met a rebuild's truncated manifest invites a second one |
| BootstrapResults.HitsOwnFilesIff | harness/capabilities/bootstrap.py:99-137 | for any digests, crew and start: every hit of every run sees its own digest's files exactly when whoever finds its digest in the manifest finds its files and shares the digest with all, and two processes share a digest only if all do |
| BootstrapResults.TwoDigestsMixUp | harness/capabilities/bootstrap.py:99-137 | with two digests a hit may see the other catalog's files |
| BootstrapResults.CleanHitsWholeFiles | harness/capabilities/bootstrap.py:92-241 | from a clean start whose files are whole, no hit of any run sees a partly removed directory |
| BootstrapResults.HitsWholeFilesIff | harness/capabilities/bootstrap.py:92-241 | for four or more processes with one digest, that start is also the only kind from which none does |
| BootstrapResults.SettledEndsInHit | harness/capabilities/bootstrap.py:92-241 | once the cache is good for all, a process that neither fails nor vanishes can end in nothing but a hit, before the lock, after it or after giving up |
| BootstrapResults.AbandonedLockStays | harness/capabilities/schema_cache.py:192-216 | after a holder vanishes nobody acquires, rebuilds or changes the files again |
| BootstrapResults.LockIsReleasableIff | harness/capabilities/schema_cache.py:192-216 | in every reachable state a held lock can still be released exactly when its owner has not vanished |
| Bootstrap.CacheDirectory.Acquire | harness/capabilities/schema_cache.py:192-216 | alone, the polling loop acquires exactly a free lock |
| Bootstrap.CacheDirectory.BootstrapSchemaCache | harness/capabilities/bootstrap.py:92-241 | alone: a usable cache is kept, an unusable one replaced; a taken lock, no capabilities, an empty bundle or a raised error change no files, and a lock it took is released |
| Bootstrap.AloneIsARun | harness/capabilities/bootstrap.py:92-241 | that behaviour is one of the protocol's runs |
| SchemaUnion.PureFlattensExactly | harness/capabilities/schema_loader.py:291-327 | however the unions of a schema with one keyword at a time nest, and whichever branches forbid other keys, the flattened branches accept the same key sets |
| SchemaUnion.BoxesCover | harness/capabilities/schema_loader.py:291-327 | any schema, every keyword of every node counting, accepts exactly the key sets between the smallest and the largest one of some choice of branches |
| SchemaUnion.FirstFormWins | harness/capabilities/schema_loader.py:306-327 | a node with properties is one branch; else the branches of its anyOf, or of its oneOf when that gives none |
| SchemaUnion.FlattensExactlyIff | harness/capabilities/schema_loader.py:291-327 | for any schema, mixed or closed anywhere: flattening is exact exactly when it is on the sets of the schema's own names and one stranger |
| SchemaUnion.OpenFlattensExactlyIff | harness/capabilities/schema_loader.py:291-327 | for any schema that forbids no keys: exactly when each branch's required names pass the schema and each smallest key set passes a branch |
| SchemaUnion.CollectNames | harness/capabilities/schema_loader.py:346-352 | every declared name, once, in strict order of first appearance |
| SchemaUnion.MentionsAddUp | harness/capabilities/schema_loader.py:346-352 | names are mentioned branch by branch, each branch's in its own order |
| SchemaUnion.MergeParam | harness/capabilities/schema_loader.py:353-380 | the specs of a name, each once in order of first appearance; required only if every branch declares and requires it |
| SchemaUnion.SpecOfBranch | harness/capabilities/schema_loader.py:353-364 | a branch gives a name the spec of its own property of that name, an empty one when that is no object |
| SchemaUnion.SchemaParamSpecs | harness/capabilities/schema_loader.py:330-380 | one merged parameter per declared name, in strict order of first appearance |
| SchemaUnion.RequiredParamNames | harness/capabilities/schema_loader.py:392-401 | exactly the names every branch declares and requires, in strict order of declaration |
| SchemaUnion.ReportedIff | harness/capabilities/schema_loader.py:392-401 | a name is reported exactly when every branch declares and requires it |
| SchemaUnion.ReportedReads | harness/capabilities/schema_loader.py:353-401 | a name is reported exactly when every branch lists it as required and declares it with an object spec |
| SchemaUnion.UniversalIffInEveryBox | harness/capabilities/schema_loader.py:330-401 | for any schema a name is in every accepted key set exactly when it is in all smallest ones |
| SchemaUnion.RequiredIsUniversal | harness/capabilities/schema_loader.py:330-401 | for well-formed branches of a schema that flattens exactly, the reported names are those in every accepted key set |
| SchemaUnion.UniversalNameMissedIff | harness/capabilities/schema_loader.py:330-401 | for any schema, a name in every accepted key set is missed exactly when no branch is kept or some kept one does not declare and require it |
| SchemaUnion.ReportedNameInventedIff | harness/capabilities/schema_loader.py:330-401 | for any schema, a reported name is missing from an accepted key set exactly when all kept branches require it and some smallest key set lacks it |
| SchemaUnion.RequiredBesideUnionIsDropped | harness/capabilities/schema_loader.py:306-327 | a name required beside a union is in every accepted key set and not reported |
| SchemaUnion.BareBranchIsDropped | harness/capabilities/schema_loader.py:306-327 | a branch that accepts everything is dropped, so a name is reported that is not always needed |
| Diagnostics.WorkerDiagnostics.BeginHitlPause | harness/diagnostics/__init__.py:158-166 | a new generation with its own page and clear terminal flags |
| Diagnostics.WorkerDiagnostics.ObservePause | harness/diagnostics/__init__.py:111-131 | a resumed receipt clears, a waiting one opens only when nothing is open |
| Diagnostics.WorkerDiagnostics.ObserveBrowserCall | harness/diagnostics/__init__.py:97-152 | the whole new state after a receipt, the history cut to fifty |
| Diagnostics.GenerationsAreOrdered | harness/diagnostics/__init__.py:158-198 | in every run resumed <= paused, strictly with a pending page, and unresolved exactly when the last effect opened |
| Diagnostics.GenerationsAreCounted | harness/diagnostics/__init__.py:111-171 | the generation is the number of pauses begun; a receipt for an open pause adds none |
| Diagnostics.FlagsBelongToCurrentPause | harness/diagnostics/__init__.py:158-204 | a terminal flag is set exactly when its event came after the latest pause began |
| Diagnostics.PageIsLatest | harness/diagnostics/__init__.py:158-171 | a remembered page is the one of the event that began the latest pause |
| Diagnostics.WaitFlagsRecordEvents | harness/diagnostics/__init__.py:158-204 | a wait was entered, or a resume observed, exactly when the run has such an event |
| Diagnostics.FieldsRecordEvents | harness/diagnostics/__init__.py:97-156 | the context limit is that of the latest exception, the routing failure the latest seen, and every contract error counts |
| Diagnostics.ResumeSparesNewerIff | harness/diagnostics/__init__.py:176-180 | a resume meant for generation g spares newer pauses exactly when there are none |
| Diagnostics.LateResumeClearsNextPause | harness/diagnostics/__init__.py:176-180 | a run where the first pause's late resume clears the second pause |
| Diagnostics.TrimmedHistoryKeepsCrashVerdict | harness/diagnostics/__init__.py:397-404 | the page-crashed verdict on fifty entries is the one on the whole history |
| Diagnostics.TrimmedHistoryHidesExtractionsIff | harness/diagnostics/__init__.py:407-419 | the extraction verdict on fifty entries differs from the one on all exactly when, without an artifact, fewer than ten extractions are kept, fewer than five failed, and the newest dropped ones make up the five |
| Diagnostics.OtherCallsHideExtractions | harness/diagnostics/__init__.py:407-419 | a history where the two verdicts differ |
| Diagnostics.SuccessIff | harness/diagnostics/__init__.py:232-297 | done or partial exactly when claimed, without step cap, and nothing stands against it but a deadlocked pause with an artifact |
| Diagnostics.StatusIsDecided | harness/diagnostics/__init__.py:232-387 | over every run: context limit, routing failure, open pause (deadlock, settled page, timeout, waiting), then the step cap with its evidence, then the claim decide the status, in this order |
| Diagnostics.ReasonIff | harness/diagnostics/__init__.py:232-297 | a reason is given exactly when the status is not simply the claimed one, or found without a claim |
| Diagnostics.CallVerdictsIff | harness/diagnostics/__init__.py:397-419 | three dead pages among the last five calls; without an artifact, five failures among the last ten extractions |
| Diagnostics.OpenPauseBlocksSuccess | harness/diagnostics/__init__.py:232-387 | over every run: with a pause open, success takes a deadlock seen since it began, an artifact and no step cap |
| Diagnostics.HardStatusNeedsEvidence | harness/diagnostics/__init__.py:232-387 | pause, crash and contract statuses need their evidence in the run, whatever the model claims |
| StreamAssembly.PrefixesMergeToLongest | llm/openai_provider.py:35-48 | prefixes of one string, in any order, merge to the longest of them |
| StreamAssembly.MergeIsConcatIff | llm/openai_provider.py:35-48 | merging fragments is concatenation exactly when none is prefix-related to the text before it |
| StreamAssembly.RepeatedFragmentIsLost | llm/openai_provider.py:35-48 | two equal fragments merge to one |
| StreamAssembly.CallsAreByIndex | llm/openai_provider.py:289-305 | each assembled call is what the deltas of its index give alone |
| StreamAssembly.CollectStreamedCompletion | llm/openai_provider.py:246-330 | the chunk loop yields the message read off the choices part by part, calls by ascending index |
| StreamAssembly.MessageReads | llm/openai_provider.py:246-330 | each text of the message is that field of the first choices' deltas joined in order, the last finish counts, and there is no message exactly without a first choice |
| StreamAssembly.ToolCallsRead | llm/openai_provider.py:289-319 | one call per index that occurs, ascending: its deltas' ids merged, names merged, arguments joined |
| StreamAssembly.SortedAscends | llm/openai_provider.py:309-319 | the order of the calls holds every index once, ascending |
| StreamAssembly.ToolCallsAreByIndex | llm/openai_provider.py:309-319 | the k-th call belongs to the k-th index |
| StreamAssembly.InterleavingDoesNotMatter | llm/openai_provider.py:246-330 | equal text and equal deltas per index give equal messages, however interleaved |
| Offload.OffloadStore.StoreOffloadedPayload | harness/context/offload.py:107-158 | while the index is sound, the returned path holds a text with the payload's digest |
| Offload.PutKeepsSoundIff | harness/context/offload.py:143-157 | a write keeps the index sound exactly when the text is known or its path is not indexed |
| Offload.IndexSoundIff | harness/context/offload.py:107-158 | after any writes the index is sound exactly when new contents never shared a path |
| Offload.PayloadsAreFoundIff | harness/context/offload.py:107-158 | every returned path still holds its payload's digest exactly under that condition |
| Offload.PageViewsCollide | harness/context/offload.py:90-104 | one page's view changing to and fro: the third write returns a path holding the second text |

## Left out

- Sockets, handshakes, reconnecting, subprocesses, databases and the file system itself: inputs or steps of the model.
- JSON text, hashing, UTF-8 sizes, token estimates and redaction: parameters or opaque text. Lines end at newline only.
- Generated summaries: any text, which validates or triggers the fallback.
- Subscriber callbacks of the hub and what they might call back into.
- Canonical session entries handed to `project_messages`; only wire-shaped messages are projected.
- EventReplay.Replayer.ReplayEvents: does not count eventsPublished, and whether a live event was accepted is an input, because the dedupe decision is proved in NotificationHub.
- EventReplay.ReplayIsComplete: takes as given that the server answers each read with a slice of one log in cursor order.
- Reset of the event cursor at registration, which may lower it on purpose.
- Retry.RequestWithRetries: does not model elapsed times and error texts in the entries, and pauses are whole milliseconds.
- Retry.MaxRetries: does not model the fallback to one retry for a setting that is no number.
- Usage.UsageAggregator.Add: does not model cache warnings, context hashes or rates, which do not feed the counters.
- BootstrapResults.HitsWholeFilesIff: is exact for four or more processes; for fewer, a clean start with whole files is proved enough but not always needed.
- Bootstrap.BootstrapIsSafe: reads the schema directory in one step, and does not look into how a bundle reuses cached schemas.
- The agent guide file and the refusal to bootstrap on connection errors: no effect on the cache state modelled.
- SchemaUnion.Accepts: reads oneOf as "some branch", as the code does, not as "exactly one", and looks at key names only.
- Excerpt.RenderBrowserTranscript: splits the budget at sixty-five percent rounded down, without floating point.
- Rendering of turns into text before they are excerpted, and the text of the bootstrap logs.
- Diagnostics: which texts and codes make a receipt a contract error, a dead page or a failed extraction; these are inputs.
- Digest rendering of parameter shapes, revision filtering of bundles, and folding of results after moderation.
- Command line, prompts, configuration parsing, cache-control headers and the Responses API.
