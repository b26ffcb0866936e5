# Verified model of the agent runtime's stateful cores

A Dafny model of the parts of the agent runtime whose correctness does not show in any single
function: the context governance and run loop of the agent runner, crash recovery of a session, the
outbound dispatcher and the bus, the history log with its Dream cursor, the bookkeeping of subagents,
and the codec and text cores of the WeChat, QQ and Feishu channels. `dafny verify dfyconfig.toml`
checks the whole project.

Code that changes things step by step is modelled by methods with the same loops and by classes with
the same fields, each proved against a specification; what the source promises is then proved about
the specification, for every input, every run or every interleaving.

| module | models | main results |
|---|---|---|
| `Messages` | chat messages and tool-call pairing | the recursive and the quantified readings of pairing agree |
| `Orphans`, `Backfill`, `Compaction`, `Snip` | the five governance passes | each pass refines a structural or declarative specification |
| `Governance` | the seven-pass pipeline | every list handed to the model is pairing-closed; when the cleanup passes are idle and when answers follow, if and only if |
| `ToolBatches` | batching and running tool calls | the grouping is the only one; results align with a prefix of the calls |
| `Transcript`, `Runner`, `RunTheory` | the run loop | it refines a reference step by step; over every run: which answers are asked again, what each tool round says, role alternation, bounds, usage, injections, checkpoints |
| `Recovery` | restoring a checkpointed round | exactly once, if and only if; idempotent; never loses a saved message |
| `Dispatcher`, `DispatchTheory` | coalescing of stream deltas | the stack-like replay buffer is a queue; when timing is inaudible, if and only if, for the text, for the metadata and for both with the end mark |
| `FeishuStream` | Feishu's stream buffers | what is shown is the same under every timing, if and only if no text can be merged with an end |
| `Lane` | a lane of the bus | order is kept; the separate counter is exact, if and only if |
| `History` | the history log and Dream | cursors agree and increase; no entry lost or repeated, if and only if |
| `Subagents` | the manager's three maps | consistent in every interleaving; the handle map drains, if and only if |
| `Base64`, `MediaCodec` | media keys and encryption | round trips in both directions, padded size |
| `Italics`, `Dedup` | italic stripping, deduplication window | idempotence and exact removal; exact window over every stream |

The outside world appears as parameters: `World` holds the answers of the model, the tools, the
finalizing hook and the injection callback as functions of how often each was asked, `ready` says
which zero-timeout polls of the bus find a message, and the token estimators, the tool-result
normalizer and the block cipher are arbitrary functions. Since every behaviour is such a function, a
statement for all of them covers every run.

## Where the code and its description differ

The model follows the code.

- `drop_orphan_tool_results` is described as a filter; once it has met an orphan it also loses every
  later message without a role (`Orphans.DropIsFilterIff` gives the exact condition).
- The cleanup after snipping is meant to remove new orphans. Snipping leaves one only where a number poses
  as text, because the search for a legal start spells integer ids out and the other passes do not see
  them (`Governance.CleanupDropsNothingIff`, `Governance.NumberPosesAsText`).
- The re-scan inside `find_legal_message_start` runs over an empty slice.
- An id declared again after its only answer passes governance unanswered
  (`Governance.RedeclaredIdStaysUnanswered`).
- `had_injections` is true whenever the iteration limit is reached, and the endings through
  `handle_final_content` report no tools used; both are part of `Runner.RunOk`.
- Deltas absorbed while coalescing bypass the progress and retry filters, so that timing can change the
  text (`DispatchTheory.AbsorbedNoticeIsHeard`, `DispatchTheory.TextDiscordIff`).
- They also lose their metadata: their text is sent in the name of the first delta
  (`DispatchTheory.AbsorbedContextIsLost`, `DispatchTheory.ContextDiscordIff`).
- Checkpoints are emitted and can be restored, but nothing in the repository saves one: the callback is never
  set (crates/agent/src/runner.rs:136) and the session's writer is unused
  (crates/agent/src/loop_.rs:2429-2442). The recovery results speak of a checkpoint that has been saved.
- Cancelling a session aborts only the tasks whose handle is already stored; one that is still being
  spawned runs on unlisted (`Subagents.AbortedIff`, `Subagents.CancelledTaskRunsOn`).
- Feishu ignores the text of the call that ends a stream, so deltas merged with the end are never shown
  (`FeishuStream.AllTimingsShowTheSameIff`, `FeishuStream.ShortAnswerIsLost`).
- A crash between the log append and the cursor write makes the next entry reuse a cursor
  (`History.CrashReusesCursorIff`), and a Dream whose batch stops between the two skips the second
  (`History.CrashedEntryIsSkippedIff`).
- A subagent's handle may be stored after its task has cleaned up, and then stays for ever
  (`Subagents.LateHandleHappens`, `Subagents.LateHandleLeaks`).
- An empty lane can report the largest possible size (`Lane.EmptyLaneCanLookFull`).

## Model

| member | source | states |
|---|---|---|
| Messages.ClosedIsLegalComplete | crates/agent/src/runner.rs:187-287 | a list is pairing-closed (each tool message with a non-empty id has an earlier declaration, each declared id an answer) if and only if it has no orphan and every declared id is answered |
| Messages.UniqueLegalCompleteFollows | crates/agent/src/runner.rs:187-287 | with unique, non-empty ids, completeness places every answer after its question |
| Messages.FollowsIsAnswersFollow | crates/agent/src/runner.rs:221-287 | the recursive and the index-wise reading of "answered later" are the same |
| Orphans.DropOrphanToolResults | crates/agent/src/runner.rs:187-218 | the lazily copying loop computes the recursive specification, and its result has no orphan |
| Orphans.DroppedIsLegal | crates/agent/src/runner.rs:187-218 | whatever the input, no orphan survives |
| Orphans.DropKeepsLegal | crates/agent/src/runner.rs:187-218 | a list without orphans is returned unchanged, so the pass is idempotent |
| Orphans.CopyLoss | crates/agent/src/runner.rs:191-217 | after the copy has begun, exactly the role-less messages are lost beyond the orphans |
| Orphans.DropIsFilterIff | crates/agent/src/runner.rs:191-217 | the pass is the plain filter if and only if no role-less message comes after an orphan |
| Orphans.FilterInOrder | crates/agent/src/runner.rs:191-217 | that filter keeps the order and leaves out exactly tool results with a non-empty id that nothing before them declares |
| Orphans.RolelessVanishes | crates/agent/src/runner.rs:191-217 | a concrete list in which a role-less message is lost behind a stray result |
| Orphans.DropKeepsUnique | crates/agent/src/runner.rs:187-218 | uniqueness of declared ids survives the pass |
| Orphans.DropKeepsFollows | crates/agent/src/runner.rs:187-218 | a question that was answered later still is after the pass |
| Backfill.BackfillMissingToolResults | crates/agent/src/runner.rs:221-287 | the collecting and inserting loops yield the structural specification: each assistant's missing results stand at the end of its own run of tool messages, in declaration order |
| Backfill.InsertMissing | crates/agent/src/runner.rs:251-286 | the index-and-offset loop inserts every missing result, in order |
| Backfill.InsertingWeaves | crates/agent/src/runner.rs:251-286 | from any point of the list on, offset insertion equals weaving in what is owed |
| Backfill.InsertingIsWoven | crates/agent/src/runner.rs:251-286 | offset insertion over the whole list equals the structural specification |
| Backfill.BackfilledReadsBack | crates/agent/src/runner.rs:251-286 | read from front to back, the result shows behind each message its own tool messages and then, in declaration order, one new result with id, name and the fixed text for each of its unanswered calls, and new results nowhere else |
| Backfill.UnansweredInOrder | crates/agent/src/runner.rs:246-250 | missing results are asked for in the order of the calls |
| Backfill.CollectedSlots | crates/agent/src/runner.rs:223-250 | the first pass finds exactly the unanswered declarations, in order, and the set of answered ids |
| Backfill.BackfilledIsPaired | crates/agent/src/runner.rs:221-287 | afterwards every declared id is answered, no id was declared or lost, and no orphan was created |
| Backfill.BackfilledKeepsOriginals | crates/agent/src/runner.rs:251-286 | removing the fillers gives back the original list: all original messages, in order |
| Backfill.BackfillIdleIff | crates/agent/src/runner.rs:221-287 | nothing is inserted if and only if every declared id was answered |
| Backfill.BackfilledFollowsIff | crates/agent/src/runner.rs:221-287 | every answer follows its question afterwards if and only if it did for the ids that already had one |
| Backfill.WovenUnique | crates/agent/src/runner.rs:251-286 | insertion keeps declared ids unique |
| Compaction.Microcompact | crates/agent/src/runner.rs:290-337 | exactly the long results of compactable tools with ten later compactable results are replaced by a summary, everything else stays |
| Compaction.MicrocompactSays | crates/agent/src/runner.rs:290-337 | a result is replaced exactly when its tool is one of the six named, its text takes at least 500 bytes and ten or more such results come after it; id and name stay and the text says so |
| Compaction.Utf8Counts | crates/agent/src/runner.rs:290-337 | the size threshold counts bytes: one per ASCII character, up to four for others |
| Compaction.OutrankedAreAllButRecent | crates/agent/src/runner.rs:290-338 | all but the last ten collected indices are exactly those with ten compactable results behind them |
| Compaction.MicrocompactIdempotent | crates/agent/src/runner.rs:290-338 | compacting a compacted history changes nothing |
| Compaction.ApplyToolResultBudget | crates/agent/src/runner.rs:340-373 | exactly the contents of tool messages are normalized, index by index, although copying is lazy |
| Compaction.BudgetSays | crates/agent/src/runner.rs:340-372 | a tool message's content becomes the normalized content under its own id and tool name, with an index-based id and the name "tool" as defaults; nothing else changes |
| Basics.DecimalDenotes | crates/agent/src/runner.rs:346-350 | the index in such an id is written in decimal, without leading zero |
| Compaction.PassesKeepSkeleton | crates/agent/src/runner.rs:290-373 | neither pass changes a role, an id or a declaration at any index |
| Compaction.SkeletonDecides | crates/agent/src/runner.rs:290-373 | legality, completeness, uniqueness and answer order depend only on roles, ids and declarations |
| Snip.FindLegalMessageStart | crates/utils/src/helpers.rs:364-413 | with integer ids spelled out as text, the scan finds the least start from which the list has no orphan |
| Snip.OrphanRulesOut | crates/utils/src/helpers.rs:364-413 | an orphan makes every start up to it illegal, so the scan may skip past it |
| Snip.LeastLegalStart | crates/utils/src/helpers.rs:364-413 | the least legal start is unique |
| Snip.TakeWindow | crates/agent/src/runner.rs:418-429 | the backward greedy loop takes the longest window |
| Snip.WindowIsLongest | crates/agent/src/runner.rs:414-429 | the window fits or is the last message alone, and no longer suffix fits |
| Snip.UserStartIsNearest | crates/agent/src/runner.rs:431-446 | the window is moved to its first user message, or else back to the last user message there is |
| Snip.StartsWithUserIff | crates/agent/src/runner.rs:431-451 | if a user message exists, the kept part begins with one whenever the legal start is 0, and keeps that start if and only if it is legal |
| Snip.SnipHistory | crates/agent/src/runner.rs:375-464 | all branches together compute budget, window, alignment and fallback as specified |
| Snip.SnipFits | crates/agent/src/runner.rs:376-464 | if a list is snipped, system messages and window fit into the block limit, or context window less reply tokens (4096) less 1024, but at least 128, unless the window is one message or the system messages alone exceed it; no longer window fits; and with a user message in the window the kept part lies inside it, or nothing legal follows and it is the longest legal part of the last four |
| Snip.SnippedIff | crates/agent/src/runner.rs:376-412 | a list is snipped exactly when there is an allowance, the prompt exceeds it and there is a non-system message |
| Snip.UnlimitedIsUnsnipped | crates/agent/src/runner.rs:376-379 | without a context window nothing is snipped |
| Snip.PartsByRole | crates/agent/src/runner.rs:399-408 | system and other messages are told apart by role alone and keep their order |
| Snip.SnipKeepsSuffix | crates/agent/src/runner.rs:399-464 | the result is the input, or all system messages followed by a suffix of the others |
| Snip.SnipKeepsLegalIff | crates/agent/src/runner.rs:375-464 | snipping a list without orphans leaves none if and only if no kept result answers by text an id declared before it only as an integer |
| Snip.SnipKeepsFollows | crates/agent/src/runner.rs:375-464 | snipping never separates a question from its later answer |
| Governance.Govern | crates/agent/src/runner.rs:636-643 | for every history the list handed to the model is pairing-closed, and with unique non-empty ids every call is answered after it is made |
| Governance.BudgetedIsPaired | crates/agent/src/runner.rs:636-640 | before snipping the list already has no orphan and no unanswered id |
| Governance.CleanupDropsNothingIff | crates/agent/src/runner.rs:640-642 | the second orphan pass is the identity if and only if there is no such clash in what snipping kept |
| Governance.CleanupDropsNothing | crates/agent/src/runner.rs:640-642 | so it is for every history whose declared ids are all text |
| Governance.NumberPosesAsText | crates/agent/src/runner.rs:640-642 | a concrete history and budget for which the second orphan pass removes a result |
| Governance.CleanupAddsNothing | crates/agent/src/runner.rs:640-643 | with unique non-empty ids the second backfill inserts nothing |
| Governance.HistoryFollowsIff | crates/agent/src/runner.rs:636-643 | every call in the list handed to the model is answered after it is made if and only if, before the last backfill, every id answered at all is answered after each of its declarations; it is enough that this holds of the history without its orphans, and necessary when nothing is snipped |
| Governance.RedeclaredIdStaysUnanswered | crates/agent/src/runner.rs:636-643 | a concrete history whose governed list has a call that is not answered after it is made |
| ToolBatches.PartitionToolBatches | crates/agent/src/runner.rs:1449-1476 | batches concatenate to the calls; one by one when not concurrent, else maximal runs of safe calls and single unsafe ones |
| ToolBatches.GroupingIsUnique | crates/agent/src/runner.rs:1449-1476 | there is only one such grouping of a call list |
| ToolBatches.RunBatch | crates/agent/src/runner.rs:1557-1606 | a batch runs to its end together, or one by one up to the first fatal call; every result and event stands at its call's index, and the last fatal error met is reported |
| ToolBatches.ExecuteTools | crates/agent/src/runner.rs:1544-1609 | the k-th result and event are those of the k-th call; all calls are run exactly when none is fatal |
| ToolBatches.ExecutedCountIs | crates/agent/src/runner.rs:1544-1609 | beyond the first fatal call only safe calls running together with it are run, up to the next unsafe one |
| ToolBatches.LastFatalIs | crates/agent/src/runner.rs:1576-1606 | the error reported belongs to a fatal call after which no other fatal one was run |
| Transcript.RoundShape | crates/agent/src/runner.rs:692-750 | appending a tool round keeps the shape of the transcript |
| Transcript.ToolsAreAttached | crates/agent/src/runner.rs:692-750 | every appended tool message directly follows an assistant with calls or another tool message |
| Transcript.RoundAnswersAll | crates/agent/src/runner.rs:692-750 | a round without a fatal error answers each of its own calls |
| Runner.DrainInjections | crates/agent/src/runner.rs:493-537 | the first three usable items of the callback, as user messages |
| RunTheory.UsableItems | crates/agent/src/runner.rs:505-524 | a user message with content is taken as it is, any other non-blank text as a user message saying it, everything else not at all |
| RunTheory.UsableInOrder | crates/agent/src/runner.rs:505-524 | items are taken in one by one and in order |
| RunTheory.FirstThree | crates/agent/src/runner.rs:526-535 | a drain takes the first three usable items |
| RunTheory.UserIsHeard | crates/agent/src/runner.rs:540-584 | while five cycles last, the callback is called after every tool round and at every ending, all it hands over is taken in, and a completed run had nothing left to hear |
| Runner.AppendInjectedMessages | crates/agent/src/runner.rs:472-490 | the loop folds the injections into the transcript |
| Runner.InjectionShape | crates/agent/src/runner.rs:472-490 | role alternation survives, and the transcript grows by at most one user message per injection cycle |
| Runner.InjectedTextsFollow | crates/agent/src/runner.rs:472-490 | merged texts come after what the last user message said, in order, separated by blank lines, leading empty texts left out |
| Runner.InjectedTextsAreJoined | crates/agent/src/runner.rs:472-490 | with no user message to merge into, the texts make up one new message |
| RunTheory.OneSidedMerge | crates/agent/src/runner.rs:1643-1660 | contents of which one is missing are not merged, and blocks are merged in order |
| Runner.TryDrainInjections | crates/agent/src/runner.rs:540-584 | drains exactly while fewer than five cycles are used and something usable is pending, behind the answer it closes |
| Runner.DrainKeepsGood | crates/agent/src/runner.rs:540-584 | a drain keeps role alternation and the counts, and adds at most one user message, whatever was injected |
| Runner.ToolRound | crates/agent/src/runner.rs:679-787 | the transcript gains the assistant message and the aligned results, and checkpoints go out before and, unless fatal, after |
| Runner.RoundKeepsGood | crates/agent/src/runner.rs:679-787 | a round keeps the invariant of the run and leaves a tool message last |
| Runner.HandleFinalContent | crates/agent/src/runner.rs:949-1129 | the four endings of a run, with their texts, checkpoints and transcripts |
| Runner.ConcludesWell | crates/agent/src/runner.rs:949-1129 | each ending keeps the invariant; a completed run ends in its own answer, which is also its last checkpoint |
| Runner.AnswerIsKept | crates/agent/src/runner.rs:966-1000 | an answer interrupted by the user stands directly before the injected user message |
| Runner.ExcusedGood | crates/agent/src/runner.rs:1693-1709 | after a model error the transcript ends in an assistant message without calls, by at most one new message; doing it again changes nothing |
| Runner.ClosedGood | crates/agent/src/runner.rs:1711-1719 | a non-empty closing text is the last thing the assistant says, nothing before it changes, and the invariant of the run is kept |
| Runner.RequestModel | crates/agent/src/runner.rs:636-678 | what is sent is the governed transcript, and the answer's usage is added up |
| Runner.RetriedGood | crates/agent/src/runner.rs:839-857 | the retry adds its usage key by key; neither the transcript nor the count of requests moves |
| Runner.ContinuedGood | crates/agent/src/runner.rs:877-897 | the truncated answer stays in the transcript and the next request finds a user message last, with alternation kept |
| Runner.Run | crates/agent/src/runner.rs:612-945 | the loop with its counters and exits equals the reference `RunFrom` for every world; every list sent is the governed transcript of that moment and pairing-closed |
| Runner.RunIsOk | crates/agent/src/runner.rs:612-945 | every run in every world is in order: answers and rounds match the world, shape, counts, checkpoints, usage, tools and events reported, and the exact text for each way of stopping, down to the finalized answer and the fatal error |
| RunTheory.AskedAgain | crates/agent/src/runner.rs:679-897 | every answer but the last ran tools, was blank without having failed, or was cut off by the length limit with something to keep |
| RunTheory.PlainAnswerEndsRun | crates/agent/src/runner.rs:819-913 | a first answer that runs no tools, says something, did not fail and was not cut off is the only request |
| RunTheory.TruncatedIsContinuedIff | crates/agent/src/runner.rs:877-897 | a truncated answer is continued if and only if fewer than three were since tools last ran |
| RunTheory.FinalizedIff | crates/agent/src/runner.rs:822-857 | the model is asked to finalize if and only if the last answer was blank and so was an earlier one, with no successful tool round in between |
| RunTheory.ToolsAreAskedFor | crates/providers/src/base.rs:110-116 | tools run exactly for answers that have calls and finished with tool calls, a function call or a stop |
| RunTheory.BlankTexts | crates/agent/src/runner.rs:822 | white space alone is no answer, any visible ASCII character is one |
| RunTheory.ReasoningIsKept | crates/utils/src/helpers.rs:623-652 | what an assistant message keeps of reasoning, thinking blocks and calls |
| RunTheory.UsageIsReported | crates/agent/src/runner.rs:617-620 | prompt and completion tokens are reported by every run |
| RunTheory.RoundSays | crates/agent/src/runner.rs:683-700 | the i-th round answers the i-th such answer: its assistant message says its text and lists its calls with ids, names and arguments |
| RunTheory.ResultSays | crates/agent/src/runner.rs:732-747 | the k-th result of the i-th round stands right behind it, under the k-th call's id and name, with the normalized result of that very call |
| RunTheory.RoundIsAsLongAs | crates/agent/src/runner.rs:724-747 | a round has a result for as many calls as were run, and is fatal exactly if one of its calls is |
| RunTheory.FinalTexts | crates/agent/src/runner.rs:916-1060 | the texts returned at the limit, on a model error and without an answer |
| Runner.FaithfulRound | crates/agent/src/runner.rs:679-787 | exactly the answers asking for tools get a round, holding what their own calls yielded |
| Runner.RunBounds | crates/agent/src/runner.rs:540-559 | at most min(max_iterations, 5T+5) requests and one finalization, at most 5 cycles and 15 injected messages, usage the pointwise sum over all answers |
| Runner.UsageIsSum | crates/agent/src/runner.rs:1628-1632 | accumulated usage is the sum over all answers, key by key |
| Runner.TranscriptAlternates | crates/agent/src/runner.rs:634-933 | from a well-started history no run ever holds two user or two assistant messages in a row, and no request finds an assistant message last |
| Runner.RunToolsAreAttached | crates/agent/src/runner.rs:634-933 | in every run an appended tool message directly follows an assistant with calls or another tool message |
| Runner.CheckpointsRestore | crates/agent/src/runner.rs:708-787 | every tool-phase checkpoint of every run restores to an assistant and one result per call, in call order |
| RunTheory.CheckpointsOfRound | crates/agent/src/runner.rs:708-787 | each round's first checkpoint restores an error for every call, the next one, unless an error was fatal, the assistant message and results as they stand in the transcript |
| Runner.CrashedRunRecovers | crates/agent/src/loop_.rs:2458-2519 | whatever the session had saved, restoring a saved checkpoint of a run's tool phase ends it in the whole round, every call answered by its result or an error, and backfilling owes that round nothing |
| Recovery.FindMessageOverlap | crates/agent/src/loop_.rs:2886-2900 | the downward search finds the longest overlap by message key |
| Recovery.OverlapIsLongest | crates/agent/src/loop_.rs:2886-2900 | it is an overlap, and no overlap is longer |
| Recovery.RecoveredEndsWithRound | crates/agent/src/loop_.rs:2511-2515 | for any session nothing saved is lost and the result ends with the whole round |
| Recovery.RecoveryIsIdempotent | crates/agent/src/loop_.rs:2511-2515 | restoring the same checkpoint again adds nothing |
| Recovery.RestoredAgrees | crates/agent/src/loop_.rs:2511-2515 | the restored session ends with the round, index by index equal in role, text, id, name, calls and reasoning |
| Recovery.NewRoundIsAppended | crates/agent/src/loop_.rs:2511-2515 | a round whose first message differs in one of these from every saved message is appended whole |
| Recovery.RestoredRoundSays | crates/agent/src/loop_.rs:2477-2510 | the round of a checkpoint, message by message: the assistant and completed results with a time stamp where none was, and an error under id and name for each pending call |
| Recovery.StampsOnce | crates/agent/src/loop_.rs:2477-2495 | a time stamp that is there is kept, and nothing else changes |
| Recovery.ExactlyOnceIff | crates/agent/src/loop_.rs:2477-2519 | base plus any saved prefix becomes base plus the whole round if and only if no longer stretch of the session looks like the start of the round |
| Recovery.ExactlyOnce | crates/agent/src/loop_.rs:2477-2519 | in particular when the round's first key does not occur in the base |
| Recovery.RepeatedAnswerIsLost | crates/agent/src/loop_.rs:2477-2519 | a concrete session and checkpoint show that the condition is needed: an answer equal to the last one saved is not restored |
| Recovery.RecoveredRoundIsComplete | crates/agent/src/loop_.rs:2477-2519 | the recovered session ends in an assistant and one result per call, and later backfilling finds nothing missing |
| Recovery.Session.RestoreRuntimeCheckpoint | crates/agent/src/loop_.rs:2458-2519 | the messages not covered by the overlap are appended, so that the session ends with the round field by field; both markers are cleared |
| Recovery.Session.RestorePendingUserTurn | crates/agent/src/loop_.rs:2521-2543 | an unanswered user message gets the error reply, the marker is cleared |
| Recovery.Session.Restore | crates/agent/src/loop_.rs:1825-1841 | both repairs in order; at most one changes the messages |
| Dispatcher.CoalesceStreamDeltas | crates/channels/src/manager.rs:288-343 | what was taken from the bus is the merged group plus at most one message that did not match, in order |
| Dispatcher.MergeReady | crates/channels/src/manager.rs:232-278 | one turn of the loop: filter first, then coalesce an open delta |
| Dispatcher.DispatchOutbound | crates/channels/src/manager.rs:212-286 | for every queue and timing the replay buffer holds at most one message, and no message is lost, duplicated or reordered; everything delivered is allowed by the switches, and a message that is no delta is delivered exactly if it is allowed and its channel known |
| Dispatcher.PlainIsDeliveredIff | crates/channels/src/manager.rs:232-284 | with progress on, progress is delivered, with hints on, hints are, and neither otherwise; retry notices never |
| Dispatcher.UnmarkedIsDelivered | crates/channels/src/manager.rs:232-284 | a message without these marks is delivered under every configuration, alone or merged |
| Dispatcher.DeliveredAreAllowed | crates/channels/src/manager.rs:232-258 | no delivered message carries a retry mark, or a progress or hint mark whose switch is off |
| Dispatcher.FalsyValues | crates/channels/src/manager.rs:438-447 | which metadata values count as set |
| Dispatcher.Bus.TryConsume | crates/channels/src/manager.rs:300-308 | a zero-timeout poll takes the next message exactly when one is ready |
| DispatchTheory.MergedSaysItsParts | crates/channels/src/manager.rs:288-343 | a merged message says what its parts say, one after the other, in its own name |
| DispatchTheory.TimingIsInaudibleIff | crates/channels/src/manager.rs:212-343 | whatever a channel takes from the metadata, a dispatch sounds like message-by-message dispatch if and only if every part of every delivered group that says something passes the filter and is heard under the merged message's metadata |
| DispatchTheory.TextSurvives | crates/channels/src/manager.rs:212-343 | text and ends per channel and chat are the same under every timing when no delta carries a progress or retry mark |
| DispatchTheory.ContextSurvives | crates/channels/src/manager.rs:212-343 | with their metadata, too, when all deltas to one chat carry the same |
| DispatchTheory.TimingsAreDispatches | crates/channels/src/manager.rs:212-343 | every timing splits the queue into legal groups |
| DispatchTheory.DispatchesAreTimings | crates/channels/src/manager.rs:212-343 | every legal grouping happens under some timing |
| DispatchTheory.AllTimingsAgreeIff | crates/channels/src/manager.rs:212-343 | all timings sound alike if and only if no stretch of the queue that may be merged has a part out of tune with the whole |
| DispatchTheory.TextDiscordIff | crates/channels/src/manager.rs:212-343 | for text and ends: a message the filter should stop, that says something, and can be absorbed |
| DispatchTheory.ContextDiscordIff | crates/channels/src/manager.rs:323-341 | with the metadata: a message that says something, can be absorbed, and carries other metadata than the stream's first |
| DispatchTheory.EverythingAgreesIff | crates/channels/src/manager.rs:323-341 | with the end mark: an end may be absorbed only if no text came before it, and otherwise all metadata must be equal |
| DispatchTheory.EverythingDiscordIff | crates/channels/src/manager.rs:323-341 | on the queue: an end that can be absorbed behind text or with other metadata than the stream's first, or absorbed text with other metadata |
| DispatchTheory.AbsorbedNoticeIsHeard | crates/channels/src/manager.rs:323-328 | a concrete queue in which a retry notice is delivered because it was ready |
| DispatchTheory.AbsorbedContextIsLost | crates/channels/src/manager.rs:323-341 | a concrete queue of two deltas, answering different messages, whose text agrees under merging and whose metadata does not |
| DispatchTheory.PartsAgainstTag | crates/channels/src/manager.rs:374-408 | message-by-message dispatch never says more than merging, and says the same exactly when every part is in tune |
| DispatchTheory.SendOnceSays | crates/channels/src/manager.rs:374-408 | a delta is heard character by character and then its end, what was streamed already is not sent again, anything else is sent whole |
| FeishuStream.AllTimingsShowTheSameIff | crates/channels/src/feishu.rs:1955-2074 | for every queue with one stream per chat, and whatever is buffered, the channel shows under all timings what it would show without merging if and only if no end can be absorbed behind text |
| FeishuStream.MergedEndLosesTextIff | crates/channels/src/feishu.rs:1955-2074 | a merged group leaves the same texts waiting as its parts, and shows the same if and only if no text was merged with an end |
| FeishuStream.OpenStreamIsBuffered | crates/channels/src/feishu.rs:2066-2074 | the deltas of a stream are buffered in order under the message they answer, and nothing is finished before the end |
| FeishuStream.AnswersAreKeptApart | crates/channels/src/feishu.rs:902-908 | deltas that answer different messages in one chat never touch each other's text |
| FeishuStream.UnansweringIsByChat | crates/channels/src/feishu.rs:902-908 | without the id of an answered message the chat is the stream |
| FeishuStream.ShortAnswerIsLost | crates/channels/src/feishu.rs:1955-2074 | a concrete one-word answer that is never shown when its end is ready in time |
| Lane.StepKeepsInv | crates/bus/src/queue.rs:38-53 | every micro-step keeps counter = queue length - uncounted + undiscounted, modulo the word size, and the order of messages |
| Lane.RunKeepsInv | crates/bus/src/queue.rs:38-53 | so does every interleaving |
| Lane.CounterIsExactIff | crates/bus/src/queue.rs:38-53 | consumed plus queued is the send order; the counter is exact if and only if as many senders as receivers are between their two steps |
| Lane.EmptyLaneCanLookFull | crates/bus/src/queue.rs:38-53 | a concrete interleaving wraps the counter around |
| History.MemoryStore.AppendHistory | crates/agent/src/memory.rs:143-181 | one entry with the next cursor, in the log and in the cursor file |
| History.CompactedCovered | crates/agent/src/memory.rs:207-218 | compaction keeps the log complete for the consumer if and only if it is off or keeps at least the unprocessed backlog |
| History.MemoryStore.BeginDreaming | crates/agent/src/memory.rs:828-842 | the batch is the front of what lies behind the Dream cursor |
| History.MemoryStore.EndDreaming | crates/agent/src/memory.rs:1009-1025 | the cursor moves to the batch's last entry only on completion; compaction follows either way |
| History.NextCursorsAgree | crates/agent/src/memory.rs:183-198 | in every state of a run cursor file, last entry and full scan give the same next cursor |
| History.UnprocessedIsSuffix | crates/agent/src/memory.rs:200-205 | what lies behind a cursor is a suffix of the log |
| History.StepKeepsInv | crates/agent/src/memory.rs:143-218 | append, begin, end and failure of a Dream keep the invariant, with appends in between |
| History.RunKeepsInv | crates/agent/src/memory.rs:143-218 | so does every crash-free run |
| History.CursorsIncrease | crates/agent/src/memory.rs:143-198 | cursors in the log strictly increase in every state of every run |
| History.CoveredIff | crates/agent/src/memory.rs:828-1025 | completed Dreams cover the entries in order without gap or repeat, nothing unprocessed is cut, if and only if each compaction kept at least the unprocessed backlog |
| History.EntryIsLost | crates/agent/src/memory.rs:1009-1025 | a concrete run in which an entry leaves the log before any Dream has seen it |
| History.StepCovered | crates/agent/src/memory.rs:1009-1025 | a single step keeps coverage if and only if its compaction is safe |
| History.DeliveredAscending | crates/agent/src/memory.rs:828-1025 | even when entries are lost, none is handled twice and the order is kept |
| History.CrashReusesCursorIff | crates/agent/src/memory.rs:178-179 | after a crash between append and cursor write the next entry reuses the cursor if and only if a cursor file existed |
| History.CrashedEntryIsSkippedIff | crates/agent/src/memory.rs:178-205 | whatever is appended later, a completed Dream then leaves the rest of the backlog unread for later if and only if its batch does not stop between the two equal cursors |
| History.PassedIsNeverRead | crates/agent/src/memory.rs:200-205 | what a cursor has passed is never read again, so an entry skipped that way is lost |
| Subagents.KeepsSessions | crates/agent/src/subagent.rs:176-220 | after every critical section a session's set holds exactly its listed tasks that are neither finished nor cancelled, and no set is empty |
| Subagents.Manager.FinishTask | crates/agent/src/subagent.rs:209-220 | the cleanup removes the id from all maps, and the session once it is empty |
| Subagents.Manager.CancelBySession | crates/agent/src/subagent.rs:411-436 | the session and all of its ids are removed, one by one, and returned; aborted are exactly those whose handle is stored |
| Subagents.Manager.RunningCountBySession | crates/agent/src/subagent.rs:442-454 | going through the session's ids one by one counts those that have a handle |
| Subagents.StepKeepsInv | crates/agent/src/subagent.rs:171-226 | every critical section keeps the maps equal to what the tasks' histories say |
| Subagents.RunKeepsInv | crates/agent/src/subagent.rs:171-436 | so does every interleaving |
| Subagents.MapsAreConsistent | crates/agent/src/subagent.rs:171-436 | no session maps to an empty set, session sets are disjoint, every id in one has a status |
| Subagents.GoneForGood | crates/agent/src/subagent.rs:411-436 | a cancelled or finished id never reappears in the status map or a session |
| Subagents.AbortedIff | crates/agent/src/subagent.rs:420-434 | in every interleaving a cancelled task was aborted if and only if its handle had been stored before the cancellation |
| Subagents.CancelledTaskRunsOn | crates/agent/src/subagent.rs:420-434 | a concrete interleaving in which a cancelled task is not aborted and can still finish |
| Subagents.LateHandleHappens | crates/agent/src/subagent.rs:209-226 | a concrete interleaving in which the handle is stored after the cleanup |
| Subagents.LateHandleLeaks | crates/agent/src/subagent.rs:209-226 | such a handle is never removed |
| Subagents.QuiescenceIff | crates/agent/src/subagent.rs:171-226 | when all tasks are finished or cancelled and all spawning calls have returned, the status and session maps are empty, the handle map if and only if no handle was stored too late |
| Subagents.CountBySession | crates/agent/src/subagent.rs:442-454 | the count is that of the session's live tasks with a stored handle, leaks notwithstanding |
| Base64.DecodeEncode | crates/channels/src/weixin.rs:1771-1788 | decoding an encoding gives back the bytes (section 4 of RFC 4648) |
| Base64.EncodeDecode | crates/channels/src/weixin.rs:1771-1788 | a text that decodes is the encoding of what it decodes to: the decoder accepts nothing else |
| Base64.HexRoundTrip | crates/channels/src/weixin.rs:1771-1788 | the same for hexadecimal (section 8 of RFC 4648) |
| Base64.Alphabets | crates/channels/src/weixin.rs:1771-1788 | the alphabets of tables 1 and 5 of RFC 4648 |
| Base64.LongTestVector | crates/channels/src/weixin.rs:1771-1788 | the encoding of "foobar" from section 10 of RFC 4648 |
| Base64.ShortTestVectors | crates/channels/src/weixin.rs:1771-1788 | the encodings of "f" and "fo" from the same section, with padding |
| Base64.HexCase | crates/channels/src/weixin.rs:1771-1788 | upper-case hex digits are read like lower-case ones |
| MediaCodec.BothSpellingsParse | crates/channels/src/weixin.rs:1771-1788 | base64 of the raw key and base64 of its hex text parse to the same key |
| MediaCodec.ParsesIff | crates/channels/src/weixin.rs:1771-1788 | a text parses if and only if it encodes 16 bytes or 32 hex digits |
| MediaCodec.UnpadPad | crates/channels/src/weixin.rs:1825-1840 | unpadding undoes padding, and the padded size is the advertised one |
| MediaCodec.PadUnpadIff | crates/channels/src/weixin.rs:1825-1840 | padding undoes unpadding if and only if the data was well padded |
| MediaCodec.TransformBlocks | crates/channels/src/weixin.rs:1800-1821 | the in-place loop maps every 16-byte block |
| MediaCodec.EncryptAesEcb | crates/channels/src/weixin.rs:1790-1806 | padding and block encryption, or the data itself for an unreadable key |
| MediaCodec.DecryptAesEcb | crates/channels/src/weixin.rs:1808-1823 | block decryption and unpadding, or the data itself when it cannot be a ciphertext |
| MediaCodec.BlocksInvert | crates/channels/src/weixin.rs:1790-1823 | decrypting block by block undoes encrypting block by block |
| MediaCodec.CipherBlocks | crates/channels/src/weixin.rs:1790-1806 | with a readable key every 16-byte block of the output is the cipher's image of that block of the padded data |
| MediaCodec.PlainBlocks | crates/channels/src/weixin.rs:1808-1823 | and every block of a ciphertext is decrypted before the padding goes |
| MediaCodec.UnreadableIsUnchanged | crates/channels/src/weixin.rs:1790-1815 | an unreadable key or a broken ciphertext leaves the data as it is |
| MediaCodec.DecryptEncrypt | crates/channels/src/weixin.rs:1790-1840 | for every byte string and key text decryption undoes encryption, and the ciphertext has the advertised size |
| MediaCodec.SpellingsDecryptEachOther | crates/channels/src/weixin.rs:1461-1496 | what is encrypted under the raw spelling of a key is decrypted under the advertised hex spelling |
| Italics.SingleStarItalicRanges | crates/channels/src/feishu.rs:969-999 | ranges are ordered, disjoint, within a line and bounded by isolated stars, and are all there are |
| Italics.RangesAreItalics | crates/channels/src/feishu.rs:969-999 | each range runs between two stars without a star beside them, with no line feed or carriage return inside |
| Italics.NoPairIsLeft | crates/channels/src/feishu.rs:1001-1016 | after stripping, a line ends between any two stars without a star beside them |
| Italics.StripSingleStarItalics | crates/channels/src/feishu.rs:1001-1016 | the cursor-driven copy is the one-pass stripping |
| Italics.CutIsStripped | crates/channels/src/feishu.rs:969-1016 | cutting out the ranges is stripping, and removes exactly two characters per range |
| Italics.StrippedIsQuiet | crates/channels/src/feishu.rs:969-1016 | no pair remains, and every remaining star touches another star exactly if it did before |
| Italics.QuietIsUnchanged | crates/channels/src/feishu.rs:969-1016 | a text without pairs is left alone |
| Italics.StripTwice | crates/channels/src/feishu.rs:1001-1016 | stripping is idempotent |
| Dedup.Processed.Check | crates/channels/src/feishu.rs:2276-2287 | an id is rejected exactly when it is among the last 1000 accepted, and the deque always equals that window |
| Dedup.AcceptedAreDistinct | crates/channels/src/weixin.rs:734-743 | over every stream any 1001 consecutive accepted ids are pairwise distinct |
| Dedup.NewIdIsAccepted | crates/channels/src/weixin.rs:734-743 | an id that was never accepted is accepted |
| Dedup.AcceptedAgainIff | crates/channels/src/qq.rs:657-666 | an id is accepted again if and only if its last acceptance lies more than 1000 acceptances back |

## Left out

- Runner.MergeContent: contents that are not both text are merged by the parameter `mergeBlocks`; the block lists themselves are not modelled.
- Runner.RequestModel: streaming callbacks, delta pumps, timeouts, hooks, progress messages and file-edit tracking are not modelled, nor is the extraction of reasoning from an answer; the answer is taken as it is after that.
- Runner.FinalizationRetry: the retry sends the ungoverned transcript, so nothing is claimed about that list.
- Runner.TryDrainInjections: the branch that emits a checkpoint is never taken, since no caller passes an iteration, and is omitted.
- Runner.Run: the 64-bit range of usage sums is not modelled; a sum that leaves it is out of scope.
- ToolBatches.ExecuteTools: what a single tool does is a parameter, including repeated-lookup throttling, SSRF and workspace-violation texts (the violation count is never stored back, so its escalation is unreachable).
- Recovery.Session.RestoreRuntimeCheckpoint: one time stamp stands for all stamps of a call; a checkpoint value that is not an object counts as none.
- History.RunKeepsInv: an append and a compaction are each taken as one step, although the source reads and rewrites the file without a lock, so that an append in between could be lost.
- History.MemoryStore.BeginDreaming: one Dream at a time; the truncation of entry text, legacy-history conversion and the 64-bit range of cursors are not modelled, and reading the last line from the end of the file is the parameter `tailReadable`.
- Lane.CounterIsExactIff: at most as many unfinished publishers as a machine word can count; raw sender handles, which bypass the counter, are not modelled.
- Dedup.Processed.Check: the immediate rejection of empty ids by the QQ channel is not modelled.
- Snip.FindLegalMessageStart: ids that are neither text nor 64-bit integers count as absent, as in the source; integers are not bounded.
- Governance.Govern: pairing is stated for ids that are text, the only ones the runner's passes recognise.
- Subagents.RunKeepsInv: task ids are taken to be distinct, although they are eight-character prefixes of random UUIDs; a collision is not modelled.
- FeishuStream.AllTimingsShowTheSameIff: stated for queues whose deltas to the channel pass the filter, mark only real ends and keep to one stream per chat; interim card updates, throttling, reactions and failing requests are not modelled, only the text a stream has when it ends.
- The turn transition table and the `process_message` loop with its persistence of user messages: eight states in a fixed order, and no exactly-once claim holds for the early-persisted message.
- Retrying a failed send, with its delays: each message is taken to reach its channel in one call.
- AES itself, token counting, tool-result normalization to files: parameters.
- MCP, providers, presets, configuration, tool factories, HTTP and WebSocket clients, media transfer, Markdown cards, command router, skeleton channels, CLI and web front ends: plumbing or easy members.
