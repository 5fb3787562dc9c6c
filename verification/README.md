# Kimi CLI runtime: models and proofs

This project models the parts of the agent runtime under `src/kimi_cli` whose correctness depends on state that
several operations or several processes share, and proves what they keep over whole runs:

- the conversation context and its journal: memory is the replay of the file, reverting returns to a checkpoint,
  forking cuts both files consistently, compaction and normalization keep the structure of a history;
- the approval runtime: one future per request shared by concurrent observers, and the session cache on top of it;
- the refresh of an OAuth credential by many processes around a shared file, a best-effort lock and a server that
  rotates refresh tokens (section 6 of RFC 6749);
- the deduplication of tool calls and the streak counter, resting on a canonical JSON form (RFC 8259, sections 4, 5
  and 7);
- background tasks written by a manager, an in-process runner and a separate worker, and the notifications that
  announce them;
- the in-place synchronisation of managed models with the configuration, and the byte budget of AGENTS.md files.

Every area has the same shape. A module of values defines the state, the steps and their meaning, and proves
invariants and run-level theorems about them. Where the source updates objects or runs a loop, a second module (or a
class in the same one) holds the imperative form, whose methods are proved equal to the steps. Concurrency is
interleaving: a step is what runs from one `await`, or one access to a shared file, to the next.

| file | content |
|---|---|
| `Messages.dfy`, `Text.dfy`, `Wrappers.dfy`, `Listings.dfy` | messages and their estimate, text, options, ordered listings |
| `ContextLog.dfy`, `ContextOps.dfy`, `Context.dfy` | the journal, the operations and runs on it, the `Context` object |
| `SessionFork.dfy`, `History.dfy`, `Compaction.dfy` | forking, normalization, compaction |
| `ApprovalProtocol.dfy`, `SessionApproval.dfy`, `SessionRuns.dfy`, `ApprovalObjects.dfy` | the approval runtime, sessions on it, their runs, the objects |
| `OAuthRefresh.dfy`, `OAuthRuns.dfy`, `OAuthManager.dfy` | the refresh protocol, its runs, the manager object |
| `CanonicalJson.dfy`, `JsonTokens.dfy`, `JsonTexts.dfy`, `CanonicalArguments.dfy`, `ToolDedup.dfy`, `Toolset.dfy` | JSON parser and printer, the texts of the grammar, canonical form, streaks, the toolset object |
| `BackgroundTasks.dfy`, `TaskOutcomes.dfy`, `BackgroundObjects.dfy` | the task system, what its records say over whole runs, its objects |
| `Notifications.dfy`, `Deliveries.dfy`, `NotificationObjects.dfy` | notifications, runs of their delivery, the manager object |
| `TaskNotices.dfy`, `TaskNoticeObjects.dfy` | announcing finished tasks |
| `ModelSync.dfy`, `AgentsMd.dfy` | managed models, AGENTS.md budget |

Where the code does less than one might expect, the condition is exact:

- Prepending a system prompt keeps memory equal to the journal exactly when none is set or the same one is
  (`ContextOps.WritePromptMatchesJournal`): replay lets the last prompt record win.
- Cutting a wire log twice equals cutting it once except for `k == -1` and `j < -1` (`SessionFork.CutComposes`).
- A presented refresh token is refused exactly when the file has moved on or another call holds an unsaved rotation
  (`OAuthRuns.RefusedIffOvertaken`); the invariant breaks exactly when an answered call is dropped before it saved
  (`OAuthRuns.OnlyALostRotationBreaksInv`), and then for good (`OAuthRuns.LostForGood`).
- A terminal task is reopened exactly when the worker of a task that recovery closed starts or resumes its command
  (`BackgroundTasks.TerminalIsReopenedIff`).
- A publishing limit of zero or less looks at one finished task only (`TaskNotices.ZeroLimitLooksAtOne`), and a claim
  with such a limit still takes one notification (`Notifications.ClaimTakesTheOldest`).
- Synchronising models keeps a configuration valid exactly when the provider is configured or the list is empty
  (`ModelSync.SyncedValid`).

## Model

| member | source | states |
|---|---|---|
| `Messages.EstimateTextTokens` | src/kimi_cli/soul/compaction.py:48-57 | the estimate of a history is its characters divided by four, rounded down once |
| `Messages.EstimateIsAQuarterOfTheText` | src/kimi_cli/soul/compaction.py:48-57 | the estimate is a quarter, rounded down, of the length of all text, thinking and media not counted |
| `ContextLog.ReplayConcat` | src/kimi_cli/soul/context.py:30-65 | replaying a log after another is replaying both in one |
| `ContextLog.OrderedCounter` | src/kimi_cli/soul/context.py:123-133 | while the checkpoint ids in the log are 0..n-1, the replayed counter is n |
| `ContextLog.CutTwice` | src/kimi_cli/soul/context.py:135-200 | cutting a log before one checkpoint and then before an earlier one is cutting before the earlier one |
| `ContextLog.CutOrderedTwice` | src/kimi_cli/soul/context.py:135-200 | in an ordered log that holds for every pair k < j |
| `ContextOps.WritePromptMatchesJournal` | src/kimi_cli/soul/context.py:91-121 | prepending a prompt keeps memory equal to the journal if and only if no different prompt is set |
| `ContextOps.RestoreMatchesJournal` | src/kimi_cli/soul/context.py:30-65 | restoring over an empty history keeps memory equal to the journal |
| `ContextOps.StepConsistent` | src/kimi_cli/soul/context.py:91-248 | every operation keeps memory equal to the replay and the checkpoint ids ordered |
| `ContextOps.RunConsistent` | src/kimi_cli/soul/context.py:91-248 | so does every run of operations |
| `ContextOps.RestartReproducesLiveState` | src/kimi_cli/soul/context.py:30-65 | a fresh context over the file of any run restores the live history, token count, checkpoint counter and prompt |
| `ContextOps.RevertTwice` | src/kimi_cli/soul/context.py:135-200 | reverting to k and then to j < k leaves the state that reverting to j leaves |
| `ContextOps.RevertReturnsToCheckpoint` | src/kimi_cli/soul/context.py:135-200 | whatever ran after a checkpoint and spared it, reverting to it restores history, token count and counter from before it |
| `ContextOps.OperationsFailIff` | src/kimi_cli/soul/context.py:135-230 | a revert finds exactly the checkpoints the file holds; it, a clear and a restore succeed exactly when their conditions hold, and a failure changes nothing |
| `ContextOps.FailuresNameTheirCause` | src/kimi_cli/soul/context.py:135-230 | which error is raised in any state |
| `ContextOps.RevertCutsInFront` | src/kimi_cli/soul/context.py:135-200 | the old file is moved away and what stood in front of the checkpoint is left, junk aside |
| `ContextOps.ClearStartsOver` | src/kimi_cli/soul/context.py:202-230 | clearing moves the old file away and starts over with an empty one |
| `ContextOps.CompactionRebuildsContext` | src/kimi_cli/soul/kimisoul.py:1575-1598 | clearing, prompt, checkpoint, append and usage after compaction leave a consistent context with exactly the new messages |
| `ContextOps.FloorsLose` | src/kimi_cli/soul/compaction.py:48-57 | rounding k chunks separately loses at most three quarters of a token each |
| `ContextOps.PendingEstimateBound` | src/kimi_cli/soul/context.py:232-248 | the live pending estimate never exceeds the restored one and falls short by at most floor(3k/4) for k chunks |
| `ContextOps.PendingEstimateGapIsReached` | src/kimi_cli/soul/context.py:232-240 | that bound is reached by n appended messages of three characters |
| `SessionContext.Context.ApplyContextRecord` | src/kimi_cli/soul/context.py:276-339 | one record changes history, count, counter, prompt and pending messages as replay says |
| `SessionContext.Context.Restore` | src/kimi_cli/soul/context.py:30-65 | restore is the replay step, or the error for a context already in use |
| `SessionContext.Context.WriteSystemPrompt` | src/kimi_cli/soul/context.py:91-121 | the prompt is stored and put in front of the log |
| `SessionContext.Context.Checkpoint` | src/kimi_cli/soul/context.py:123-133 | the next id is appended, with the user message if asked |
| `SessionContext.Context.RevertTo` | src/kimi_cli/soul/context.py:135-200 | the log is rotated and cut before the checkpoint, memory is rebuilt from it; each error leaves all as it was |
| `SessionContext.Context.Clear` | src/kimi_cli/soul/context.py:202-230 | the log is rotated and memory is empty |
| `SessionContext.Context.AppendMessage` | src/kimi_cli/soul/context.py:232-240 | messages go to memory, log and the pending estimate |
| `SessionContext.Context.UpdateTokenCount` | src/kimi_cli/soul/context.py:242-248 | the count is set, the pending estimate reset and both logged |
| `SessionFork.EnumerateTurns` | src/kimi_cli/session_fork.py:37-72 | one entry for each turn begin, numbered from zero, with its user text |
| `SessionFork.JoinIsSpaced` | src/kimi_cli/session_fork.py:75-94 | the texts of an input are joined with exactly one space between neighbours |
| `SessionFork.TextsOfConcat` | src/kimi_cli/session_fork.py:75-94 | the texts of an input are collected part by part |
| `SessionFork.TruncateWireAtTurn` | src/kimi_cli/session_fork.py:97-150 | the scan returns the specified cut, or the error for a missing file or turn |
| `SessionFork.TruncatedWireTurns` | src/kimi_cli/session_fork.py:97-150 | truncation fails exactly when the turn does not exist and otherwise keeps the first k + 1 turns |
| `SessionFork.CutKeepsAllUpToTheTurn` | src/kimi_cli/session_fork.py:97-150 | up to the end of the chosen turn every legible line survives, whatever event it is, and none behind it |
| `SessionFork.CutComposes` | src/kimi_cli/session_fork.py:97-150 | cutting at k and then at j <= k is cutting at j, except exactly for k = -1 and j < -1 |
| `SessionFork.TruncateTwice` | src/kimi_cli/session_fork.py:97-150 | truncating a truncated wire at an earlier turn truncates the original there |
| `SessionFork.TruncateContextAtTurn` | src/kimi_cli/session_fork.py:172-207 | the scan returns the specified cut of the context file |
| `SessionFork.OnlyUserMessagesBeginTurns` | src/kimi_cli/session_fork.py:153-207 | exactly the user messages that are no single marker text begin a turn |
| `SessionFork.CheckpointTextIffMarker` | src/kimi_cli/session_fork.py:19 | a text matches the pattern exactly when it is the fixed texts around at least one digit |
| `SessionFork.CutContextPrefix` | src/kimi_cli/session_fork.py:172-207 | the cut is a prefix of the readable lines and holds exactly the turns asked for |
| `SessionFork.CutContextComposes` | src/kimi_cli/session_fork.py:172-207 | cutting the context at k and then at j <= k is cutting at j |
| `SessionFork.ForkOpensConsistently` | src/kimi_cli/session_fork.py:215-266 | a forked context opens with memory equal to its log, ordered checkpoint ids and a prefix of the history |
| `SessionFork.CheckpointMessageIsRecognised` | src/kimi_cli/session_fork.py:153-169 | the message a checkpoint writes is recognised by the fork reader, whatever its id |
| `SessionFork.CheckpointMessageShowsItsId` | src/kimi_cli/soul/context.py:123-133 | the marker of a checkpoint shows the number of that checkpoint |
| `SessionFork.CheckpointAddsNoTurn` | src/kimi_cli/session_fork.py:153-169 | so a checkpoint never counts as a turn |
| `History.NormalizeHistory` | src/kimi_cli/soul/dynamic_injection.py:58-84 | the loop computes the fold of merging pushes |
| `History.NotificationOpensWithItsTag` | src/kimi_cli/notifications/llm.py:73-77 | one text is a notification exactly if it is a user's and opens with the tag after white space |
| `History.OnlySingleTextsAreNotifications` | src/kimi_cli/notifications/llm.py:73-77 | nothing but a single user text is one |
| `Text.IsSpaceIffListed` | src/kimi_cli/notifications/llm.py:73-77 | what is stripped in front of the tag is exactly the white space of Python |
| `History.MergedIsNoNotification` | src/kimi_cli/notifications/llm.py:73-77 | merging two messages that are no notifications never makes one |
| `History.SettledIsFixed` | src/kimi_cli/soul/dynamic_injection.py:58-84 | normalization leaves a history alone exactly when no two neighbours can merge |
| `History.NormalizeIsIdempotent` | src/kimi_cli/soul/dynamic_injection.py:58-84 | normalizing twice is normalizing once |
| `History.NormalizeIncrementally` | src/kimi_cli/soul/dynamic_injection.py:58-84 | the normalized form of a prefix can stand in for the prefix |
| `History.AppendKeepsPrefix` | src/kimi_cli/soul/dynamic_injection.py:58-84 | a new message changes nothing before the last normalized message |
| `History.NormalizedKeepsContent` | src/kimi_cli/soul/dynamic_injection.py:58-84 | what was said, by whom and in which order is kept, and untouchable messages stay whole |
| `Compaction.SimpleCompaction.PrepareInput` | src/kimi_cli/soul/compaction.py:154-198 | the backward count finds the specified cut and builds the input message |
| `Compaction.SimpleCompaction.Compact` | src/kimi_cli/soul/compaction.py:114-148 | the result is the specified one: the marker and the summary without thinking followed by the preserved messages, or the unchanged history |
| `Compaction.SummarySurvives` | src/kimi_cli/soul/compaction.py:134-148 | the first message is the marker followed by exactly the summary's parts that are no thinking, in order, each as often |
| `Compaction.CompactionHappens` | src/kimi_cli/soul/compaction.py:154-198 | compaction happens exactly when a cut with something before it exists |
| `Compaction.PreparedSplitsHistory` | src/kimi_cli/soul/compaction.py:154-198 | compacted prefix and preserved suffix are the history, and the input is built from the prefix |
| `Compaction.CutIsUnique` | src/kimi_cli/soul/compaction.py:165-185 | the suffix that starts at a user or assistant message and holds the required number of them is unique |
| `Compaction.TurnMessagesCount` | src/kimi_cli/soul/compaction.py:165-185 | what is counted are the messages of the user and the assistant |
| `Compaction.CompactedKeepsStructure` | src/kimi_cli/soul/compaction.py:114-148 | the result is no longer than the history and keeps every tool result behind its call |
| `Compaction.InputCarriesTexts` | src/kimi_cli/soul/compaction.py:187-198 | every text of the compacted messages reaches the input in order |
| `Compaction.TextPartsAreTheTexts` | src/kimi_cli/soul/compaction.py:187-198 | of a message the input takes what its text parts say, all of it and nothing else |
| `Compaction.InputIsInSections` | src/kimi_cli/soul/compaction.py:187-198 | the input is one section for each message in order: its number, its role and then its texts |
| `ApprovalProtocol.RunKeepsInv` | src/kimi_cli/approval_runtime/runtime.py:61-189 | in every interleaving waiters, counts, futures and records fit together, and a settled record is never written again |
| `ApprovalProtocol.ObserversAgreeWithRecord` | src/kimi_cli/approval_runtime/runtime.py:86-189 | every untimed observer that was not itself cancelled got exactly the outcome of the record |
| `ApprovalProtocol.NoObserverIsStranded` | src/kimi_cli/approval_runtime/runtime.py:86-127 | an observer still waiting either waits for a pending request on its registered future or can wake |
| `ApprovalProtocol.ObserverIsToldOrWaits` | src/kimi_cli/approval_runtime/runtime.py:86-108 | an observer of a settled request is told its outcome at once, one of a pending request is suspended |
| `ApprovalProtocol.WakingAndLeavingSettleNothing` | src/kimi_cli/approval_runtime/runtime.py:109-127 | waking tells what the record says, leaving tells nothing, and neither settles anything |
| `ApprovalProtocol.TimeoutCancels` | src/kimi_cli/approval_runtime/runtime.py:109-127 | a timeout cancels a pending request for everybody and nothing else |
| `ApprovalProtocol.RecordSaysWhatWasAsked` | src/kimi_cli/approval_runtime/runtime.py:61-84 | a new record holds action, source and time as given and is pending; it is the last in order |
| `ApprovalProtocol.RecordKeepsItsAnswer` | src/kimi_cli/approval_runtime/runtime.py:129-152 | the first answer to a pending request, with its feedback, is what its record says after every run |
| `ApprovalProtocol.CancelBySourceIsComplete` | src/kimi_cli/approval_runtime/runtime.py:171-189 | every pending request of the source is cancelled and no other request changes |
| `SessionApproval.CascadeIsComplete` | src/kimi_cli/soul/approval.py:370-379 | after an approval for the session no request of that action is pending |
| `SessionApproval.BeginAnswers` | src/kimi_cli/soul/approval.py:172-318 | a request is granted by a mode iff yolo or an afk flag is set, by the cache iff none is and its action is cached, and otherwise put to the user on a pending record |
| `SessionApproval.EnteringAModeGrants` | src/kimi_cli/soul/approval.py:152-178 | entering any mode grants the next request |
| `SessionApproval.LeavingModesAsksAgain` | src/kimi_cli/soul/approval.py:152-178 | leaving yolo and afk puts the next request to the user again, whatever started the afk |
| `SessionApproval.SettingsAreIndependent` | src/kimi_cli/soul/approval.py:152-170 | each setting changes itself only, except that leaving afk ends that of the invocation too |
| `SessionApproval.OthersReachTheRuntime` | src/kimi_cli/soul/approval.py:131-150 | what others do happens to the shared runtime, and only their answers are resolutions |
| `SessionApproval.AbandoningLeaves` | src/kimi_cli/soul/approval.py:300-318 | a caller that gives up leaves its wait and is not answered |
| `SessionApproval.FinishAnswers` | src/kimi_cli/soul/approval.py:318-413 | a resumed caller is answered by its record; exactly an approval for the session is cached, and then none of its action is pending |
| `SessionApproval.SortedByAge` | src/kimi_cli/approval_runtime/runtime.py:191-194 | pending requests are listed oldest first, those of one time in the order they were made |
| `SessionApproval.ProceedKeepsSession` | src/kimi_cli/soul/approval.py:200-413 | every move of every shared approval keeps the session invariant |
| `SessionRuns.SessionCacheIsSafe` | src/kimi_cli/soul/approval.py:262-298 | in every run no pending request has a cached action, and every resolution through the cache follows an approval for the session of its action |
| `SessionRuns.AnswersComeFromRecords` | src/kimi_cli/soul/approval.py:282-413 | every answer given agrees with its record, and an answer from the cache was saved earlier or licensed by a resolution |
| `SessionRuns.GrantsWereDue` | src/kimi_cli/soul/approval.py:242-280 | in every run, who was granted a request at once asked when a mode was set, or when none was and the action was cached |
| `ApprovalObjects.ApprovalRuntime.CreateRequest` | src/kimi_cli/approval_runtime/runtime.py:61-84 | stores a pending record |
| `ApprovalObjects.ApprovalRuntime.BeginWaitForResponse` | src/kimi_cli/approval_runtime/runtime.py:86-108 | registers the observer on the shared future, or answers from a settled record |
| `ApprovalObjects.ApprovalRuntime.EndWaiting` | src/kimi_cli/approval_runtime/runtime.py:109-127 | leaving drops the count and, for the last observer of a pending request, the waiter |
| `ApprovalObjects.ApprovalRuntime.Resolve` | src/kimi_cli/approval_runtime/runtime.py:129-152 | settles a pending record and its future once; tells whether it did |
| `ApprovalObjects.ApprovalRuntime.CancelPending` | src/kimi_cli/approval_runtime/runtime.py:154-169 | cancels a pending record and its future |
| `ApprovalObjects.ApprovalRuntime.CancelFromSource` | src/kimi_cli/approval_runtime/runtime.py:171-189 | the loop cancels what the specification cancels and returns how many requests of the source were pending |
| `ApprovalObjects.Approval.Share` | src/kimi_cli/soul/approval.py:141-143 | a shared approval has the same state and runtime |
| `ApprovalObjects.Approval.SetAfkMode` | src/kimi_cli/soul/approval.py:156-166 | clearing afk also clears the runtime flag |
| `ApprovalObjects.Approval.BeginRequest` | src/kimi_cli/soul/approval.py:242-318 | grants at once in automatic mode or from the cache, else creates the request and waits |
| `ApprovalObjects.Approval.FinishRequest` | src/kimi_cli/soul/approval.py:336-413 | answers from the response and cascades an approval for the session |
| `OAuthRefresh.Threshold` | src/kimi_cli/auth/oauth.py:69-73 | the refresh threshold is exactly the larger of five minutes and half the lifetime |
| `OAuthRefresh.CheckRefreshesIff` | src/kimi_cli/auth/oauth.py:967-991 | a call goes on to the file lock iff the file holds a refresh token that is not cooling down and the call is forced or the token's expiry is unknown, less than five minutes away or less than half its lifetime away |
| `OAuthRefresh.RecheckRefreshesIff` | src/kimi_cli/auth/oauth.py:998-1017 | under the file lock the server is asked iff the token is the one waited for and still due |
| `OAuthRefresh.LooksTakeTheFileOver` | src/kimi_cli/auth/oauth.py:806-905 | every look caches the file's token and forgets older refusals, unless this very token was refused |
| `OAuthRefresh.RefusalIsSettled` | src/kimi_cli/auth/oauth.py:1020-1049 | a refusal is believed only while the refused token is still in the file |
| `OAuthRefresh.RefusedTokenCoolsDown` | src/kimi_cli/auth/oauth.py:824-831 | for five minutes after a refusal its process leaves the token alone, and then it may try again |
| `OAuthRefresh.FailureIsRetriedTwice` | src/kimi_cli/auth/oauth.py:503-548 | a failed request is repeated at most twice, if it may be repeated at all |
| `OAuthRefresh.ViewIsKept` | src/kimi_cli/auth/oauth.py:806-847 | what a call learns changes its own manager's cache and its own process's memory only |
| `OAuthRefresh.SavingTellsEverybody` | src/kimi_cli/auth/oauth.py:1063-1071 | a refreshed token goes to the file and the cache, the tombstone and the lock are released |
| `OAuthRefresh.DropsAndTicks` | src/kimi_cli/auth/oauth.py:951-1071 | a dropped call ends in an error and lets go of the lock, and the file stays |
| `OAuthRefresh.NextKeepsInv` | src/kimi_cli/auth/oauth.py:951-1071 | every step of any process keeps file, server, claims, tombstones, caches and lock in accord, and the file never goes backward |
| `OAuthRuns.FileNeverGoesBack` | src/kimi_cli/auth/oauth.py:951-1071 | over every run the file's generation does not fall and is the server's, or one behind while exactly one call holds the successor, even with fallbacks |
| `OAuthRuns.OnlyALostRotationBreaksInv` | src/kimi_cli/auth/oauth.py:1020-1071 | a step breaks the invariant if and only if it drops an answered call before its token is saved |
| `OAuthRuns.DroppingAnAnswerLoses` | src/kimi_cli/auth/oauth.py:1020-1071 | after such a step nothing in the system can reach the server's token |
| `OAuthRuns.LostForGood` | src/kimi_cli/auth/oauth.py:951-1071 | then no run changes the file again and every presented token is dead |
| `OAuthRuns.OnlyStaleTokensAreRefreshed` | src/kimi_cli/auth/oauth.py:967-1017 | in every run, an unforced call on its way to the server saw that very token run out at its last look |
| `OAuthRuns.ReachesTheLockIff` | src/kimi_cli/auth/oauth.py:951-991 | a call of a process without a tombstone reaches the lock iff it is forced or the token runs out |
| `OAuthRuns.ReachesTheServerIff` | src/kimi_cli/auth/oauth.py:993-1017 | a waiting call that gets the lock asks the server iff it is forced or the token still runs out |
| `OAuthRuns.RefusedIffOvertaken` | src/kimi_cli/auth/oauth.py:1020-1049 | a presented token is refused if and only if the file moved on or another call holds an unsaved rotation |
| `OAuthRuns.SuppressedTokenHasASuccessor` | src/kimi_cli/auth/oauth.py:806-839 | a process suppresses the persisted token only while some call holds its successor |
| `OAuthRuns.SavingLiftsSuppression` | src/kimi_cli/auth/oauth.py:806-839 | saving the successor lifts the suppression in every process |
| `OAuthRuns.CachesNeverGoBack` | src/kimi_cli/auth/oauth.py:833-847 | a manager's cached token is never replaced by an older one over a run, even when it was cleared in between |
| `OAuthRuns.LockedRunsPresentEachTokenOnce` | src/kimi_cli/auth/oauth.py:985-1071 | when every process gets the lock, the tokens answered about are the current one and its successors in order, so none is refused or consumed twice |
| `OAuthRuns.LockedRunsFromTheStart` | src/kimi_cli/auth/oauth.py:985-1071 | the same from the opening state, and no tombstone is ever made |
| `OAuthRuns.OneFallbackCanRefuseTheHolder` | src/kimi_cli/auth/oauth.py:985-1049 | from any state with a posting holder and a waiting call, one fallback has the holder refused and its process suppress the token |
| `OAuthRuns.OneFallbackFromTheStart` | src/kimi_cli/auth/oauth.py:951-1049 | such a state is reached: the whole run from the opening state, by two managers, ends with the persisted token suppressed |
| `OAuthObjects.OAuthManager.RejectedRefreshState` | src/kimi_cli/auth/oauth.py:806-815 | returns the tombstone of the token and forgets one of another token |
| `OAuthObjects.OAuthManager.EnsureFresh` | src/kimi_cli/auth/oauth.py:878-905 | loads and caches, or clears the cache of a suppressed token and gives up inside the cooldown |
| `OAuthObjects.OAuthManager.PrepareRefresh` | src/kimi_cli/auth/oauth.py:951-966 | re-reads the file and stops without a refresh token |
| `OAuthObjects.OAuthManager.CheckInside` | src/kimi_cli/auth/oauth.py:967-991 | decides under the in-process lock whether to refresh |
| `OAuthObjects.OAuthManager.RecheckLocked` | src/kimi_cli/auth/oauth.py:995-1017 | adopts what another process wrote, or goes on with the token it read |
| `OAuthObjects.OAuthManager.SaveRefreshed` | src/kimi_cli/auth/oauth.py:1063-1066 | clears the tombstone, writes the file and caches |
| `OAuthObjects.OAuthManager.SettleRefusal` | src/kimi_cli/auth/oauth.py:1020-1049 | adopts a rotated token, else makes the tombstone and clears the cache |
| `CanonicalArguments.PrintRoundTrip` | src/kimi_cli/soul/toolset.py:184-199 | parsing a printed value gives the value back with nothing left |
| `JsonTokens.SpellingsParse` | src/kimi_cli/soul/toolset.py:355 | a string is read back from every legal spelling of its characters: plain, short escape, code unit, surrogate pair |
| `JsonTokens.StringIsWritten` | src/kimi_cli/soul/toolset.py:355 | whatever is read as a string is such a spelling |
| `JsonTokens.NumeralIsNumber` | src/kimi_cli/soul/toolset.py:355 | every number of the grammar is accepted |
| `JsonTokens.NumberIsNumeral` | src/kimi_cli/soul/toolset.py:355 | every accepted number is one of the grammar |
| `JsonTexts.TextIsAccepted` | src/kimi_cli/soul/toolset.py:355 | every legal text, with any white space, spelling and repetition of keys, is parsed to the value it was written for |
| `JsonTexts.AcceptedIffText` | src/kimi_cli/soul/toolset.py:355 | a text is accepted iff it is legal |
| `JsonTexts.TextMeans` | src/kimi_cli/soul/toolset.py:355 | the parsed value is the denoted one, where of members with the same key the last counts |
| `CanonicalArguments.SortKeepsMeaning` | src/kimi_cli/soul/toolset.py:175-181 | sorting keys keeps a value well formed and its meaning |
| `CanonicalArguments.SameMeaningSortsAlike` | src/kimi_cli/soul/toolset.py:175-181 | values with the same meaning sort to the same value |
| `CanonicalArguments.CanonicalIffEqual` | src/kimi_cli/soul/toolset.py:175-199 | canonical texts agree if and only if the values are equal with objects as maps and numbers as tokens |
| `CanonicalArguments.CanonicalTextIsStable` | src/kimi_cli/soul/toolset.py:195-203 | canonicalizing a canonical text changes nothing, valid or not |
| `CanonicalArguments.CallKeysIdentifyCalls` | src/kimi_cli/soul/toolset.py:202-203 | call keys agree if and only if the tools are the same and the arguments equal |
| `CanonicalArguments.SpellingsShareAKey` | src/kimi_cli/soul/toolset.py:175-203 | two texts, however written, get the same key iff the tool is the same and the values are equal |
| `ToolDedup.RunLengthIsMaximal` | src/kimi_cli/soul/toolset.py:315-321 | the run length counts the longest run of the last call |
| `ToolDedup.AdvanceIsRunLength` | src/kimi_cli/soul/toolset.py:315-321 | the incremental streak is the trailing run length of the whole history |
| `ToolDedup.ProjectedIsRunLength` | src/kimi_cli/soul/toolset.py:323-332 | the projected streak is the run length of the history with the calls of the step so far |
| `ToolDedup.AcceptedIffWellWritten` | src/kimi_cli/soul/toolset.py:343-362 | a call is refused iff its tool is unknown or its arguments are neither missing nor a legal text |
| `ToolDedup.NoArguments` | src/kimi_cli/soul/toolset.py:355 | missing arguments are those of the empty object |
| `ToolDedup.SameCallIffSameValue` | src/kimi_cli/soul/toolset.py:364-366 | two accepted calls have one key iff tool and value agree, however each is written |
| `ToolDedup.CallIsRemindedByItsRun` | src/kimi_cli/soul/toolset.py:161-172 | the first call with a key is executed and reminded iff the key is old and its run is three or more, by the run's length; twelve stop the turn |
| `ToolDedup.ReminderComesLast` | src/kimi_cli/soul/toolset.py:206-226 | a reminder is added at the very end and nothing of the output is lost |
| `ToolDedup.OutputIsTheTools` | src/kimi_cli/soul/toolset.py:596-611 | a result is what the tool returned, with the reminder if there is one, for the original and its duplicates |
| `ToolDedup.ForceStopIsDecidedByFirstCall` | src/kimi_cli/soul/toolset.py:365-452 | within a step the stop flag is set exactly when the first call has reached a run of twelve |
| `ToolDedup.OneExecutionPerKey` | src/kimi_cli/soul/toolset.py:365-423 | the tasks of a step are the distinct keys, each started once, and every call is answered by its key's task |
| `ToolDedup.ResultsCarryTheirIds` | src/kimi_cli/soul/toolset.py:385-452 | every call, duplicate or original, yields a result with its own id, and equal calls the same output |
| `ToolDedup.AcceptedAreNormal` | src/kimi_cli/soul/toolset.py:343-365 | every key a step accepts is normalized |
| `ToolDedup.RenormalizingKeepsKeys` | src/kimi_cli/soul/toolset.py:286-313 | feeding the keys of one step to the next keeps every key |
| `ToolDedup.BeginOpens` | src/kimi_cli/soul/toolset.py:286-305 | a step begun with the previous calls remembers the history, and one begun without forgets it |
| `ToolDedup.BeginForgetsTheStep` | src/kimi_cli/soul/toolset.py:286-305 | a step begins without calls, executions and flags, with the given calls seen |
| `ToolDedup.BeginOnFreshToolset` | src/kimi_cli/soul/toolset.py:286-305 | a fresh toolset takes the previous calls as its history |
| `ToolDedup.EndingTwice` | src/kimi_cli/soul/toolset.py:307-313 | ending a step twice is ending it once |
| `ToolDedup.RunRemembersHistory` | src/kimi_cli/soul/toolset.py:286-332 | over whole runs the stored streak is that of all calls since the last reset, and the step returns its calls |
| `ToolDedup.StopAfterRun` | src/kimi_cli/soul/kimisoul.py:1201-1206 | after any run the stop flag holds exactly when the first call of the last step reached a run of twelve |
| `Toolset.KimiToolset.AdvanceConsecutiveStreak` | src/kimi_cli/soul/toolset.py:315-321 | the loop over calls is the specified advance |
| `Toolset.KimiToolset.ProjectedStreakForCall` | src/kimi_cli/soul/toolset.py:323-332 | the loop over the step's calls is the specified projection |
| `Toolset.KimiToolset.BeginStep` | src/kimi_cli/soul/toolset.py:286-305 | the fields after the step's start |
| `Toolset.KimiToolset.EndStep` | src/kimi_cli/soul/toolset.py:307-313 | the fields after the step's end and the calls it returns |
| `Toolset.KimiToolset.Handle` | src/kimi_cli/soul/toolset.py:343-452 | refused, duplicate and original calls are handled as specified |
| `BackgroundTasks.ExitMarking` | src/kimi_cli/background/agent_runner.py:79-132 | every exit path ends the task, completed only with a response and killed only by a cancellation |
| `BackgroundTasks.InstanceAfter` | src/kimi_cli/background/agent_runner.py:79-193 | the subagent instance ends idle exactly when the task is completed and killed exactly when it is killed |
| `BackgroundTasks.NextKeepsInv` | src/kimi_cli/background/manager.py:150-283 | every manager, runner and worker event keeps the shape of every task and the limit of open tasks |
| `BackgroundTasks.StepFreezesTerminal` | src/kimi_cli/background/manager.py:420-481 | a terminal record changes only by a worker's write to a task that recovery closed |
| `BackgroundTasks.TerminalIsReopenedIff` | src/kimi_cli/background/worker.py:42-150 | a terminal status is left for an open one if and only if such a worker starts or resumes its command |
| `BackgroundTasks.TerminalIsForGood` | src/kimi_cli/background/manager.py:608-725 | on runs without late writes a terminal record never changes in any field |
| `BackgroundTasks.ActiveTasksStayWithinLimit` | src/kimi_cli/background/manager.py:150-240 | tasks that were never closed by recovery stay within the limit on all runs, and all active tasks do without late writes |
| `BackgroundTasks.LateStartTakesAnExtraSlot` | src/kimi_cli/background/worker.py:42-49 | a worker that starts after its task was given up adds an active task whatever the limit |
| `BackgroundTasks.OverIffFinished` | src/kimi_cli/background/manager.py:608-725 | without late writes a task is terminal exactly when its record has a finishing time |
| `BackgroundTasks.RunnersSettleTheirTasks` | src/kimi_cli/background/agent_runner.py:79-132 | a runner that left settled its task, unless it was cancelled before its first step or its process ended |
| `BackgroundTasks.RecoveryLeavesNoOrphans` | src/kimi_cli/background/manager.py:420-481 | after the root manager's recovery open agent tasks are live and open shell tasks made progress; exactly the others were closed |
| `BackgroundTasks.KillIsNeverForgotten` | src/kimi_cli/background/worker.py:186-209 | a shell task asked to end never ends completed or lost, whatever happens afterwards |
| `TaskOutcomes.EndIsReportedForGood` | src/kimi_cli/background/worker.py:186-209 | from the end of a command on, in every run, the record reports it: exit code, timeout, interruption, status and reason |
| `TaskOutcomes.WhatIsSaidHappened` | src/kimi_cli/background/worker.py:186-209 | no record speaks of an exit code, a timeout or a completion that did not happen |
| `TaskOutcomes.CompletedIffSucceeded` | src/kimi_cli/background/worker.py:186-209 | a shell task is completed iff its command exited with code 0, in time and not asked to end |
| `TaskOutcomes.OutcomesAreConsistent` | src/kimi_cli/background/worker.py:186-209 | a non-zero exit code means failed or killed, a timeout means failed |
| `TaskOutcomes.RunnerRecordsItsResult` | src/kimi_cli/background/agent_runner.py:79-193 | what an agent run comes to decides status, reason and flags of its record |
| `TaskOutcomes.KillEndsOrAsks` | src/kimi_cli/background/manager.py:371-402 | a kill ends an open agent task at once and asks the worker of a shell task |
| `TaskOutcomes.AgentEndsOnce` | src/kimi_cli/background/manager.py:608-725 | the record of an agent task that ended never changes again |
| `TaskOutcomes.ShellTaskIsCreated` | src/kimi_cli/background/manager.py:150-206 | a shell task is created open with its worker on the way, or failed if none can be launched |
| `TaskOutcomes.AgentTaskIsCreated` | src/kimi_cli/background/manager.py:209-283 | an agent task is created as starting, live and scheduled |
| `TaskOutcomes.MarksShow` | src/kimi_cli/background/manager.py:608-650 | the progress marks show in an open record |
| `TaskOutcomes.StartedRunnerShows` | src/kimi_cli/background/agent_runner.py:135-137 | a started runner shows in its record as running |
| `TaskOutcomes.WorkerShows` | src/kimi_cli/background/worker.py:42-150 | the worker records its pid and times, and the command's pid and group, and touches nothing else |
| `TaskOutcomes.CheckDecides` | src/kimi_cli/background/worker.py:51-67 | a kill request or an incomplete spec ends the task before its command, otherwise nothing is written |
| `TaskOutcomes.WorkerGoesOn` | src/kimi_cli/background/worker.py:42-179 | a worker remembers what it wrote; a failure is recorded with its reason |
| `TaskOutcomes.RunnerGoesOn` | src/kimi_cli/background/agent_runner.py:113-132 | a runner closes and then leaves the live table |
| `TaskOutcomes.RestartLosesRunners` | src/kimi_cli/background/manager.py:420-481 | a restart loses the runners and no record |
| `TaskOutcomes.StampNeverHidesTheWorker` | src/kimi_cli/background/manager.py:198-206 | stamp and first write of the worker leave the same record in either order |
| `TaskOutcomes.StampIff` | src/kimi_cli/background/manager.py:198-206 | only a new or just started record is stamped |
| `TaskOutcomes.RecoveryCloses` | src/kimi_cli/background/manager.py:420-481 | recovery closes exactly the abandoned tasks, as killed if their end was asked for and as lost otherwise |
| `TaskOutcomes.WorkingTaskIsNotClosed` | src/kimi_cli/background/manager.py:420-481 | a task whose worker wrote within the limit survives recovery |
| `BackgroundObjects.BackgroundTaskManager.ActiveTaskCount` | src/kimi_cli/background/manager.py:93-96 | counts the tasks with a status that is not terminal |
| `BackgroundObjects.BackgroundTaskManager.CreateBashTask` | src/kimi_cli/background/manager.py:150-196 | refuses outside the root, off a local session or over the limit, in that order; else creates the record, failed if the worker cannot be launched |
| `BackgroundObjects.BackgroundTaskManager.StampWorker` | src/kimi_cli/background/manager.py:198-206 | stamps the worker's pid unless the worker was faster |
| `BackgroundObjects.BackgroundTaskManager.CreateAgentTask` | src/kimi_cli/background/manager.py:209-283 | refuses outside the root, off a local session, unbound or over the limit, in that order; else creates a starting record and a live entry |
| `BackgroundObjects.BackgroundTaskManager.MarkTask` | src/kimi_cli/background/manager.py:608-725 | each marking edits an open record and leaves a terminal one alone |
| `BackgroundObjects.BackgroundTaskManager.Kill` | src/kimi_cli/background/manager.py:371-402 | ends an agent task, cancels its approvals and asks its live runner to stop; asks a shell task's worker; leaves a terminal task alone |
| `BackgroundObjects.BackgroundTaskManager.Recover` | src/kimi_cli/background/manager.py:420-481 | the loop closes exactly the abandoned tasks |
| `BackgroundObjects.TaskWorker.Begin` | src/kimi_cli/background/worker.py:42-49 | the worker's first write, made without a look at the status |
| `BackgroundObjects.TaskWorker.CheckBeforeStart` | src/kimi_cli/background/worker.py:51-67 | a kill request or an incomplete spec ends the task, written from the worker's own copy |
| `BackgroundObjects.TaskWorker.CommandStarted` | src/kimi_cli/background/worker.py:143-150 | marks the task running with the child's pid and group, and keeps the copy for the last write |
| `BackgroundObjects.TaskWorker.Beat` | src/kimi_cli/background/worker.py:77-85 | renews the heartbeat of a record without a finishing time |
| `BackgroundObjects.TaskWorker.Fail` | src/kimi_cli/background/worker.py:171-179 | an exception ends the task as failed |
| `BackgroundObjects.TaskWorker.Finish` | src/kimi_cli/background/worker.py:188-209 | timeout, kill request and exit code decide the last write |
| `BackgroundObjects.BackgroundAgentRunner.Leave` | src/kimi_cli/background/agent_runner.py:72-132 | on every path the task ends terminal, its approvals are cancelled, its instance is settled and it leaves the live table |
| `Listings.SortDescends` | src/kimi_cli/background/store.py:165-168 | the listing is descending in its key |
| `Listings.SortPermutes` | src/kimi_cli/background/store.py:165-168 | the listing is a permutation |
| `Listings.SortIsStable` | src/kimi_cli/notifications/store.py:117 | equal keys keep their order, which with the other two determines the listing |
| `Notifications.PublishOncePerKey` | src/kimi_cli/notifications/manager.py:41-48 | a notice is stored if and only if no stored notification has its key; keys stay unique |
| `Notifications.NoticeWithoutKeyIsStored` | src/kimi_cli/notifications/manager.py:41-48 | a notice without a key is always stored, pending for each target |
| `Notifications.SinkIsWritten` | src/kimi_cli/notifications/manager.py:50-138 | claiming, acknowledging and recovering write exactly the state of the one sink |
| `Notifications.ClaimTakesTheOldest` | src/kimi_cli/notifications/manager.py:75-93 | a claim takes as many pending notifications as the limit allows, at least one if there is any, and leaves none older pending |
| `Notifications.DueIsOldestFirst` | src/kimi_cli/notifications/store.py:105-118 | what is due is ordered by age |
| `Deliveries.DeliverAcksTheHandled` | src/kimi_cli/notifications/manager.py:95-126 | a poll acknowledges exactly what was claimed and handled, and leaves failures claimed |
| `Deliveries.PollingDrains` | src/kimi_cli/notifications/manager.py:95-126 | n polls hand out the first n batches of what was due at the first poll, stale claims included, in order and each once, while no other outstanding claim turns stale |
| `Deliveries.DrainedAfterEnoughPolls` | src/kimi_cli/notifications/manager.py:95-126 | with n pending notifications and m claims already stale the queue is empty after exactly ceil((n + m)/limit) polls, and not earlier |
| `Deliveries.DueCountsStaleClaims` | src/kimi_cli/notifications/manager.py:50-93 | due at a poll are exactly the pending notifications and the stale claims, and their numbers add up |
| `Deliveries.PollsHandOutOnce` | src/kimi_cli/notifications/manager.py:95-126 | polls whose handlers succeed never hand out a notification twice or one already acknowledged, whatever claims turn stale in between |
| `Deliveries.RunKeepsInv` | src/kimi_cli/notifications/manager.py:50-138 | over every run claims, times of hand-out and unique keys fit together |
| `Deliveries.ClaimHandsOut` | src/kimi_cli/notifications/manager.py:75-93 | a claim hands out the first due ones up to its limit, at its time, and leaves them claimed |
| `Deliveries.EventsTakeEffect` | src/kimi_cli/notifications/manager.py:50-138 | an acknowledgement acknowledges, a recovery frees exactly the stale claims |
| `Deliveries.PublishedIsStored` | src/kimi_cli/notifications/manager.py:41-48 | after a publication the notice, or one with its key, is stored |
| `Deliveries.SecondHandoutIsLate` | src/kimi_cli/notifications/manager.py:50-93 | a notification is handed to a sink twice only if more than the stale limit lies in between |
| `Deliveries.AckedIsForGood` | src/kimi_cli/notifications/manager.py:128-138 | an acknowledged notification stays so and is never handed out again |
| `NotificationObjects.NotificationManager.FindExisting` | src/kimi_cli/notifications/manager.py:35-39 | finds the first listed notification with the key |
| `NotificationObjects.NotificationManager.PublishNotice` | src/kimi_cli/notifications/manager.py:41-48 | stores the notice or returns the one with its key |
| `NotificationObjects.NotificationManager.RecoverStale` | src/kimi_cli/notifications/manager.py:50-65 | the loops make exactly the stale claims pending again |
| `NotificationObjects.NotificationManager.Claim` | src/kimi_cli/notifications/manager.py:75-93 | recovers and claims what is specified, in order |
| `NotificationObjects.NotificationManager.Acknowledge` | src/kimi_cli/notifications/manager.py:128-138 | acknowledges one sink of one notification |
| `NotificationObjects.NotificationManager.DeliverPending` | src/kimi_cli/notifications/manager.py:95-126 | claims, hands over and acknowledges what is specified, each acknowledgement at its own time |
| `TaskNotices.KeysNameTaskAndReason` | src/kimi_cli/background/manager.py:580 | two dedupe keys are equal if and only if task and terminal reason are |
| `TaskNotices.ReasonNamesTheOutcome` | src/kimi_cli/background/manager.py:494 | the reason names a timeout, and otherwise the terminal status |
| `TaskNotices.PublishFromTakesFirst` | src/kimi_cli/background/manager.py:487-606 | a call publishes the first unpublished finished tasks, exactly as many as its limit still allows, and keeps the rest queued in order |
| `TaskNotices.CallPublishesTheLimit` | src/kimi_cli/background/manager.py:487-606 | with a limit of at least one it publishes the lesser of the limit and the number unpublished |
| `TaskNotices.RepeatPublishesNothing` | src/kimi_cli/background/manager.py:487-606 | after an unlimited call no call publishes anything until a task changes |
| `TaskNotices.RepeatedCallsStarveNone` | src/kimi_cli/background/manager.py:487-606 | repeated limited calls work the queue off from its front |
| `TaskNotices.ZeroLimitLooksAtOne` | src/kimi_cli/background/manager.py:596-605 | a limit of zero or less publishes at most the first finished task |
| `TaskNotices.FinishedTaskKeepsItsKey` | src/kimi_cli/background/manager.py:487-606 | without late writes a finished task keeps its key, so it is announced at most once |
| `TaskNoticeObjects.PublishTerminalNotifications` | src/kimi_cli/background/manager.py:487-606 | the loop over the listed tasks publishes what is specified |
| `ModelSync.SyncedModels` | src/kimi_cli/auth/platforms.py:308-374 | afterwards exactly the listed models are under the provider, and other models are untouched |
| `ModelSync.SyncedDefault` | src/kimi_cli/auth/platforms.py:351-374 | the default model is empty or present |
| `ModelSync.ListedModelIsConfigured` | src/kimi_cli/auth/platforms.py:308-350 | each listed model is configured with its listed name, size, capabilities and display name |
| `ModelSync.DefaultFollowsTheList` | src/kimi_cli/auth/platforms.py:351-374 | a default that stays is kept; one that is removed gives way to the first listed model, or the first left |
| `ModelSync.UnchangedIffUpToDate` | src/kimi_cli/auth/platforms.py:308-374 | nothing changes if and only if the config already agrees with the list |
| `ModelSync.SyncIsIdempotent` | src/kimi_cli/auth/platforms.py:308-374 | synchronising twice is synchronising once |
| `ModelSync.SyncedValid` | src/kimi_cli/config.py:266-273 | the config stays valid if and only if the provider is configured or the list is empty |
| `ModelSync.LoggedInValid` | src/kimi_cli/auth/oauth.py:558-600 | login leaves a valid config if and only if the selected model is listed or stands under another provider |
| `ModelSync.LoginLeaves` | src/kimi_cli/auth/oauth.py:558-610 | login leaves exactly the listed models under the provider, the chosen default and thinking, and the offered services |
| `ModelSync.LoggedOutValid` | src/kimi_cli/auth/oauth.py:716-747 | logout leaves a valid config without the provider and its models |
| `ModelSync.LogoutLeaves` | src/kimi_cli/auth/oauth.py:716-747 | logout leaves neither the provider's models nor services, and clears the default iff it was one of them |
| `ModelSync.ConfigObject.ApplyModels` | src/kimi_cli/auth/platforms.py:308-374 | the loops compute the synchronised config and return whether it changed |
| `ModelSync.ConfigObject.LogIn` | src/kimi_cli/auth/oauth.py:558-600 | login's edits of provider, models, default model, thinking flag and the two services |
| `ModelSync.ConfigObject.LogOut` | src/kimi_cli/auth/oauth.py:727-744 | logout's edits of provider, models, default model and services |
| `AgentsMd.AllocateBudget` | src/kimi_cli/soul/agent.py:138-160 | the backward pass fills the array with the specified contents |
| `AgentsMd.LoadAgentsMd` | src/kimi_cli/soul/agent.py:138-168 | the forward pass joins the annotated parts, or returns nothing |
| `AgentsMd.WidthIsUtf8` | src/kimi_cli/soul/agent.py:138-160 | sizes are UTF-8 sizes |
| `AgentsMd.FileGetsWhatFits` | src/kimi_cli/soul/agent.py:138-160 | a file is granted whole if it fits, else the longest beginning that fits, stripped |
| `AgentsMd.MergedTextWithinLimit` | src/kimi_cli/soul/agent.py:138-168 | the merged text never exceeds the byte limit |
| `AgentsMd.DeeperFilesComeFirst` | src/kimi_cli/soul/agent.py:138-160 | what the deeper files get does not depend on the shallower ones |
| `AgentsMd.NothingIsCutIfItFits` | src/kimi_cli/soul/agent.py:138-168 | the merged text is the full text if and only if that fits the limit |

## Left out

- Files are sequences of records with a lossless encoding; lines that are valid JSON but no objects, which raise in the fork readers, and partial writes are not modelled.
- A crash between a change of memory and the write of its record is not modelled; each operation on the context is one step.
- Canonical arguments: numbers are tokens, so `1` and `1.0` differ and Python's number formatting is not modelled; non-finite numbers and lone surrogates are left out.
- Checkpoint messages with non-ASCII digits, which `\d` of the regular expression also matches, are left out.
- Rebinding one of several shared approvals to another runtime is left out: the program binds the runtime once at start-up, and a rebound approval would cascade only in its own runtime.
- Observers with a timeout: a timeout that races a resolution can report a cancellation, so agreement is stated for untimed observers only.
- Wire publishing, event subscribers, telemetry and hooks are assumed not to change the modelled state.
- OAuth: HTTP, device login, keyring storage, migration and the update of a live client are left out; the in-process lock is left out, which only adds interleavings; the credentials file is assumed readable.
- OAuth: concurrent login and logout are left out; attempts that fail do not rotate the token, and an answer that is lost is the dropped call of `OAuthRuns.DroppingAnAnswerLoses`.
- Background tasks: one manager method is one step, so the read and write of `manager.py:198-206` and of the markings made through threads are not split further.
- Background tasks: the best-effort kill signal and other signals, output files, consumer records and the wording of failure reasons that quote timeouts or exit codes are left out.
- That a task awaits approval exactly while a request is pending is not stated: the updates go through threads that can reorder.
- The status of a subagent instance while it runs, and what recovery makes of it, is left out; how a runner leaves it is modelled.
- Notifications: titles, bodies and severities of events are left out; a new record's place in the directory listing is a parameter.
- Notifications: a poll is one step, its failing handlers a parameter; what others do while a handler is awaited is covered by the interleaved runs of `Deliveries.RunKeepsInv`, not by `DeliverPending`.
- Model configuration: base URLs of providers, API keys and OAuth references are left out; a service is its address.
- AGENTS.md: finding and reading the files (phase 1) is left out; contents arrive stripped.
- Token thresholds for automatic compaction and the text of compaction prompts are parameters or left out.
- MCP, LLM providers, tool bodies, the command line, the web interface and plugins are left out.
