# Verification of pawbot's agent core

A Dafny 4.11 model of the parts of pawbot's agent in which a mistake loses messages,
breaks provider requests, or lets something through that should have been refused,
together with proofs about all inputs, all runs and all interleavings. Check it with
`dafny verify dfyconfig.toml`.

| part | modules |
|---|---|
| Context governance: repair, compact, repair | `ChatMessages`, `RepairPasses`, `RepairLemmas`, `RepairTheorems`, `BackfillInsertion`, `HistoryRepair`, `MessageRows`, `CompactionSpec`, `CompactionTheorems`, `ContextCompaction`, `SnipSpec`, `HistorySnip`, `CompactionBounds`, `RequestShape`, `PrepareForModel`, `IllegalRequest`, `RepairContents`, `RepairAnswers`, `PreparedContents` |
| Persisting a turn | `SessionHistory`, `StoredRows` |
| Turn dispatch: bus, locks, pending and deferred queues | `TurnDispatch`, `MessageConservation`, `LockOwnership`, `DeferredTurns`, `DispatchTheorems`, `StrandedTurn`, `RoutedMessages`, `TurnOutcomes`, `AgentLoop` |
| Optional features: the dependency search | `DependencyGraph`, `DependencySearch`, `DependencyExactness`, `DependencyVerdicts`, `OptionalFeatures` |
| Memory journal and Dream runs | `JournalSpec`, `JournalTheorems`, `JournalCoverage`, `JournalOutcomes`, `MemoryStore` |
| Archive watermark and idle compaction | `ArchiveSpec`, `ArchiveRuns`, `SessionArchiver` |
| Explicit preferences | `PreferenceSpec`, `PreferenceTheorems`, `PreferenceRuns`, `PreferenceWrites`, `PreferenceStore` |
| Trace counters | `TraceSpec`, `TraceRedaction`, `TraceRun` |
| Tool approvals | `ApprovalSpec`, `ApprovalOrigins`, `ApprovalOutcomes`, `ToolApproval` |
| Subagent results | `SubagentSpec`, `SubagentOutcomes`, `SubagentManager` |
| Shared | `Sequences`, `Texts`, `Wrappers` |

Each part has the same structure. A specification module says what the operations compute,
as functions on values, or as a state machine whose steps are what runs between two
suspension points. Theorem modules prove properties of it, over every input or every run.
Modules with classes and loops then have the program's own form: fields that methods
update, loops with invariants. Their contracts tie them to the specification. So that a
specification cannot be wrong together with the code that follows it, each part also has
statements that mention none of its functions' conditions: what is kept and what is changed,
message by message, record by record and step by step, with the guards and limits written
out.

Some statements one might expect turn out to be false of the code. For each there is a
condition under which it holds, exactly, and a concrete input at which it fails:

* One round of repair is not idempotent; two are (`RepairTheorems.OneRepairSufficesIff`,
  `HollowNeedsTwoRepairs`, `TwiceNeedsTwoRepairs`).
* The prepared request can answer an id twice (`PrepareForModel.PreparedIsLegalIff`,
  `IllegalRequest.APreparedRequestCanBeIllegal`).
* A deferred automation turn can be stranded, by dropping a message whose session has left
  the cache or by cancelling a task before its first step
  (`DeferredTurns.StepStrandsOnlyByDropping`). Each of the two suffices where the other is
  excluded (`StrandedTurn.AnInsistingTurnStrandsTheNext`,
  `AnEarlyCancellationStrandsTheNext`).
* Overlapping Dream runs can commit an entry twice and move the cursor back, though they
  lose nothing (`JournalTheorems.CommitTilesExactlyOnItsOwnCursor`,
  `OverlappingRunsCommitTwice`, `JournalCoverage.OverlappingRunsMoveTheCursorBack`); only a
  gateway that starts with Dream switched off lets entries go that no run was given
  (`JournalCoverage.NothingIsLost`, `SkippingLosesAnEntry`).
* The dependency search accepts an unmet specifier on a key it has seen
  (`DependencyExactness.SatisfiedExactly`, `DependencySearch.SecondSpecifierIsNotChecked`).
* A preference write that does not confirm can take a confirmed record out of the listing
  (`PreferenceTheorems.UnconfirmedWriteHidesOnlyWhatItNames`,
  `PreferenceRuns.NamedConfirmedIsLost`), and untrusted evidence can be confirmed under its
  own id in two writes (`PreferenceRuns.UntrustedUntilReleased`, `TwoWritesLaunder`).
* Running trace counters can differ from the rows in the file
  (`TraceSpec.SummariesAgreeIff`, `IllTypedVerificationDisagrees`,
  `TraceRedaction.RedactedSummaryIsExact`, `TrimmedCallIdsMerge`, `BlankCallIdsSplit`).
* Replaying the compacted ids can compact more than the loop did
  (`CompactionTheorems.CompactionReplays`, `LoopAndReplayDiffer`).

## Model

| member | source | states |
|---|---|---|
| RepairTheorems.RepairEstablishes | pawbot/agent/context_governance.py:91-96 | One repair, for any history: only validly named calls are left, in order; every result follows its declaration; every declared id is answered; the other messages survive in order; an id that had a surviving result has exactly one |
| RepairTheorems.FixedIffLegal | pawbot/agent/context_governance.py:91-96 | The fixed points of the repair phase are exactly the legal requests |
| RepairTheorems.TwoRepairsSuffice | pawbot/agent/context_governance.py:74-96 | Two rounds of repair make every history legal, and a third changes nothing |
| RepairTheorems.OneRepairSufficesIff | pawbot/agent/context_governance.py:154-320 | One round is enough if and only if no assistant with placeholder text has only malformed calls and no id is declared twice by calls with usable names without a tool result behind one of them |
| RepairTheorems.OneRepairSufficesForDistinctCalls | pawbot/agent/context_governance.py:154-320 | With distinct call ids and no such assistant, one round gives a legal request that repair leaves alone |
| RepairTheorems.HollowNeedsTwoRepairs | pawbot/agent/context_governance.py:154-245 | A concrete history with a placeholder assistant and a malformed call that the second round still changes |
| RepairTheorems.TwiceNeedsTwoRepairs | pawbot/agent/context_governance.py:247-320 | A concrete history with an id declared twice that the second round still changes |
| RepairContents.RepairKeepsTheTurns | pawbot/agent/context_governance.py:154-245 | For every history, each message that says something or has a call with a usable name is there afterwards, unchanged but for its unusable calls, in the same order; nothing else that is no tool result is |
| RepairContents.RepairKeepsWhatWasSaid | pawbot/agent/context_governance.py:192-245 | In particular role and content of everything that was said are the same before and after, in order |
| RepairAnswers.RepairKeepsFirstAnswers | pawbot/agent/context_governance.py:247-320 | The first result behind a usable call with its id is kept as it was, in order, and no other result with such an id is |
| RepairAnswers.SyntheticResultsAreAtHome | pawbot/agent/context_governance.py:278-320 | Every other result stands for a call that nothing answered in time: it has the id and function name of the call and the fixed notice, and is in the run of results right behind its assistant |
| BackfillInsertion.OffsetIsInBlock | pawbot/agent/context_governance.py:307-319 | Before every insertion, assistant index + 1 + offset lies inside or at the end of that assistant's block of tool results in the list built so far |
| BackfillInsertion.InsertionStep | pawbot/agent/context_governance.py:307-319 | From there the scan over tool results reaches the end of that block, and inserting there gives the list that the entries handled so far ask for |
| BackfillInsertion.MissingListIsMissing | pawbot/agent/context_governance.py:283-306 | The list of missing entries asks, behind every assistant, for one result per declared and unanswered id |
| HistoryRepair.StripPlaceholderAssistantMessages | pawbot/agent/context_governance.py:154-190 | The lazily copying loop drops exactly the assistants that are bare placeholders |
| HistoryRepair.StripMalformedToolCalls | pawbot/agent/context_governance.py:192-245 | The loop removes exactly the calls without a usable name, and the assistants left with neither calls nor content |
| HistoryRepair.DropOrphanToolResults | pawbot/agent/context_governance.py:247-276 | The loop keeps exactly the first result of each id declared earlier |
| RepairLemmas.DropOrphansIsPrefixStable | pawbot/agent/context_governance.py:247-276 | The pass never looks ahead: what it keeps of a history it keeps whatever follows, so it is the first admissible result that survives |
| HistoryRepair.BackfillMissingToolResults | pawbot/agent/context_governance.py:278-320 | Collecting, filtering and inserting at a running offset places each synthetic result behind the results of its own assistant |
| HistoryRepair.RepairHistory | pawbot/agent/context_governance.py:91-96 | The four passes in their order are the repair function that the theorems are about |
| CompactionTheorems.CompactionReplays | pawbot/agent/context_governance.py:343-402 | With a positive budget and unique result ids, the compacted request is what replaying the final id set over the input gives |
| CompactionTheorems.ReplayNeedsUniqueIds | pawbot/agent/context_governance.py:343-402 | Without unique ids it is not: of two results with one id the loop compacts one and the replay two |
| CompactionTheorems.LoopAndReplayDiffer | pawbot/agent/context_governance.py:343-402 | Two results of 500 characters with the id "x" and a configuration for which loop and replay do differ |
| CompactionTheorems.CompactionTakesOldest | pawbot/agent/context_governance.py:366-402 | The id set grows by a prefix of the candidates, oldest first; at exit the estimate is that of the result and is within target, or within budget with only the newest candidate spared, or no candidate is left |
| CompactionTheorems.CompactionKeepsShape | pawbot/agent/context_governance.py:343-402 | Compaction changes nothing but the contents of tool results |
| CompactionTheorems.CompactionSparesTheRest | pawbot/agent/context_governance.py:502-526 | A result that is not a candidate is left as the replay made it |
| CompactionBounds.TheRestStays | pawbot/agent/context_governance.py:502-526 | A result before the in-flight start, of a tool that is not compactable, shorter than 500 characters, without a text or without an id leaves the tier as it came in, unless its id was recorded before; so does everything that is no result |
| CompactionBounds.OverBudgetEverythingWent | pawbot/agent/context_governance.py:366-402 | If the outcome is still over budget, every in-flight result of 500 characters or more of a compactable tool has its id in the final set |
| CompactionBounds.NothingGoesNeedlessly | pawbot/agent/context_governance.py:366-402 | With unique ids, before each result it compacted the request used more than 85 percent of the budget, and before the first and before the newest one it did not fit |
| CompactionBounds.StopsWhenItMay | pawbot/agent/context_governance.py:366-402 | At the end the replay alone fits, or 85 percent of the budget is met, or the budget with only the newest candidate left, or no candidate is left |
| CompactionBounds.WhatFitsStays | pawbot/agent/context_governance.py:343-365 | With nothing recorded, a request that fits is not touched |
| CompactionBounds.RecordedResultsAreNotices | pawbot/agent/context_governance.py:480-500 | A result whose id was recorded is the notice for its tool, unless there is no budget, when nothing is touched |
| CompactionBounds.OnlyNoticesAreLeft | pawbot/agent/context_governance.py:452-459 | What the tier changes is a tool result, and what it becomes is the notice for its tool |
| CompactionBounds.OffloadedResult | pawbot/agent/context_governance.py:125-152 | Files that were read are exempt from offloading, what could be stored is replaced by its reference, and any other text over the limit is truncated to it |
| CompactionBounds.DigitsAreTheNumber | pawbot/agent/context_governance.py:322-341 | The id that stands for a missing one ends in the decimal digits of its place |
| CompactionBounds.BudgetFillsTheWindow | pawbot/agent/context_governance.py:110-122 | Without a window there is no budget; a block limit is the budget; without one the window is the reply, 1024 tokens for safety and the budget |
| ContextCompaction.ApplyToolResultBudget | pawbot/agent/context_governance.py:322-341 | Offloading copies before it writes: the caller's rows are not modified |
| ContextCompaction.ApplyRecordedCompactions | pawbot/agent/context_governance.py:480-500 | Replaying recorded ids rewrites their results on copies only |
| ContextCompaction.InflightCompactionCandidates | pawbot/agent/context_governance.py:502-526 | The candidates are the in-flight results of compactable tools that are long enough and not recorded |
| ContextCompaction.CompactInflightOverflow | pawbot/agent/context_governance.py:343-402 | The in-place loop computes the specified result and the grown id set, and writes to no row of the caller |
| SnipSpec.LegalStartIsLeast | pawbot/utils/helpers.py:478-494 | The scan finds the least start from which no tool result with an id is orphaned |
| SnipSpec.KeptFromIsLongest | pawbot/agent/context_governance.py:426-446 | The backwards walk keeps the longest suffix within the budget, or the last message alone |
| SnipSpec.CostAddsUp | pawbot/agent/context_governance.py:426-446 | What a suffix costs is the sum of the estimates of its messages |
| SnipSpec.SnipIsBounded | pawbot/agent/context_governance.py:426-478 | The kept suffix fits the remaining budget, or is part of the last message alone, or starts no earlier than the last user message; no result in it is orphaned |
| SnipSpec.SnipFitsTheBudget | pawbot/agent/context_governance.py:404-450 | What is kept of a request over budget is all system messages and a suffix of the rest; together they cost no more than the budget, unless the suffix costs nothing, is at most the last message, or starts at or behind the last user message |
| SnipSpec.SnipKeepsWhatItCan | pawbot/agent/context_governance.py:404-478 | One message more than the walk kept would not fit; the suffix starts at the aligned user message, but behind whatever leaves a result without its call |
| SnipSpec.UserStartIsAligned | pawbot/agent/context_governance.py:461-478 | The start is aligned with the first user message that was kept, else with the last of all, and is as it was without any |
| SnipSpec.LegalStartIsFirst | pawbot/utils/helpers.py:478-494 | From where the suffix starts no result lacks its call, and from any earlier start behind the aligned one some result does |
| SnipSpec.WhatFitsIsNotSnipped | pawbot/agent/context_governance.py:404-425 | Without a window or a budget, or within it, nothing is snipped |
| SnipSpec.LastUserSurvives | pawbot/agent/context_governance.py:461-478 | The last user message survives whenever the results after it answer calls after it |
| HistorySnip.FindLegalMessageStart | pawbot/utils/helpers.py:478-494 | The loop with its cleared set finds that start |
| HistorySnip.LegalHistoryTail | pawbot/agent/context_governance.py:461-478 | First user message of what was kept, else the last user message of all, then the legal start |
| HistorySnip.SnipHistory | pawbot/agent/context_governance.py:404-450 | System messages first, then the legal tail of what the walk kept; nothing changes when the prompt fits |
| RequestShape.RepairKeepsShape | pawbot/agent/context_governance.py:87-96 | Histories that differ only in the contents of tool results have repairs that differ only there |
| PrepareForModel.Prepare | pawbot/agent/context_governance.py:74-107 | The pipeline computes the specified request and modifies nothing but the set of compacted ids |
| PrepareForModel.PreparedIsWellPaired | pawbot/agent/context_governance.py:74-107 | For every history, configuration and id set the request has valid names only, every result after its declaration, every declared id answered, no bare placeholder, and all system messages in order |
| PrepareForModel.PreparedIsLegalIff | pawbot/agent/context_governance.py:74-107 | It is fully legal if and only if every id that is declared twice in what compaction leaves has a result there |
| IllegalRequest.APreparedRequestCanBeIllegal | pawbot/agent/context_governance.py:74-107 | It can fail: a legal history whose prepared request answers one id twice, because the snip cut the result that answered it |
| IllegalRequest.PartsExist | pawbot/agent/context_governance.py:74-107 | Messages as that history needs them, with the id "x" |
| PrepareForModel.PreparedIsLegalForDistinctCalls | pawbot/agent/context_governance.py:74-107 | With distinct call ids it is legal and every declared id has exactly one result, whatever the tiers did |
| PrepareForModel.PreparedWithoutSnip | pawbot/agent/context_governance.py:74-107 | When the snip does not fire the request is legal for every history and has the shape of the history repaired twice |
| PrepareForModel.PreparedSnipIsBounded | pawbot/agent/context_governance.py:404-450 | When it fires, what reaches the second repair is all system messages and a bounded suffix without orphans |
| PreparedContents.PreparedKeepsTheTurns | pawbot/agent/context_governance.py:74-107 | Without a snip the request has all turns of the history, with all that was said, in order |
| PreparedContents.SnippedKeepsASuffix | pawbot/agent/context_governance.py:74-107 | With one it has all system messages and a suffix of the other turns |
| PrepareForModel.PreparedPositionByPosition | pawbot/agent/context_governance.py:74-107 | Read position by position: every tool result of the request has an id that an assistant strictly before it declares, and every call has a usable name |
| PrepareForModel.RewritingReplays | pawbot/agent/context_governance.py:98-107 | In the pipeline, with a budget and no id declared twice and unanswered, offloading and compaction come to a replay of the id set they leave behind |
| SessionHistory.Session.SaveTurn | pawbot/agent/loop.py:2530-2636 | The loop with its declared and fulfilled id sets appends exactly the admissible rows |
| SessionHistory.SavingKeepsLegality | pawbot/agent/loop.py:2541-2636 | From a legal session, saving any messages keeps every stored result declared earlier and unique, and the orphan pass finds nothing to drop |
| SessionHistory.SavingIsDropping | pawbot/agent/loop.py:2582-2597 | Saving stores what the orphan pass would keep of the session followed by the turn |
| SessionHistory.SavingSelects | pawbot/agent/loop.py:2557-2622 | The session only grows, by an order-preserving selection of the turn's rows |
| SessionHistory.SavingKeepsNonTools | pawbot/agent/loop.py:2580-2622 | Nothing but inadmissible tool results is left out of those rows |
| StoredRows.TurnsAreStored | pawbot/agent/loop.py:2557-2622 | Row by row: an assistant that says or calls something is stored unchanged, every user message is unless blocks are filtered out of it, and so is any other message that is no result; in order, and nothing besides |
| StoredRows.FirstAnswersAreStored | pawbot/agent/loop.py:2582-2622 | Of the results exactly the first to each declared id is stored: a text within the limit unchanged, a longer one truncated, blocks filtered, with a notice when none is left |
| StoredRows.AProperTurnKeepsItsResults | pawbot/agent/loop.py:2582-2597 | A turn whose results are declared before them and answer no id twice keeps them all |
| DispatchTheorems.EveryMessageIsInOnePlace | pawbot/agent/loop.py:1748-2024 | In every reachable state of every interleaving each published message is in exactly one of bus, run loop, task, pending queue, deferred queue and outcome log, and no other message is anywhere |
| MessageConservation.StepBalances | pawbot/agent/loop.py:1748-2024 | Every step takes a message from one place to one place; only publishing adds one |
| MessageConservation.RouteMoves | pawbot/agent/loop.py:1792-1871 | Routing puts the message in exactly one place, a full queue included |
| MessageConservation.DrainMoves | pawbot/agent/loop.py:1997-2009 | A leftover goes from the queue of its task to the bus and nowhere else |
| RoutedMessages.EverythingGoesWhereItShould | pawbot/agent/loop.py:1748-2024 | In every reachable state only controls, priority messages and commands were answered inline, only subagent results and messages that insist on their session were rejected, only follow-ups wait in the queue of a turn or were injected, and only automation turns are deferred |
| RoutedMessages.FollowUpReachesTheTurn | pawbot/agent/loop.py:1828-1862 | A message that is neither control, priority, command nor automation turn, for a session with a registered turn, is appended to the queue of that turn while it has fewer than 20 entries, and becomes a turn of its own otherwise; nothing is logged |
| RoutedMessages.IdleSessionGetsATurn | pawbot/agent/loop.py:1863-1871 | For a session without a registered turn every message but a priority one becomes a turn |
| RoutedMessages.TheRestDoesNotStartATurn | pawbot/agent/loop.py:1786-1836 | Priority messages, and commands during a turn, are answered at once; an automation turn waits, last of those that wait |
| TurnOutcomes.TakingFromTheBus | pawbot/agent/loop.py:1755-1776 | The oldest message is taken, or rejected when it is a result whose token is not good |
| TurnOutcomes.Screening | pawbot/agent/loop.py:1777-1783 | Controls are answered, and a message that insists on a session that is not there is rejected |
| TurnOutcomes.TakingTheLock | pawbot/agent/loop.py:1885-1913 | A task that starts refers to the one lock of its session and takes it when it is free |
| TurnOutcomes.WaitingForTheLock | pawbot/agent/loop.py:1912-1913 | While another task has the lock it waits |
| TurnOutcomes.EnteringTheTurn | pawbot/agent/loop.py:1912-1919 | Behind the lock it registers an empty queue and spends its token, or gives the lock back when the token has been revoked |
| TurnOutcomes.RevokedBeforeTheStart | pawbot/agent/loop.py:1885-1888 | A task with a revoked token is rejected before it looks for the lock |
| TurnOutcomes.CancelledBeforeTheTurn | pawbot/agent/loop.py:1912-1915 | A cancellation in the wait gives back the lock if it was granted, and the exit is still to come |
| TurnOutcomes.CancelledBeforeTheStart | pawbot/agent/loop.py:1222-1244 | A task that is cancelled before its first step is done at once |
| TurnOutcomes.TakingAFollowUp | pawbot/agent/loop.py:1486-1496 | The turn takes the oldest follow-up if its token is good and spends the token |
| TurnOutcomes.EndingTheTurn | pawbot/agent/loop.py:1987-1997 | The turn takes its own queue out of the table and no other |
| TurnOutcomes.LeftoversGoBack | pawbot/agent/loop.py:1997-2009 | What is left in its queue goes back on the bus in order |
| TurnOutcomes.LettingGo | pawbot/agent/automation_turns.py:16-30 | Letting go frees the lock and puts the oldest deferred turn of the session on the bus; the others keep waiting, those of other sessions too |
| TurnOutcomes.StoppingDropsTheQueue | pawbot/command/builtin.py:280-300 | Stopping a session drops what waits in its queue, in order, and nothing else |
| TurnOutcomes.ADirectCallComesAndGoes | pawbot/agent/loop.py:2893-2896 | A direct call takes the lock when it is free and gives it back, and nothing else comes of it |
| TurnOutcomes.ADirectCallWaits | pawbot/agent/loop.py:2893-2896 | A direct call refers to the session lock as a task does |
| TurnOutcomes.ADirectCallGivesUp | pawbot/agent/loop.py:2893-2896 | One that gives up in the wait leaves the lock to whoever has it |
| TurnOutcomes.TheOutside | pawbot/agent/loop.py:2928-2934 | Publishing, revoking tokens, changes of the session cache and forgetting an idle lock change that and nothing else |
| DispatchTheorems.QueueBelongsToTheHolder | pawbot/agent/loop.py:1918-1922 | In every reachable state a session's registered queue is that of a running task of the session, which holds the session's lock and is the only task of the session that does |
| DispatchTheorems.TurnsNeverOverlap | pawbot/agent/loop.py:1907-1922 | Two tasks of one session are never both between taking and releasing the lock, dispatched turns and direct calls alike, although the lock table forgets idle locks |
| LockOwnership.AdmitOwns | pawbot/agent/loop.py:1913-1922 | Registering a queue never takes the table entry from another turn |
| LockOwnership.StepOwns | pawbot/agent/loop.py:1748-2024 | Every step keeps queue ownership, single holders, shared locks and bounded queues of the session's own follow-ups |
| LockOwnership.CollectOwns | pawbot/agent/loop.py:2928-2934 | Dropping a lock that no task refers to breaks nothing |
| LockOwnership.DirectOwns | pawbot/agent/loop.py:2893-2896 | A direct call joins the session's shared lock and takes nothing from anybody |
| DeferredTurns.StepStrandsOnlyByDropping | pawbot/agent/loop.py:1779-1783 | A step strands a deferred turn if and only if it drops the session's last carrier: the run loop drops a message of a vanished session, or a task is cancelled before its first step |
| DeferredTurns.ExitCarries | pawbot/agent/automation_turns.py:16-30 | A task that ends puts the next deferred turn of its session on the bus, which becomes the carrier |
| DeferredTurns.RouteCarries | pawbot/agent/automation_turns.py:90-107 | A turn is only deferred behind a running turn of its session, which will publish it |
| DispatchTheorems.NoDeferredTurnIsStranded | pawbot/cron/bound_runner.py:119-129 | With automation turns as the repository submits them, without the flag that insists on a cached session, no run strands a deferred turn unless it cancels a task before its first step |
| DispatchTheorems.RunStrandsNothing | pawbot/agent/loop.py:1792-2024 | More generally, a run without such a drop strands nothing |
| StrandedTurn.AnInsistingTurnStrandsTheNext | pawbot/agent/loop.py:1779-1783 | A run that cancels no task before its first step and strands a turn, behind a turn that insists on a cached session: the first hypothesis of NoDeferredTurnIsStranded cannot be dropped |
| StrandedTurn.AnEarlyCancellationStrandsTheNext | pawbot/agent/loop.py:1222-1244 | A run that publishes no insisting turn and strands one, because a task is cancelled before its first step: nor can the second |
| AgentLoop.Loop.ConsumeInbound | pawbot/agent/loop.py:1755-1776 | Taking a message off the bus and checking its token is the consuming step |
| AgentLoop.Loop.Route | pawbot/agent/loop.py:1787-1871 | Inline, deferred, queued, or a new task: the branches of routing are the routing step |
| AgentLoop.Loop.DeferIfActive | pawbot/agent/automation_turns.py:90-107 | Appends to the session's deferred queue exactly when an automation turn meets an active session |
| AgentLoop.Loop.PublishNextDeferredTurn | pawbot/agent/automation_turns.py:16-30 | Publishes the head and keeps the rest; an emptied queue leaves the table |
| AgentLoop.Loop.GetSessionLock | pawbot/agent/loop.py:2928-2934 | Returns the session's lock, creating it once |
| AgentLoop.Loop.BeginDispatch | pawbot/agent/loop.py:1885-1909 | The first check of the token, then a reference to the shared lock |
| AgentLoop.Loop.Unregister | pawbot/agent/loop.py:1987-1998 | A turn takes only its own queue out of the table |
| AgentLoop.Loop.RepublishLeftovers | pawbot/agent/loop.py:1997-2009 | The loop puts all leftovers on the bus in order |
| AgentLoop.RepublishingIsDraining | pawbot/agent/loop.py:1997-2009 | That loop is a run of single drain steps |
| AgentLoop.Loop.DrainPending | pawbot/agent/loop.py:1411-1498 | The loop takes follow-ups in order up to the limit; rejected results do not count against it |
| AgentLoop.Loop.DrainAfterWait | pawbot/agent/loop.py:1502-1534 | After the terminal wait: the message waited for is taken whatever the limit and the rest is drained behind it; with a positive limit this is an ordinary drain |
| AgentLoop.InjectedTokensAreSpent | pawbot/agent/loop.py:1486-1496 | No result token is used twice in a batch, each was good before, and none is good afterwards |
| AgentLoop.FollowUpsAreTakenInOrder | pawbot/agent/loop.py:1411-1498 | Follow-ups leave the queue oldest first, each injected, or rejected if it is a subagent result, until the limit is reached or none is left |
| AgentLoop.PlainFollowUpsAreInjected | pawbot/agent/loop.py:1411-1498 | Those that are no subagent results are all taken, as far as the limit goes |
| AgentLoop.InjectingIsARun | pawbot/agent/loop.py:1486-1496 | That loop is a run of single inject steps |
| AgentLoop.Loop.StopSession | pawbot/command/builtin.py:280-300 | The queue of whatever turn is registered is taken out of the table and emptied |
| OptionalFeatures.RequirementInstalled | pawbot/optional_features.py:127-147 | The recursive search with its shared set terminates on cyclic graphs and does what the search function says |
| OptionalFeatures.ExtraDependenciesInstalled | pawbot/optional_features.py:150-171 | One extra: refused when the distribution lists extras without it, satisfied when something matched or extras are listed |
| DependencySearch.VisitSettles | pawbot/optional_features.py:127-171 | On acceptance every key seen first has its requirement installed, its first-visit specifier met, its extras provided and all applicable requirements seen; on refusal a reachable requirement fails |
| DependencySearch.FreshSearchIsClosed | pawbot/optional_features.py:174-175 | After an accepting fresh search the seen keys are closed under applicable requirements |
| DependencySearch.FreshSearchDecides | pawbot/optional_features.py:127-175 | When reachable requirements with the same key agree, the search accepts if and only if no reachable requirement fails; it never refuses otherwise |
| DependencyExactness.SatisfiedExactly | pawbot/optional_features.py:127-175 | With markers that compare extras in canonical form, a requirement is satisfied all the way down if and only if the search accepts it and every requirement it passed over meets its specifier; equally, if and only if it accepts it and reachable requirements with the same key agree on whether theirs is met |
| DependencySearch.SecondSpecifierIsNotChecked | pawbot/optional_features.py:130-143 | A concrete graph that is accepted although a second requirement on a seen key has an unmet specifier |
| DependencyGraph.ClosedMeansSatisfied | pawbot/optional_features.py:127-171 | A closed set of keys with the root in it means that nothing reachable fails |
| DependencyVerdicts.SatisfiedUnfolds | pawbot/optional_features.py:127-171 | Satisfied all the way down means: installed, in a version the specifier contains, with every extra asked for either listed or, where none is listed, used by some requirement, and everything needed under those extras satisfied in turn |
| DependencyVerdicts.VerdictAtTheRoot | pawbot/optional_features.py:127-175 | A requirement whose marker does not hold is accepted unseen; one that applies and is not provided is refused |
| OptionalFeatures.RequirementIsInstalled | pawbot/optional_features.py:174-175 | A fresh search decides satisfaction under agreement, and accepts whatever is satisfied |
| OptionalFeatures.ExtraIsInstalled | pawbot/optional_features.py:178-181 | No metadata means installed; satisfied dependencies are always accepted, each with a fresh search, and under agreement nothing else is |
| JournalTheorems.NextCursorIsFresh | pawbot/agent/memory.py:374-390 | Every branch agrees with the full scan and gives one more than the largest cursor ever issued |
| JournalTheorems.CursorsAreNeverReused | pawbot/agent/memory.py:301-390 | In every reachable state, after crashes between the two writes, lost counters, unreadable tails, compaction and overlapping Dream runs, cursors are 1, 2, 3, and so on |
| JournalTheorems.CompactionKeepsPending | pawbot/agent/memory.py:426-454 | Compaction keeps everything above the Dream cursor and, besides, exactly as much as the limit leaves room for |
| JournalTheorems.BatchIsNextStretch | pawbot/agent/memory.py:576-597 | A Dream batch is the next stretch of at most 20 entries above the cursor |
| JournalTheorems.CommitTilesExactlyOnItsOwnCursor | pawbot/agent/memory.py:521-528 | A commit keeps the batches consecutive, disjoint and in order if and only if the cursor is still where the run started |
| JournalTheorems.SerialDreamsTileTheJournal | pawbot/agent/memory.py:301-597 | With one Dream run at a time, in every reachable state the committed batches and skipped stretches laid end to end are the journal up to the Dream cursor: each entry up to it was in exactly one |
| JournalCoverage.NothingIsLost | pawbot/agent/memory.py:301-597 | In every reachable state, however Dream runs overlap, an entry that left the file or is behind the cursor was in at least one committed batch, or was skipped by moving the cursor to the end without a run; where no step does that, nothing is skipped |
| JournalTheorems.OverlappingRunsCommitTwice | pawbot/command/builtin.py:1265-1337 | Two overlapping runs: the same batch, which is not empty, is committed twice |
| JournalCoverage.OverlappingRunsMoveTheCursorBack | pawbot/command/builtin.py:1265-1337 | Two overlapping runs, the earlier committing last, move the Dream cursor back |
| JournalTheorems.SkipKeepsGood | pawbot/cli/gateway_runtime.py:147-150 | Moving the cursor to the end passes exactly what is above it, so it keeps the tiling |
| JournalCoverage.SkippingLosesAnEntry | pawbot/cli/gateway_runtime.py:147-150 | After such a move an entry leaves the file without having been in any committed batch |
| JournalOutcomes.WritingAppends | pawbot/agent/memory.py:301-315 | A new entry is the last in the file, with the next cursor and the text it was given; only a crash leaves the counter behind |
| JournalOutcomes.ADreamPassesTheNextEntries | pawbot/agent/memory.py:521-597 | A Dream run takes the next 20 entries at most, and its commit moves the cursor past exactly those; a run that is given up changes nothing |
| JournalOutcomes.NothingToDream | pawbot/agent/memory.py:576-597 | With nothing above the cursor there is no run |
| JournalOutcomes.OtherSteps | pawbot/cli/gateway_runtime.py:147-150 | Losing the counter loses nothing else, and the cursor is moved to the end exactly when it is behind |
| MemoryStore.Store.AllocateCursor | pawbot/agent/memory.py:364-390 | The branches with their fallback scan compute the specified cursor |
| MemoryStore.Store.AppendHistory | pawbot/agent/memory.py:301-315 | Record first, counter second; a crash between them loses only the counter |
| MemoryStore.Store.CompactHistory | pawbot/agent/memory.py:426-454 | Keeps from the first unprocessed entry or the limit, whichever is earlier |
| MemoryStore.Store.ReadUnprocessedHistory | pawbot/agent/memory.py:392-394 | Exactly the entries above the cursor, in order |
| MemoryStore.Store.BuildDreamBatch | pawbot/agent/memory.py:576-597 | The first 20 unprocessed entries and the cursor of the last of them |
| MemoryStore.Store.SetLastDreamCursor | pawbot/agent/memory.py:527-528 | Sets the cursor and nothing else |
| MemoryStore.Store.AdvanceDreamCursorIfBehind | pawbot/cli/gateway_runtime.py:147-150 | The skipping step: the cursor goes to the largest cursor issued, never back |
| ArchiveSpec.ArchivedSlicesTile | pawbot/agent/memory.py:835-1288 | Over any run the watermark never moves back and stays within the messages, the archived slices tile everything before it, and the journal is what their archive requests leave, in order |
| ArchiveSpec.OneRecordPerSlice | pawbot/agent/memory.py:835-968 | The journal has exactly one record for each archived slice but those whose usable response, stripped, is "(nothing)" |
| ArchiveSpec.EachMessageInOneSlice | pawbot/agent/memory.py:1193-1202 | Every message before the watermark is in exactly one archived slice |
| ArchiveSpec.BoundaryIsLastUserBeforeTail | pawbot/agent/memory.py:1006-1021 | The token boundary is the last user message before the eight-message tail if that is past the watermark, and there is none exactly when no such message exists |
| ArchiveSpec.FinishKeepsSound | pawbot/agent/memory.py:1242-1272 | Finishing advances over the captured slice only, whatever was appended meanwhile |
| ArchiveSpec.OnlyCompletedRepliesAreStored | pawbot/agent/memory.py:835-968 | A summary is stored exactly for a reply that was sent within budget with the whole slice, was not cut off, had no error and no tool calls and says something other than "(nothing)"; everything else but that leaves a dump |
| ArchiveSpec.ShortTextsAreStoredWhole | pawbot/agent/memory.py:730-885 | Summaries are bounded at 8000 characters, the messages of a dump at 16000 and dumps at 64000; shorter texts are stored whole |
| ArchiveRuns.IdlenessArchivesEverything | pawbot/agent/memory.py:1236-1272 | Idle compaction archives everything there was when it began, whatever is appended meanwhile |
| ArchiveRuns.PressureArchivesUpToTheTail | pawbot/agent/memory.py:1128-1202 | Token pressure archives up to the last user message with eight messages from there on |
| ArchiveRuns.SlicesAtAnyTime | pawbot/agent/memory.py:1006-1272 | In every reachable state the slices follow each other from the first message to the watermark, none is empty, and one cut under pressure ended right before a user message |
| ArchiveRuns.OneAtATime | pawbot/agent/memory.py:1128-1246 | One archival of a session at a time; giving up leaves everything as it was |
| SessionArchiver.ArchivedSession.PickConsolidationBoundary | pawbot/agent/memory.py:1006-1021 | The backwards loop finds that boundary |
| SessionArchiver.ArchivedSession.BeginTokenConsolidation | pawbot/agent/memory.py:1128-1184 | Captures from the watermark to the boundary when the estimate reaches the window less the completion and the safety buffer |
| SessionArchiver.ArchivedSession.BeginIdleCompaction | pawbot/agent/memory.py:1236-1246 | Captures everything after the watermark |
| SessionArchiver.ArchivedSession.Archive | pawbot/agent/memory.py:835-885 | Exception, bad finish, tool calls and blank replies leave a raw dump, "(nothing)" leaves no record, and any other reply its summary |
| SessionArchiver.ArchivedSession.ArchiveSession | pawbot/agent/memory.py:887-968 | Without a budget, a replayable slice or an estimate within budget the slice is dumped and nothing is sent |
| SessionArchiver.ArchivedSession.RawArchive | pawbot/agent/memory.py:730-752 | A dump is one record: the rendered messages, bounded twice |
| SessionArchiver.ArchivedSession.FinishArchive | pawbot/agent/memory.py:1193-1202 | Writes the record and advances the watermark to the end of the slice |
| SessionArchiver.AutoCompact.CheckExpired | pawbot/agent/autocompact.py:57-80 | Marks exactly the due sessions, and a marked session has exactly one archival task |
| SessionArchiver.AutoCompact.FinishTask | pawbot/agent/autocompact.py:82-103 | A failure is swallowed, a summary kept for the next turn, and on every path the mark goes with the task |
| SessionArchiver.AutoCompact.PrepareSession | pawbot/agent/autocompact.py:105-124 | A kept summary is handed out once; internal sessions get none |
| PreferenceTheorems.FoldAppend | pawbot/agent/memory_preferences.py:279-314 | Appending an event and folding is folding and applying the event |
| PreferenceTheorems.TrustIsDerived | pawbot/agent/memory_preferences.py:184-191 | For any log at all, the trust of a current record is derived from source and status, whatever was stored |
| PreferenceRuns.NothingUntrustedIsEverConfirmed | pawbot/agent/memory_preferences.py:331-458 | After any run of writes, deletions and clearings no current record is both confirmed and untrusted, and each is stored under its own id in the log of its scope |
| PreferenceWrites.CurrentRecordsAreProper | pawbot/agent/memory_preferences.py:184-191 | In every reachable pair of logs nothing confirmed comes from a tool, a session or the outside, and trust is what source and status say |
| PreferenceWrites.RefusedExactly | pawbot/agent/memory_preferences.py:349-384 | A write is refused exactly for credentials, for outside content that would be confirmed, and for untrusted evidence that would be confirmed by its id |
| PreferenceWrites.WrittenRecord | pawbot/agent/memory_preferences.py:366-415 | What is written says what was asked; in place it keeps id and age, elsewhere it is new and names the record it stands beside |
| PreferenceWrites.FoundByKey | pawbot/agent/memory_preferences.py:325-329 | The lookup gives the first record of the kind and key that was not rejected, and one if there is one |
| PreferenceWrites.SayingItAgainUpdates | pawbot/agent/memory_preferences.py:366-415 | Saying a key again updates the record that the listing gives for it and leaves no second one, unless one of the two rules separates them |
| PreferenceWrites.ForgettingNothing | pawbot/agent/memory_preferences.py:417-434 | Forgetting an id that neither log has changes nothing |
| PreferenceTheorems.UnconfirmedWriteHidesOnlyWhatItNames | pawbot/agent/memory_preferences.py:366-415 | What the listing shows as confirmed, from either log, is lost to a write that does not confirm if and only if the write names its id, for the workspace or where the workspace has no record of it |
| PreferenceTheorems.UnconfirmedWriteOverwritesOnlyWhatItNames | pawbot/agent/memory_preferences.py:366-415 | In the log that it goes to, such a write takes away a confirmed record if and only if it names it |
| PreferenceTheorems.UnnamedWriteKeepsTheConfirmed | pawbot/agent/memory_preferences.py:366-415 | Without memory_id the confirmed part of the listing stays exactly as it is |
| PreferenceRuns.SameConfirmedSamePrompt | pawbot/agent/memory_preferences.py:568-581 | With the same confirmed records the prompt shows the same keys, from the same scope and of the same age |
| PreferenceRuns.NamedConfirmedIsLost | pawbot/agent/memory_preferences.py:366-415 | A candidate that names a confirmed record replaces it in the listing, from its own log or from the workspace in front of it |
| PreferenceTheorems.OnlyOneRecordChanges | pawbot/agent/memory_preferences.py:385-415 | A write changes the record under the written id and no other |
| PreferenceRuns.UntrustedUntilReleased | pawbot/agent/memory_preferences.py:366-545 | Over any run a listed untrusted record stays untrusted under its id if and only if no step removes it or is an admissible write from an inside source that does not confirm, is aimed at it by name or by key, and goes where the listing will show it; without such a step it is not confirmed |
| PreferenceRuns.StepReleasesIff | pawbot/agent/memory_preferences.py:372-384 | No single step confirms a listed untrusted record under its id, and exactly those steps, told apart by their requests, release it |
| PreferenceRuns.TwoWritesLaunder | pawbot/agent/memory_preferences.py:486-545 | Two admissible writes confirm evidence from a tool under its own id: restated as an explicit candidate, then promoted |
| PreferenceTheorems.OneWriteNeverConfirmsUntrusted | pawbot/agent/memory_preferences.py:372-380 | A confirming write that finds untrusted evidence is refused by id, and gets a new identity with lineage by key |
| PreferenceTheorems.ClearingEmptiesTheLog | pawbot/agent/memory_preferences.py:436-458 | Deleting every current id folds to nothing |
| PreferenceTheorems.ForgettingRemovesOneRecord | pawbot/agent/memory_preferences.py:417-434 | Forgetting removes the id from one log and nothing else; it disappears from the listing if and only if it was not in both logs |
| PreferenceTheorems.PromptPrefersTheWorkspace | pawbot/agent/memory_preferences.py:568-581 | The prompt shows one confirmed, explicitly sourced record per key that has one; a workspace record wins, and within a scope the newest workspace or the oldest global record is shown |
| PreferenceTheorems.PromptShowsWhatWasConfirmed | pawbot/agent/memory_preferences.py:568-581 | For any logs the prompt shows a key exactly if the listing has a confirmed record of it that the user stated or the system set |
| PreferenceTheorems.TwoConfirmedRecordsCanCoexist | pawbot/agent/memory_preferences.py:366-415 | Three writes that leave two confirmed records of one key |
| PreferenceStore.CurrentForPath | pawbot/agent/memory_preferences.py:279-314 | The loop over the log computes the fold |
| PreferenceStore.Store.Remember | pawbot/agent/memory_preferences.py:331-415 | Lookup, policy and append as specified, on both refusal paths; a proper log stays proper |
| PreferenceStore.Store.Forget | pawbot/agent/memory_preferences.py:417-434 | Deletes in the first log that has the id; a proper log stays proper |
| PreferenceStore.Store.ClearAll | pawbot/agent/memory_preferences.py:436-458 | The loops leave both logs folding to nothing and count what they deleted; a proper log stays proper |
| PreferenceStore.Store.UpdateStatus | pawbot/agent/memory_preferences.py:486-516 | Restates the listed record under its id, in any log, unless it looks like credentials; one that is untrusted is not confirmed by it |
| PreferenceStore.Store.Promote | pawbot/agent/memory_preferences.py:518-544 | Does nothing for an untrusted record; any other is written as confirmed, explicit and trusted under its id, with its lineage and creation time, unless it looks like credentials |
| PreferenceStore.ChooseForPrompt | pawbot/agent/memory_preferences.py:568-581 | The loop over the listing computes the choice |
| TraceSpec.TallyIsRecomputed | pawbot/agent/observability.py:304-390 | Whatever the rows, the running counters are the recomputed figures, up to the typing of the verification pair |
| TraceSpec.SummariesAgreeIff | pawbot/agent/observability.py:358-367 | Running and recomputed summary agree if and only if the last verification row has a text status and a boolean flag, or none |
| TraceSpec.WrittenRowsGiveTheSummary | pawbot/agent/observability.py:1223-1300 | Any redaction that leaves the counted fields alone lets the file give the running summary |
| TraceSpec.IllTypedVerificationDisagrees | pawbot/agent/observability.py:358-367 | A verification row whose status is no text: live and recomputed status differ |
| TraceSpec.CountersCountRows | pawbot/agent/observability.py:152-210 | The counters are numbers of rows: all, those that ended badly, tools that did, provider errors, and unknown side effects, named by event and status |
| TraceSpec.ToolsAreCountedOnce | pawbot/agent/observability.py:182-209 | A row adds a tool call exactly if it is about one and no earlier row is about the same |
| TraceSpec.LongestStep | pawbot/agent/observability.py:304-374 | The longest step is one that a row reports, and none is longer |
| TraceSpec.LastVerificationIsShown | pawbot/agent/observability.py:358-367 | The verification shown is that of the last row about it |
| TraceRedaction.RedactedRowsGiveTheSummaryIff | pawbot/agent/observability.py:87-124 | With every text masked, trimmed and bounded before it is written, the file gives the running summary if and only if as many tool keys, all provider errors and the last verification survive |
| TraceRedaction.RedactedSummaryIsExact | pawbot/agent/observability.py:87-124 | As long as redaction does not split some calls and merge others, the summaries agree if and only if no call is split, none are merged, and all provider errors and the last verification survive |
| TraceRedaction.KeptIdsGiveTheSummaryIff | pawbot/agent/observability.py:87-124 | When no call id vanishes: if and only if redaction tells the tool keys apart and keeps all provider errors and the last verification |
| TraceRedaction.KeysSurviveIff | pawbot/agent/observability.py:182-209 | The tool count survives if and only if no call is split and none are merged, unless both happen |
| TraceRedaction.SplitAndMergedCancel | pawbot/agent/observability.py:87-93 | Both at once can leave the count as it is |
| TraceRedaction.TrimmedCallIdsMerge | pawbot/agent/observability.py:87-93 | The ids "x" and "x " are two calls live and one in the file |
| TraceRedaction.BlankCallIdsSplit | pawbot/agent/observability.py:87-93 | An id of blanks vanishes: one call live, two in the file |
| TraceRedaction.OnlyMaskedTextIsWritten | pawbot/agent/observability.py:87-124 | Two rows that differ only in what is masked are written alike: no text reaches the file in any other way |
| TraceRedaction.WrittenTextIsBounded | pawbot/agent/observability.py:87-93 | A written text has no NUL and at most 1000 characters and dots |
| TraceRedaction.CleanTextIsWritten | pawbot/agent/observability.py:87-93 | A text without credentials, NUL and blanks at its ends is written as it is up to 1000 characters, and its first 1000 with dots when it is longer |
| Texts.StripCutsTheEnds | pawbot/agent/observability.py:87-93 | Stripping cuts all spaces off both ends and nothing else |
| Texts.SpacesAre | pawbot/agent/observability.py:87-93 | Which characters are spaces |
| TraceRedaction.TheRestIsWrittenAsItIs | pawbot/agent/observability.py:96-124 | Events, statuses, numbers and flags, and what is missing, are written as they are |
| TraceRun.Run.Emit | pawbot/agent/observability.py:304-374 | Rows are numbered 1, 2, 3, and so on, and the counters stay those of the rows emitted, also when a write fails |
| TraceRun.Run.Finish | pawbot/agent/observability.py:411-449 | One terminal row, however often it is called |
| TraceRun.Run.SummaryMatchesTheFile | pawbot/agent/observability.py:376-409 | The event count is that of the file if and only if every write worked |
| TraceRun.Run.RedactedFileMatchesIff | pawbot/agent/observability.py:304-409 | When no write failed, the summary of a run is that of its file if and only if keys, errors and the last verification survive redaction |
| ApprovalSpec.ApprovedOnlyByResolve | pawbot/agent/approval.py:138-175 | In every interleaving an approved call had exactly one accepted resolve, which approved it while it was pending; a call that ended has no entry left |
| ApprovalSpec.StepKeepsSound | pawbot/agent/approval.py:138-210 | Every step keeps one entry per live call, one accepted resolve per call, and futures that hold what was resolved |
| ApprovalSpec.RequestKeepsSound | pawbot/agent/approval.py:140-141 | A duplicate id is denied and does not disturb the original |
| ApprovalSpec.LeaveKeepsSound | pawbot/agent/approval.py:144-161 | Every exit removes its own entry and no other |
| ApprovalSpec.CancelledSessionsAreDecided | pawbot/agent/approval.py:203-210 | After cancelling a session none of its requests is undecided; earlier decisions and other sessions are untouched |
| ApprovalOrigins.ApprovedByItsOwn | pawbot/agent/approval.py:163-190 | Over any run a call returned approval only if some step approved it by its own id and, when the decision came from a chat, from the chat of the call |
| ApprovalOrigins.ForeignChatChangesNothing | pawbot/agent/approval.py:177-190 | A decision from another chat changes nothing |
| ApprovalOrigins.OwnChatDecides | pawbot/agent/approval.py:177-190 | From its own chat an undecided request is decided, and a decided one stays as it is |
| ApprovalOutcomes.DecidedCallsReturnTheDecision | pawbot/agent/approval.py:138-175 | From request to return: the call returns the decision, and its entry and no other is gone |
| ApprovalOutcomes.UndecidedCallsAreDenied | pawbot/agent/approval.py:147-161 | A timeout, no time to wait, and a notification that fails deny; a cancelled call returns nothing |
| ApprovalOutcomes.TheFirstDecisionCounts | pawbot/agent/approval.py:163-175 | Of two decisions the first counts |
| ApprovalOutcomes.DuplicatesAreDenied | pawbot/agent/approval.py:140-141 | A second request with the same id is denied at once and leaves the first as it was |
| ToolApproval.Manager.BeginRequest | pawbot/agent/approval.py:138-147 | Registers the request, or denies a duplicate |
| ToolApproval.Manager.EndRequest | pawbot/agent/approval.py:144-161 | Whatever ends a call, its entry and no other leaves the table |
| ToolApproval.Manager.Resolve | pawbot/agent/approval.py:163-175 | True exactly for a pending, undecided request |
| ToolApproval.Manager.ResolveForChat | pawbot/agent/approval.py:177-190 | Only for the chat the request belongs to, else nothing changes |
| ToolApproval.Manager.CancelSession | pawbot/agent/approval.py:203-210 | The loop leaves no undecided request of the session |
| SubagentSpec.ResultsAreConsumedOnce | pawbot/agent/subagent.py:550-629 | Over any run each result is consumed at most once and only by its owning session; the index holds exactly the tasks that are still there |
| SubagentSpec.CancelledResultsAreNeverAccepted | pawbot/agent/subagent.py:654-669 | Once a session was cancelled no result of any task it ever spawned is accepted again, wherever its message is |
| SubagentSpec.CancelReachesItsTasks | pawbot/agent/subagent.py:656-662 | Cancelling asks exactly the session's own unfinished tasks to stop |
| SubagentOutcomes.AResultIsTakenOnce | pawbot/agent/subagent.py:550-629 | From spawn to delivery: the result is good for the session of the task, or its chat when it has none, and for no other; looking does not use it up, taking it does |
| SubagentOutcomes.WithdrawnResults | pawbot/agent/subagent.py:590-606 | A result that was not published is accepted by nobody, nor are those of a session being cancelled; others stay good |
| SubagentOutcomes.CancelledTasksAreSilent | pawbot/agent/subagent.py:654-662 | A task of a cancelled session is asked to stop and announces nothing any more, unless it had finished |
| SubagentOutcomes.AnEndedTaskIsForgotten | pawbot/agent/subagent.py:295-301 | A task leaves the table and the index when it has ended and not before, and no other does |
| SubagentManager.Manager.StartTask | pawbot/agent/subagent.py:270-293 | Registers the task under its session |
| SubagentManager.Manager.CleanupTask | pawbot/agent/subagent.py:295-301 | Removes the task and an emptied index entry |
| SubagentManager.Manager.AnnounceResult | pawbot/agent/subagent.py:550-606 | A cancelling task announces nothing, one that is not in the table is let through, and a failed publish withdraws the token |
| SubagentManager.Manager.AcceptResult | pawbot/agent/subagent.py:608-624 | Accepts exactly a good token from its owner, and consumes it once |
| SubagentManager.Manager.BeginCancelBySession | pawbot/agent/subagent.py:654-662 | Discards the session's tokens and silences every task it ever spawned |
| SubagentManager.Manager.EndCancelBySession | pawbot/agent/subagent.py:663-669 | When the wait is over, tokens that were issued in between are discarded too |

## Left out

- The repair passes work on message values, not on mutable rows: aliasing between the lists they share with their callers is not captured. Rows are objects only in the two tiers that write results in place, where it is proved that no row of the caller is written.
- Python values are reduced to what the passes look at: falsy ids are the empty string, contents are missing, text or blocks, and other message fields are not modelled.
- The tokenizers, the result store, the compaction notice, truncation and block filtering are unknown functions of the configuration; `int(budget * 0.85)` is `budget * 85 / 100`.
- Normalisation of a single tool result, turn latency, follow-up ids and timestamps of saved rows are not modelled.
- Turn dispatch has no recovery admission (its default is none). Cancellation arrives before a task's first step, in its wait for the lock, or in its turn, not inside cleanup, and no order is claimed for deferred turns. What a turn does is not modelled; that it ends is a step like any other, so nothing is said about liveness.
- Submitting an automation turn while the loop is not running, and the futures that `submit` waits on and `complete` fills, are not part of this model; they would add a smaller copy of the approval machine.
- The dispatcher's tokens are a set; where they come from is the subject of the subagent modules.
- DependencySearch.FreshSearchDecides: states a sufficient condition, for any marker evaluation; the exact one, in DependencyExactness.SatisfiedExactly, takes it from the packaging library that markers see extras in canonical form only.
- Reading package metadata, parsing requirements and canonicalising names are inputs of the dependency search; the extras of one requirement are visited in a given order.
- The journal file holds only entries this program wrote, one write is atomic, and files are sequences. Torn lines, entries edited by hand and the decoding of the tail are not modelled, beyond a tail read that fails.
- SessionArchiver.ArchivedSession.BeginIdleCompaction: the session object is the same throughout; dropping it from the cache and loading it again before the capture is not modelled.
- SessionArchiver.AutoCompact.PrepareSession: likewise without the reload of a session that is being archived or has expired.
- A crash between a journal append and saving the session, and edits that shorten or replace a session's messages, are not part of the archive model; whether a slice can be replayed, and the estimate of a prompt, are inputs.
- Expiry by time is an input of the idle scan, and so are the stored form of a summary and the checkpoint saved with it.
- Keys and values of preferences are normalised before the model sees them, ids and times are fresh numbers, and the sort of a listing is a parameter constrained by what the lookups depend on. Expiry, evidence, confidence and the rendering and truncation of the prompt are not modelled.
- Fields of a trace event that override the sequence number are not modelled; the masking of credentials is an unknown function on texts, event names and statuses are the program's own words, and rows have fewer fields than redaction lets through. The identity, timing and outcome columns of a summary, the index file and retention are left out.
- The notification of an approval request and the clock behind its timeout are steps that may happen at any time while they are enabled.
- SubagentSpec.CancelledResultsAreNeverAccepted: covers tasks spawned for the session; a task without a session, whose result goes to its chat, is not in the index and goes on running.
- Runs of subagents, exec sessions, providers, MCP, channels, the web and terminal interfaces and OTLP export are foreign calls or presentation and are left out.
