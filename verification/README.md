# A verified model of the ftown bridge

The bridge is one asynchronous process: it starts coding agents, keeps their inboxes and the
questions they ask, follows their pull requests, and streams what happens to the dashboard.
Almost everything it does is a sequence of atomic stretches between two `await`s, over locks,
ledgers, queues and timers. This project models its components in Dafny and proves what they
promise, over every input, every run and every interleaving of their atomic steps.

`dafny verify dfyconfig.toml` checks everything. There is one file for each component; the
files share only `Results.dfy`, except that the four ledger files build on each other, and so do
the three about `node_modules`, the three about hooks, the two about questions and the two about
launches.

## How it is modelled

- **What changes in place is a class or a method with loops.** Its methods are proved against
  functions on values (`Store` against `Apply`, `Runner` against `Step`, `Settings` against
  `UpsertIn`), and the promises are lemmas about those functions.
- **What interleaves is a state machine** with one step for each atomic stretch: a save is a step
  apart from what follows it, and crashes, failures and time-outs are steps like any other.
  The lemmas speak about all sequences of steps.
- **The outside is a parameter.** Clocks do not go back, fresh identifiers are new, hashing is
  injective (a fingerprint is the value itself), the file system is its atomic calls. Sizes of
  serialised text are given with the text or as a function. Strings that are only compared
  (ids, URLs, pull request keys) are numbers.

| file | what it is about |
|---|---|
| `PackageLayout.dfy`, `ProductionDependencies.dfy`, `ReservedNames.dfy` | when a new `node_modules` keeps every resolution, the worklist that lays it out, and a tree on which it does not |
| `SetupLock.dfy`, `AsyncLock.dfy` | the lock directory of the setup, and the promise chain behind every in-process lock |
| `AttentionLedger.dfy`, `AttentionOutcomes.dfy`, `AttentionCursor.dfy`, `AttentionStore.dfy` | the ledger of questions and notices, what each operation leaves of every item, its cursors, and the store that keeps it |
| `AttentionIdle.dfy`, `AttentionWait.dfy` | idle notices across restarts, and long polls on one item |
| `AttentionPrompt.dfy`, `AttentionTexts.dfy` | the normal form of questions and answers, and what cleaning leaves of a text |
| `MailStore.dfy`, `MailDelivery.dfy` | the inbox file, and who may deliver from it |
| `ProcessRunner.dfy`, `ProcessReports.dfy` | launches of a session, their terminals and stale callbacks, and what their ends are reported as |
| `OutboundPipeline.dfy`, `LocalEvents.dfy`, `BoundedRegex.dfy` | bounded sending, the event stream, and bounded searching |
| `PullRequestStatus.dfy`, `PullRequestEvents.dfy` | the quota on asking GitHub, and the order in which links are asked about |
| `PreviewChat.dfy`, `Sessions.dfy`, `GeneratedNames.dfy` | preview conversations, session trees, session names |
| `HarnessCommands.dfy`, `HookInstaller.dfy`, `HookOutcomes.dfy`, `HookCommands.dfy` | the commands that start agents, the hooks installed for them, what an installation leaves hook by hook, and how those are recognised |

## Where the code does less than it says

Each of these is a lemma with a concrete input, next to the exact condition under which the
promise does hold.

- **Lost wake-ups.** `save` syncs the directory after its rename. If only that sync fails, an item
  is resolved on disk but nobody is woken (`AttentionWait.LostWakeUpHappens`). That is the only way
  to strand a poll (`StrandedOnlyByBrokenSave`), and it strands every poll parked there
  (`BrokenSaveStrands`).
- **A clock that jumps.** A new idle cycle takes its start and its due time from two readings of the
  clock, and one of an earlier version is known by the ten minutes between them. If the clock jumps by
  exactly eight minutes in between, a restart takes the cycle for an old one and tells it again
  (`AttentionIdle.LookAlikeIsToldTwice`); every other cycle is told at most once (`AtMostOneNotice`).
- **A prompt that goes nowhere.** The registry says that Pi takes the first prompt as an argument, but
  its command leaves the prompt out when it starts on a stored session id. A prompt or briefing given
  with one is neither passed nor typed; for all other launches it arrives exactly once
  (`HarnessCommands.FirstTextArrives`).
- **A client that leaves at the wrong moment.** Abandoning a poll is documented to lose no mail, but it
  does not take the lock. A client that goes away exactly while mail is being marked for its poll loses
  that mail: it counts as delivered, and no poll has it (`MailDelivery.GoneWhileMarking`, with the run
  `LostOnTheWay`). At every other moment nothing is ever marked for it (`GoneAtAnotherMoment`).
- **A package called `node_modules`.** The name check accepts it. `findDependency`, by which the old
  tree is read, looks inside such a package, while the worklist's own search, like Node, skips
  directories of that name. So a layout comes out in which a package finds another one's dependency,
  and the odd package itself not its own (`ReservedNames.ReservedNameBreaksLayout`). A layout is right
  for `findDependency`'s walk exactly if no such package shadows what another requires
  (`PackageLayout.PreservedUnlessShadowed`), for Node's exactly if none hides its own dependencies
  from itself (`PreservedForNodeUnlessHidden`), and for both wherever nothing the application reaches
  requires that name (`PreservedWithoutReserved`).
- **A home directory named like a hook.** Hooks are recognised by words anywhere in their command,
  so in the home directory too. Below a directory with both `ftown-harness` and `hook-pump` in its
  path the mail pump's hook replaces the notifier (`HookCommands.PumpOverwritesNotifier`), with
  `ask-hook` the question hook removes it (`AskRemovesNotifier`); installations are complete exactly
  in the other homes (`CompleteInFittingHomes`).
- **Crossing moves.** Updates are serialised for each session, not for all. Two sessions moved under
  each other at once end up as each other's parents (`Sessions.CrossingMovesNest`); a save keeps the
  trees flat exactly when what was checked still holds (`SavingKeepsOneLevel`).

## Model

| member | source | states |
|---|---|---|
| `ProductionDependencies.ProductionDependencies` | bridge/src/production-dependencies.ts:37-90 | when the worklist finishes, the application and every placed package is served each required name as it resolved in the old tree, and everything placed was required by something reachable; the new tree resolves everything the same, by the walk of `findDependency` and by the one of Node, each exactly under its condition; it fails only for a fault of something reachable, never for a placement conflict, and runs out of its bound only with more wanted placements than that |
| `ProductionDependencies.Edges` | bridge/src/production-dependencies.ts:40-56 | returns each required name once, with what nearest-ancestor lookup finds below the tree, leaving out only missing ones listed as optional; an error names a required package that is missing, badly named or outside the tree |
| `ProductionDependencies.Add` | bridge/src/production-dependencies.ts:57-64 | a slot is written once: a taken slot is left alone, and is a conflict exactly if another source holds it |
| `ProductionDependencies.AncestorsFirst` | bridge/src/production-dependencies.ts:79-88 | a placed package whose path leads through another was queued after it |
| `ProductionDependencies.NotBetween` | bridge/src/production-dependencies.ts:79-88 | no slot lies strictly between a package and the directory that holds it |
| `ProductionDependencies.Undisturbed` | bridge/src/production-dependencies.ts:83-86 | a new placement changes no lookup that found something, seen from any place the worklist has settled |
| `ProductionDependencies.PlaceOne` | bridge/src/production-dependencies.ts:81-87 | placing one request finds its slot free, satisfies the request, and keeps all settled entries settled |
| `ProductionDependencies.Request` | bridge/src/production-dependencies.ts:81-87 | after one request of an entry, that request and all before it resolve as in the original |
| `ProductionDependencies.PlacementOf` | bridge/src/production-dependencies.ts:57-87 | what is found already stays; else the source goes next to the requester if something else is found there or it lay in the requester's own `node_modules`, and to the top if not; a slot another source has is a conflict |
| `ProductionDependencies.Requests` | bridge/src/production-dependencies.ts:81-87 | after the inner loop the entry joins those whose every name resolves as in the original |
| `ProductionDependencies.MoreFuel` | bridge/src/production-dependencies.ts:79 | a larger bound changes no outcome that was reached without it |
| `PackageLayout.SlotInjective` | bridge/src/production-dependencies.ts:85 | two requests share a slot only if they have the same owner and the same name |
| `PackageLayout.NamesChecked` | bridge/src/production-dependencies.ts:25 | plain and scoped names pass the check, dots, blanks, bare scopes and longer paths do not |
| `PackageLayout.FoundIsAccessible` | bridge/src/production-dependencies.ts:25-76 | what nearest-ancestor lookup hits below an ancestor that is not called `node_modules`, the search that skips such directories finds too |
| `PackageLayout.PreservedUnlessShadowed` | bridge/src/production-dependencies.ts:25-88 | what was served keeps its meaning for nearest-ancestor lookup exactly if no placed package called `node_modules` shadows a required name of another |
| `PackageLayout.PreservedForNodeUnlessHidden` | bridge/src/production-dependencies.ts:65-88 | it keeps its meaning for the lookup that skips exactly if no such package hides its own dependency from itself |
| `PackageLayout.PreservedWithoutReserved` | bridge/src/production-dependencies.ts:25-88 | both meanings are kept if nothing reachable from the application requires a package called `node_modules` |
| `ReservedNames.TheRun` | bridge/src/production-dependencies.ts:78-88 | the whole run of the worklist over a tree of six packages, one of them called `node_modules` |
| `ReservedNames.ReservedNameBreaksLayout` | bridge/src/production-dependencies.ts:25-88 | in the layout it ends with, one package finds another one's dependency instead of its own, and for Node the odd package does not find its own |
| `SetupLock.AtMostOneHolder` | bridge/src/setup-state.ts:77-124 | in every interleaving of setups and crashes, with any number of them reclaiming a dead owner at once, at most one live process holds the lock, and then the directory holds exactly its marker |
| `SetupLock.OnlyReleaseTakesTheMarker` | bridge/src/setup-state.ts:112-121 | the marker of a live holder goes away only by a step of that holder's own release |
| `SetupLock.NoPendingLeft` | bridge/src/setup-state.ts:123 | a setup that holds the lock or is through, whatever way it ended, has no candidate directory any more |
| `SetupLock.ForeignPreserved` | bridge/src/setup-state.ts:91-105 | a lock directory with a foreign file in it keeps that file in every run, and nobody ever holds the lock |
| `SetupLock.Listing` | bridge/src/setup-state.ts:94-105 | the listing names an owner exactly if the directory holds one intact marker and nothing else, and asks for another try exactly if it is empty |
| `SetupLock.StepKeepsInv` | bridge/src/setup-state.ts:86-123 | every atomic file-system call of every process keeps the protocol's invariant |
| `SetupLock.SetupDirectory.Acquire` | bridge/src/setup-state.ts:77-118 | undisturbed, the loop takes the lock exactly when it is free, empty or left by a dead owner, and otherwise leaves it as it was |
| `SetupLock.SetupDirectory.Release` | bridge/src/setup-state.ts:119-122 | releasing removes the owner's own marker and then the directory if nothing else is in it |
| `SetupLock.FreeLockIsTaken` | bridge/src/setup-state.ts:77-87 | in the interleaved protocol, from any state, one rename takes a free or empty lock |
| `SetupLock.DeadOwnerIsReplaced` | bridge/src/setup-state.ts:86-118 | the lock of an owner that is found dead is taken in seven steps of the caller |
| `SetupLock.OtherLocksAreLeft` | bridge/src/setup-state.ts:88-123 | any other lock is as before after six steps, and the call has ended without a trace |
| `SetupLock.EmptyIsTriedAgain` | bridge/src/setup-state.ts:86-93 | who finds the directory empty tries again, three times in all, and then gives up without a trace |
| `SetupLock.ReleaseFrees` | bridge/src/setup-state.ts:119-122 | a release that is not disturbed leaves no lock behind |
| `AsyncLock.MutualExclusion` | bridge/src/attention-store.ts:179-187 | at most one critical section of a key is open; all made before it are over and all made after it wait, although map entries come and go |
| `AsyncLock.NoStall` | bridge/src/attention-store.ts:179-187 | while a call waits, some call at or before it is running or can begin |
| `AsyncLock.PassesOn` | bridge/src/attention-store.ts:179-187 | a call that may begin runs and ends, and the next one may begin then |
| `AsyncLock.NoEntryIsLeft` | bridge/src/attention-store.ts:184-186 | once every call was cleaned up after, the map has no entry of the key |
| `AttentionLedger.RunInv` | bridge/src/attention-store.ts:227-416 | after any operations, sequence numbers are unique and ascending, every number above the pruned mark is present, and no two items clash |
| `AttentionLedger.ApplyGood` | bridge/src/attention-store.ts:237-416 | every operation keeps the ledger's invariant, only adds to items what may be added, and loses no open item |
| `AttentionLedger.ResolvedOnce` | bridge/src/attention-store.ts:259-272 | once an item is resolved, no later operation changes how, when or with which answer |
| `AttentionLedger.StoredItemsFit` | bridge/src/attention-store.ts:285-298 | an answer is there exactly if the resolution is `answered`; at most one open item for a source, one `ask_user` item for a call, and different fingerprints for open items without a source |
| `AttentionLedger.OpenItemsStay` | bridge/src/attention-store.ts:227-232 | no operation drops an item that was open when it began |
| `AttentionLedger.PruneKeepsInv` | bridge/src/attention-store.ts:227-232 | pruning moves the pruned mark so far that nothing above it is missing |
| `AttentionLedger.KeepsBudget` | bridge/src/attention-store.ts:228-229 | exactly as many resolved, unprotected items stay as the retention allows, or all if there are fewer |
| `AttentionLedger.KeepsNewest` | bridge/src/attention-store.ts:228-230 | those that stay are newer than everything dropped |
| `AttentionLedger.RunDescends` | bridge/src/attention-store.ts:237-416 | after any operations every item is new or descends from the item it was: same identity, number, kind and source; its text changes at most once, when an item with a source gets the prompt it had not; occurrences never drop and the first acknowledgement stays |
| `AttentionOutcomes.AnswerOutcome` | bridge/src/attention-store.ts:361-393 | the answered item carries exactly this answer and is closed as answered, older plain requests are closed by hand, and every other item stays as it was or is an old resolved one that was dropped |
| `AttentionOutcomes.RefusalIsAllowed` | bridge/src/attention-store.ts:361-376 | an answer is refused for the one reason there is: unknown, not answerable, resolved already, invalid, or a hook nobody waits for any more |
| `AttentionOutcomes.DismissOutcome` | bridge/src/attention-store.ts:339-359 | dismissing closes the displayed request, if it was open, and the older plain ones by hand, and no other open item |
| `AttentionOutcomes.CloseOutcome` | bridge/src/attention-store.ts:394-416 | resolving a list of ids closes each of them that was open, by hand and now, and no other; all of them are still there |
| `AttentionOutcomes.AcknowledgeOutcome` | bridge/src/attention-store.ts:394-416 | acknowledging keeps the first acknowledgement and changes nothing else |
| `AttentionOutcomes.MutateApplies` | bridge/src/attention-store.ts:394-416 | the ledger's operation on a list of ids changes all of them if all are known, and nothing otherwise |
| `AttentionOutcomes.RecordOutcome` | bridge/src/attention-store.ts:248-311 | a hook event closes exactly the open items it reports as over, with its reason, and its request is a new item with the next number and its own text, or is counted on the one item it repeats |
| `AttentionOutcomes.WakesIfSettled` | bridge/src/attention-store.ts:258-311 | waiting polls are woken exactly if an open item was settled |
| `AttentionOutcomes.PrunedIs` | bridge/src/attention-store.ts:227-232 | pruning drops only resolved items that nobody needs, each older than all of that kind that stay, and as many as the retention asks for |
| `AttentionStore.Store.ResolvePass` | bridge/src/attention-store.ts:259-272 | the resolving loop closes exactly the open items it selects and returns exactly their ids |
| `AttentionStore.Store.FindExisting` | bridge/src/attention-store.ts:285-287 | the search finds the first item of the same source or the same open text, if there is one |
| `AttentionStore.Store.PruneItems` | bridge/src/attention-store.ts:227-232 | dropping in place is the pruning of the ledger model |
| `AttentionStore.Store.Observe` | bridge/src/attention-store.ts:248-311 | recording a hook in place is the model's record operation, with the outcome of `RecordOutcome`; it says whether an item was created and whether an open one was settled |
| `AttentionStore.Store.ResolveExplicitThrough` | bridge/src/attention-store.ts:339-359 | dismissing the displayed request closes it and the older plain ones and touches no other open item; it fails, and changes nothing, only for an unknown one or one that asks for nothing |
| `AttentionStore.Store.AnswerRequest` | bridge/src/attention-store.ts:361-393 | on success the item with this id carries exactly this answer and is closed as answered, and of the open items only older plain requests changed, to closed by hand; each refusal has its own reason and changes nothing |
| `AttentionStore.Store.MutateItems` | bridge/src/attention-store.ts:394-416 | acknowledging or resolving happens to all the ids, and to no other item, or, with an unknown id, none or too many, changes nothing |
| `AttentionStore.Store.ListPage` | bridge/src/attention-store.ts:312-326 | the page a read returns is the model's page for the same cursor and options |
| `AttentionCursor.PageComplete` | bridge/src/attention-store.ts:312-326 | a page holds exactly the wanted items between where it starts and the cursor it returns, and stops short only when it is full |
| `AttentionCursor.PageContiguous` | bridge/src/attention-store.ts:316-323 | read with resolved items and without a reset, a page is the unbroken run of numbers from its cursor to the next |
| `AttentionCursor.FollowerMissesNothing` | bridge/src/attention-store.ts:312-325 | a follower with any operations in between has, until a reset is reported, every item after its start exactly once and in order up to its cursor |
| `AttentionCursor.NothingPrunedAhead` | bridge/src/attention-store.ts:316 | when a read reports no reset, every number beyond its cursor is still in the ledger |
| `AttentionCursor.PageInShort` | bridge/src/attention-store.ts:312-326 | a read starts over exactly if its cursor is of another ledger, before what was pruned or beyond the end; the page has what is wanted up to its cursor, and is as long as asked, 50 by default and 100 at most, if anything is left over |
| `AttentionIdle.AtMostOneNotice` | bridge/src/attention-store.ts:118-173 | over every run with crashes and restarts, a cycle this code started is told to the parent at most once, unless its two readings of the clock were eight minutes apart |
| `AttentionIdle.LookAlikeIsToldTwice` | bridge/src/attention-store.ts:150-162 | a run with such a cycle, which is told twice |
| `AttentionIdle.NoticeIsMarkedAndDue` | bridge/src/attention-store.ts:134-144 | a notice goes out only for a cycle whose mark is already on disk, not before it is due, and not after notifications were stopped |
| `AttentionIdle.CancelledStaysSilent` | bridge/src/attention-store.ts:246-255 | once an event that cancels a cycle is committed, no later step of any run tells that cycle |
| `AttentionIdle.StepKeepsInv` | bridge/src/attention-store.ts:118-177 | timers, saves, restores, cancellations and crashes each keep the invariant behind these promises |
| `AttentionIdle.HookIsOnDisk` | bridge/src/attention-store.ts:246-257 | work, a tool or the end of the session ends a cycle; falling idle after work starts one that is due in two minutes; any other event leaves it |
| `AttentionIdle.HookKeepsTimer` | bridge/src/attention-store.ts:300-303 | an event that does not end the cycle keeps a timer that is set, and sets one for an idle session's untold cycle if none is |
| `AttentionIdle.FailedSaveFrees` | bridge/src/attention-store.ts:125-127 | a save that fails frees the lock and leaves the disk; a notice that could not be marked is not given |
| `AttentionIdle.IdleIsTold` | bridge/src/attention-store.ts:118-147 | a session that falls idle and stays so is told about once two minutes have passed, and not before |
| `AttentionIdle.DueIsTold` | bridge/src/attention-store.ts:128-147 | the timer of a cycle that is due leads to its notice, with the mark on disk and the timer gone |
| `AttentionIdle.EarlyIsSetAgain` | bridge/src/attention-store.ts:138 | a timer that comes early is set again and nothing else happens |
| `AttentionIdle.GoneIsForgotten` | bridge/src/attention-store.ts:137 | a session that is found gone loses its cycle, and nobody is told |
| `AttentionIdle.CancelForgets` | bridge/src/attention-store.ts:166-173 | cancelling ends the cycle on disk and its timer |
| `AttentionIdle.RestartGoesOn` | bridge/src/attention-store.ts:149-161 | after a crash a cycle that was not told gets its timer back |
| `AttentionIdle.RestartTellsNobody` | bridge/src/attention-store.ts:118-161 | one that was told, or of a session that is not idle, gets none, and none is set while notifications are stopped |
| `AttentionIdle.LegacyIsShortened` | bridge/src/attention-store.ts:156-160 | a cycle of an earlier version is due two minutes after its start instead of ten, told or not |
| `AttentionIdle.StoppedIsSilent` | bridge/src/attention-store.ts:118-176 | once notifications are stopped, nobody is told in the rest of any run without a restart |
| `AttentionWait.StrandedOnlyByBrokenSave` | bridge/src/attention-store.ts:451-496 | in every interleaving, a poll parked on a resolved item without a wake-up was stranded by a save that threw after its rename |
| `AttentionWait.NoLostWakeUp` | bridge/src/attention-store.ts:93-95 | if every save either fails before its rename or returns, no poll is ever parked on a resolved item without a wake-up |
| `AttentionWait.BrokenSaveStrands` | bridge/src/attention-store.ts:199-215 | a save that throws after its rename strands every parked poll on what it resolved |
| `AttentionWait.LostWakeUpHappens` | bridge/src/attention-store.ts:208-213 | six steps from a fresh start that strand a poll |
| `AttentionWait.ActiveIsWaiting` | bridge/src/attention-store.ts:470-494 | each item's active count is the number of its registered polls still waiting, although records are swept, dropped and shared |
| `AttentionWait.RunKeepsAlert` | bridge/src/attention-store.ts:456-468 | a poll that asks again or is parked has either been woken or will see the resolution, whatever happened before |
| `AttentionWait.ResolvedReturnsAtOnce` | bridge/src/attention-store.ts:451-472 | a poll on a resolved item, or one that is late, returns with what it read and leaves nothing behind |
| `AttentionWait.ResolutionWakes` | bridge/src/attention-store.ts:93-95 | resolving items wakes every poll of the session |
| `AttentionWait.WokenReturns` | bridge/src/attention-store.ts:464-486 | a woken poll whose item is resolved returns with it; any other parks again |
| `AttentionWait.FailedResolvesNothing` | bridge/src/attention-store.ts:199-215 | a save that fails before its rename resolves nothing |
| `AttentionWait.WaitingIsLive` | bridge/src/attention-store.ts:99-103 | in every run, an item somebody waits for has a live waiter |
| `AttentionWait.GapIsBridged` | bridge/src/attention-store.ts:99-103 | after its last poll returned, an item keeps a live waiter for exactly ten seconds |
| `AttentionWait.GoneIsNotLive` | bridge/src/attention-store.ts:489-494 | once the last client has gone away it has none |
| `AttentionWait.OthersStayLive` | bridge/src/attention-store.ts:471-478 | a poll on one item takes no live waiter from another |
| `AttentionPrompt.StripsToQuiet` | bridge/src/attention-prompt.ts:11-32 | the five escape passes and the filter leave no control character, and leave text without any alone |
| `AttentionPrompt.BlocksAreNormalised` | bridge/src/attention-prompt.ts:34-37 | cleaning a block yields its normal form and is the identity exactly on that form |
| `AttentionPrompt.LinesAreNormalised` | bridge/src/attention-prompt.ts:39-41 | the same for single lines, which have no tab and no line break |
| `AttentionPrompt.PromptsAreNormalised` | bridge/src/attention-prompt.ts:150-164 | whatever is accepted as a prompt is in normal form: every limit, distinct labels, and free text where there are no options |
| `AttentionPrompt.PromptsReadBack` | bridge/src/attention-prompt.ts:64-164 | a stored prompt parses to itself exactly if it is in normal form |
| `AttentionPrompt.AskedQuestionsAreNormal` | bridge/src/attention-prompt.ts:167-213 | the lenient parser of Claude Code questions yields the same normal form, so the strict one reads it back |
| `AttentionPrompt.SelectedIsGiven` | bridge/src/attention-prompt.ts:249-267 | the stored selection has exactly the given indexes, each once and ascending, in range, and at most one unless several are allowed |
| `AttentionPrompt.AnswersAreNormalised` | bridge/src/attention-prompt.ts:231-286 | validated answers are in normal form for their questions |
| `AttentionPrompt.AnswersValidateAgain` | bridge/src/attention-prompt.ts:231-286 | answers validate to themselves exactly if they are in normal form |
| `AttentionPrompt.ReadQuestion` | bridge/src/attention-prompt.ts:95-148 | the statement-by-statement parser accepts the same questions with the same errors as the parsing function; what is accepted says what was given, with one choice and a text of one's own allowed unless it says otherwise |
| `AttentionPrompt.ReadOptions` | bridge/src/attention-prompt.ts:114-128 | the loop with its set of seen labels refuses exactly the lists with an invalid option or a repeated label |
| `AttentionPrompt.ReadPrompt` | bridge/src/attention-prompt.ts:150-164 | what is returned is in normal form and parses to itself |
| `AttentionPrompt.ReadAnswers` | bridge/src/attention-prompt.ts:231-286 | what is returned is in normal form and validates to itself |
| `AttentionPrompt.AcceptedQuestionSays` | bridge/src/attention-prompt.ts:64-148 | an accepted question has the cleaned text, header, labels and descriptions it was given, in order, and the given flags or their defaults |
| `AttentionTexts.QuietStays` | bridge/src/attention-prompt.ts:23-31 | text without control characters stays in front of whatever follows |
| `AttentionTexts.CsiGoes` | bridge/src/attention-prompt.ts:16 | a control sequence goes from its introducer to its final byte, and nothing behind it |
| `AttentionTexts.BrokenCsiGoes` | bridge/src/attention-prompt.ts:16 | one that is broken off takes nothing of what follows |
| `AttentionTexts.OscGoes` | bridge/src/attention-prompt.ts:14 | a window title or link goes with its payload up to BEL |
| `AttentionTexts.StringGoes` | bridge/src/attention-prompt.ts:12 | a device control string and its kin go with their payload up to their terminator |
| `AttentionTexts.LoneEscapeGoes` | bridge/src/attention-prompt.ts:18 | any other escape takes exactly one printable character with it |
| `AttentionTexts.ControlGoes` | bridge/src/attention-prompt.ts:19-21 | any other control character goes alone; tabs and line feeds stay |
| `AttentionTexts.SeparatorBreaks` | bridge/src/attention-prompt.ts:25 | the two Unicode line separators become line feeds |
| `AttentionTexts.EndsGo` | bridge/src/attention-prompt.ts:34-42 | trimming takes exactly the white space at both ends |
| `AttentionTexts.ReadersAgree` | bridge/src/attention-prompt.ts:95-213 | on a call without fields only one of them knows, the lenient and the strict reader accept the same and yield the same question |
| `MailStore.Store.MarkDelivered` | bridge/src/mail-store.ts:149-186 | marks exactly the wanted undelivered messages, returns exactly those, and drops from the rewritten file what the model drops; with nothing marked the file is left alone |
| `MailStore.Store.CommitPullRequestObservation` | bridge/src/mail-store.ts:101-120 | commits an observation and its message together, or neither, and answers with the id of the message it stored |
| `MailStore.DropsOldestDelivered` | bridge/src/mail-store.ts:173-182 | a rewrite keeps the order; up to some point only undelivered messages are left, after it everything is |
| `MailStore.RewriteSize` | bridge/src/mail-store.ts:173-183 | a rewrite leaves exactly max(undelivered, min(total, 500)) messages and the checkpoint as it was |
| `MailStore.NothingLostNothingTwice` | bridge/src/mail-store.ts:122-186 | after any appends, commits and markings, every message ever stored is still undelivered or was returned by exactly one marking |
| `MailStore.CheckpointsFollowObservations` | bridge/src/mail-store.ts:101-120 | for any observations of any links, with any mail and deliveries in between: cut into stretches of one link, the checkpoint stands for the usable observations of the last stretch without repeats of state and head and without anything after the first merge, its ordinal is their number, and the notices in the inbox are exactly those the stretches call for, in their order |
| `MailStore.NewLinkStartsAgain` | bridge/src/mail-store.ts:101-120 | the first usable observation of a link the checkpoint is not about is committed with ordinal one and mailed unless it is in progress, whatever the checkpoint says |
| `MailStore.CommitMails` | bridge/src/mail-store.ts:107-119 | a commit adds exactly the notice it answers with, undelivered and last, or nothing |
| `MailStore.OneLinkFollows` | bridge/src/mail-store.ts:101-120 | for one link there is one stretch: all its observations |
| `MailStore.MarkMoves` | bridge/src/mail-store.ts:163-183 | counted with repeats, the messages undelivered before are exactly those still undelivered and those the marking returned |
| `MailStore.CommittedNext` | bridge/src/mail-store.ts:106 | one more observation extends what is committed unless it repeats the last one or follows a merge |
| `MailDelivery.ClaimIsRespected` | bridge/src/mail-delivery.ts:344-571 | in every run, a message claimed for a wake is delivered by that wake after acceptance or not at all while claimed: no drain, poll, timer or notify delivers it, and none is delivered twice |
| `MailDelivery.ClaimedStaysUndelivered` | bridge/src/mail-delivery.ts:520-555 | between claim and acceptance the message stays undelivered and the claim names it |
| `MailDelivery.OneClaimAtATime` | bridge/src/mail-delivery.ts:520-526 | a claim is never replaced by another, is taken only inside the wake's locked selection, and does not outlive the wake |
| `MailDelivery.ClaimEndsInRelease` | bridge/src/mail-delivery.ts:527-563 | the only step that ends a claim is the release in the wake's own finally part, and it ends the wake |
| `MailDelivery.ReleaseReleases` | bridge/src/mail-delivery.ts:558-563 | whatever went wrong before, once the release gets the lock the claim is gone and the lock free |
| `MailDelivery.ClaimCanEnd` | bridge/src/mail-delivery.ts:520-563 | from every reachable state with a claim, whatever holds the lock and whatever the agent answers, letting what is under way finish ends the claim, the wake and the hold on the lock |
| `MailDelivery.StepKeepsInv` | bridge/src/mail-delivery.ts:251-571 | every step of drains, polls, timers, notifies and wakes keeps the invariant that ties claim, lock and deliveries together |
| `MailDelivery.PollsGetTheirMail` | bridge/src/mail-delivery.ts:354-460 | in every run, what a notify or a timer marks for a poll that is still open is in that poll's answer, the answer is exactly that in that order, and a poll without an answer had nothing marked for it in time |
| `MailDelivery.ReachesUnlessLate` | bridge/src/mail-delivery.ts:354-460 | what a notify or a timer delivers is in its poll's answer exactly if that poll was not over when it was marked |
| `MailDelivery.GoneWhileMarking` | bridge/src/mail-delivery.ts:358-360 | a client that goes away while mail is being marked for its poll loses it: it is delivered and in no answer |
| `MailDelivery.GoneAtAnotherMoment` | bridge/src/mail-delivery.ts:453-458 | a client that goes away at any other moment loses nothing: whatever follows, no mail is marked for its poll |
| `MailDelivery.LostOnTheWay` | bridge/src/mail-delivery.ts:354-460 | a run of nine events from the start that loses a message |
| `MailDelivery.MarkingAnswersThePoll` | bridge/src/mail-delivery.ts:356-361 | marking for a poll delivers exactly what was listed and is still undelivered, and answers the poll with just that unless it was answered or abandoned before |
| `MailDelivery.NoMessageInTwoAnswers` | bridge/src/mail-delivery.ts:354-460 | no message is in the answers of two polls |
| `MailDelivery.EveryPollIsAccountedFor` | bridge/src/mail-delivery.ts:418-460 | every poll that ever waited is the one waiting, or was answered, or was abandoned, and just one of these |
| `MailDelivery.UnclaimedMailIsDelivered` | bridge/src/mail-delivery.ts:354-449 | a drain, poll, timer or notify that is not disturbed delivers all the mail that is not claimed, and a waiting poll gets all of it |
| `MailDelivery.NoMessageIsLost` | bridge/src/mail-delivery.ts:251-571 | in every run each message ever stored is still undelivered or was delivered |
| `MailDelivery.WakeClaims` | bridge/src/mail-delivery.ts:515-526 | a wake in a quiet moment claims the oldest undelivered message |
| `MailDelivery.AcceptedIsDelivered` | bridge/src/mail-delivery.ts:527-557 | once the agent took it, that message and no other is delivered by the wake |
| `MailDelivery.RefusedStays` | bridge/src/mail-delivery.ts:527-550 | if the agent does not take it, or the wake is no longer wanted, it stays undelivered |
| `MailDelivery.FailedMarkReleases` | bridge/src/mail-delivery.ts:551-563 | marking that fails leads to the release of the claim as well |
| `MailDelivery.FailedClaimEnds` | bridge/src/mail-delivery.ts:520-526 | a wake that cannot see the mail ends without a claim |
| `ProcessRunner.AtMostOneEnd` | bridge/src/claude-runner.ts:92-454 | over any events, no launch reports more than one end |
| `ProcessRunner.SilentOnceMarked` | bridge/src/claude-runner.ts:165-217 | once a launch was marked as stopping or as detach-only, it reports nothing in the rest of any run |
| `ProcessRunner.StaleCallbacksAreHarmless` | bridge/src/claude-runner.ts:340-392 | output, exits, time-outs and creations of a launch that is no longer current change nothing a newer launch of the session has |
| `ProcessRunner.OutputStep` | bridge/src/claude-runner.ts:165-342 | output is passed on only from the terminal attached for the current launch; a tmux session is told to end only by a stop of its session, or when its creation succeeds for a launch that was stopped meanwhile |
| `ProcessRunner.OnlyStopKills` | bridge/src/claude-runner.ts:165-301 | in every run, a session that nobody stops has its tmux session never told to end: not by leaving the bridge, by exits, by failures, or by creations that end late |
| `ProcessRunner.StoppedCreationIsKilled` | bridge/src/claude-runner.ts:165-301 | a launch that is stopped while its tmux session is being created: if it is still current when that succeeds, whatever happened in between, the tmux session is killed and nothing is attached or reported |
| `ProcessRunner.NoneStoppedUnlessStop` | bridge/src/claude-runner.ts:165-217 | in every run, no launch of a session that nobody stops is marked as stopping while it is being created, although leaving the bridge stops what is attached |
| `ProcessRunner.PlayKeepsInv` | bridge/src/claude-runner.ts:92-454 | whatever is attached belongs to its session's current launch and runs as recorded, after any events |
| `ProcessRunner.Runner.Start` | bridge/src/claude-runner.ts:92-119 | a start replaces the session's launch and detaches the old terminal before anything can fail |
| `ProcessRunner.Runner.AttachTmux` | bridge/src/claude-runner.ts:306-392 | attaching happens only for the current launch, and a failure to spawn ends that launch with one report |
| `ProcessRunner.Runner.TmuxCreated` | bridge/src/claude-runner.ts:265-304 | a session created for a replaced launch is left alone, one created for a stopped launch is killed, and a stopped launch reports nothing |
| `ProcessRunner.Runner.ReattachSession` | bridge/src/claude-runner.ts:122-140 | reattaching leaves an attached session alone and succeeds exactly if there is something to attach to |
| `ProcessRunner.Runner.StopSession` | bridge/src/claude-runner.ts:165-204 | a stop marks the launch before its terminal is killed, ends its tmux session or one that has no client, arms the time-out for exactly the terminal it saw, and says whether there was anything to stop |
| `ProcessRunner.Runner.StopTimedOut` | bridge/src/claude-runner.ts:191-201 | the time-out detaches only the terminal it was armed for, and only while that is still attached for that launch |
| `ProcessRunner.Runner.StopOrDetach` | bridge/src/claude-runner.ts:206-217 | stopping everything detaches from tmux sessions and stops direct ones |
| `ProcessRunner.Runner.OnExit` | bridge/src/claude-runner.ts:344-450 | an exit counts only for the attached or forcibly stopped terminal of the current launch, and then ends, reattaches or stays silent as the launch's marks say; what it reports is `ProcessReports.EveryEndIsReported` |
| `ProcessReports.EveryEndIsReported` | bridge/src/claude-runner.ts:265-450 | in every run, the exit of an unmarked launch's own attached terminal is reported: of a direct process as complete exactly without a code or with code 0, of a tmux client whose session is gone exactly with code 0, as an error otherwise; and so is every creation, spawn or reattachment that fails, as an error |
| `ProcessReports.EveryReportIsCalledFor` | bridge/src/claude-runner.ts:265-450 | and every report of every run belongs to such an event, with that outcome |
| `ProcessReports.DirectLaunchIsReported` | bridge/src/claude-runner.ts:394-450 | whatever ran before, a direct launch ends in one report, complete exactly without a code or with code 0 |
| `ProcessReports.TmuxLaunchIsReported` | bridge/src/claude-runner.ts:265-388 | whatever ran before, a launch in tmux ends in one report once its session is gone, complete exactly with code 0 |
| `ProcessReports.LostClientIsAttachedAgain` | bridge/src/claude-runner.ts:367-371 | a client that exits while its tmux session is there is replaced, and nothing is reported |
| `ProcessReports.StoppedIsSilent` | bridge/src/claude-runner.ts:165-217 | after a stop, or after leaving the bridge, the launch that was attached reports nothing in the rest of any run |
| `ProcessReports.ForcedStopEnds` | bridge/src/claude-runner.ts:189-201 | a stop that is not heeded detaches the terminal when its time is up, and the late exit ends the launch without a report |
| `OutboundPipeline.SentInOrder` | bridge/src/outbound-pipeline.ts:147-215 | for any events, what was sent is a prefix of the packets that the taken jobs turned out to have, in the order in which they were taken, all of them once nothing is queued; both windows hold throughout, and idle waiters wait only while something is queued or in flight |
| `OutboundPipeline.RunOfEvents` | bridge/src/outbound-pipeline.ts:147-199 | the accepted jobs are those offered while fewer than 100 were queued, and what was prepared is, job by job, what the preparations under way turned out to be |
| `OutboundPipeline.Drains` | bridge/src/outbound-pipeline.ts:92-180 | from every reachable state, whatever the preparations turn out to be, settled preparations and replies alone get everything prepared, sent and settled and every idle promise resolved |
| `OutboundPipeline.StepKeepsInv` | bridge/src/outbound-pipeline.ts:92-214 | every event keeps the windows, the first-in-first-out order, the cap on the queue, and that a sleeping sender has no room |
| `OutboundPipeline.Run` | bridge/src/outbound-pipeline.ts:147-215 | the object does, for any sequence of events, exactly what the functions on values say |
| `OutboundPipeline.Pipeline.Enqueue` | bridge/src/outbound-pipeline.ts:182-199 | a job is accepted exactly while fewer than 100 are queued, joins the end of the accepted jobs, and starts the sender if it slept |
| `OutboundPipeline.Pipeline.Prepared` | bridge/src/outbound-pipeline.ts:147-161 | a prepared job, or a failed one with no packets, goes out as far as it fits |
| `OutboundPipeline.Pipeline.SendPacket` | bridge/src/outbound-pipeline.ts:117-137 | a packet is sent only into room and is counted until it settles: at most 64 packets, and at most 2 MiB unless it is alone |
| `OutboundPipeline.Pipeline.SendFitting` | bridge/src/outbound-pipeline.ts:156-160 | the longest run of packets that fits goes out, in order |
| `OutboundPipeline.Pipeline.SendRest` | bridge/src/outbound-pipeline.ts:156-180 | packets go out in order while they fit; the sender then waits, or takes the next job exactly if none is left |
| `OutboundPipeline.Pipeline.Resume` | bridge/src/outbound-pipeline.ts:109-115 | a woken sender looks again, and sends what fits now |
| `OutboundPipeline.Pipeline.Settle` | bridge/src/outbound-pipeline.ts:121-126 | a settled packet gives back its room, wakes a waiting sender, and resolves idle waiters when nothing is left |
| `OutboundPipeline.Pipeline.Idle` | bridge/src/outbound-pipeline.ts:209-214 | an idle promise is resolved at once exactly if nothing is queued or in flight, and waits last in line otherwise |
| `OutboundPipeline.Pipeline.NotifyIdle` | bridge/src/outbound-pipeline.ts:92-97 | idle waiters resolve exactly when both counts are zero, all of them, once |
| `OutboundPipeline.WaitingHasPacketInFlight` | bridge/src/outbound-pipeline.ts:105-115 | a sender that waits unwoken has a packet in flight whose reply will wake it |
| `OutboundPipeline.WithinBounds` | bridge/src/outbound-pipeline.ts:105-115 | in every run at most 100 jobs are queued, at most 64 packets are in flight, and of two or more at most two mebibytes |
| `OutboundPipeline.SleepsOnlyWithoutRoom` | bridge/src/outbound-pipeline.ts:105-115 | the sender sleeps only while its next packet would break one of these bounds |
| `OutboundPipeline.IdlePromisesAreKept` | bridge/src/outbound-pipeline.ts:92-97 | in every run the idle promises asked for while something was under way are resolved or waiting, each once, in order, and none waits when nothing is under way |
| `LocalEvents.EventBuffer.Record` | bridge/src/local-api-server.ts:202-210 | the buffer stays a contiguous end of all publications with its bytes counted right, and drops no more than the limits ask for |
| `LocalEvents.EventBuffer.Read` | bridge/src/local-api-server.ts:222-244 | a page is the publications from where it starts to its cursor that can be sent at all, within the byte limit; it says reset exactly if the cursor could not be continued or something too large was skipped, and it moves on when there is anything newer |
| `LocalEvents.FillPage` | bridge/src/local-api-server.ts:234-242 | the loop takes the longest run that fits |
| `LocalEvents.FollowerMissesNothing` | bridge/src/local-api-server.ts:202-244 | over any publications and polls, a follower that starts at any cursor has, until a page says reset, exactly what was published from its start to its cursor |
| `LocalEvents.PollsMoveOn` | bridge/src/local-api-server.ts:222-244 | each poll with something left to read takes such a follower further, or tells it to start over |
| `LocalEvents.ResetHasReason` | bridge/src/local-api-server.ts:222-244 | a follower is told to start over only when a poll found that what it should read next is gone or was never published, or that something larger than a page came |
| `LocalEvents.Follow` | bridge/src/local-api-server.ts:222-244 | a follower on the buffer itself gets, for any script of publications and polls, exactly the pages the functions on all publications say |
| `LocalEvents.KeptIs` | bridge/src/local-api-server.ts:205-208 | what the buffer keeps is determined by everything published: the longest end within both limits |
| `LocalEvents.CatchUp` | bridge/src/local-api-server.ts:222-244 | polling reaches the end from any cursor, with everything in between or a reset exactly if something was missing or too large |
| `LocalEvents.SendableIsAll` | bridge/src/local-api-server.ts:239 | without an event that is too large, a page leaves nothing out |
| `BoundedRegex.FourWorkersAtMost` | bridge/src/bounded-regex.ts:8-45 | however searches, answers, crashes and time-outs interleave, at most four workers live and at most sixteen searches wait |
| `BoundedRegex.SlotsAreHandedOn` | bridge/src/bounded-regex.ts:28-45 | slots go to waiting searches in the order in which they queued; whoever waits, waits for four holders; without holders all slots are free |
| `BoundedRegex.ResolvesWithFirstDecision` | bridge/src/bounded-regex.ts:58-119 | a search, running or over, resolves at most once, with the first decision about it, exactly when its worker has exited or never started, and when it is over its caller got that |
| `BoundedRegex.ResultStays` | bridge/src/bounded-regex.ts:103-119 | what a caller got is the same after anything that follows |
| `BoundedRegex.StepKeepsInv` | bridge/src/bounded-regex.ts:103-119 | the counter is the number of searches that hold a slot, after every step |
| `BoundedRegex.FirstHeardIsReturned` | bridge/src/bounded-regex.ts:58-101 | whatever else runs, a granted search returns what is heard first: the lines of an answer, or nothing for an error, a time-out or an early exit |
| `BoundedRegex.NoWorkerNoResult` | bridge/src/bounded-regex.ts:81-87 | a worker that cannot be started leaves its search without a result |
| `BoundedRegex.AskedIs` | bridge/src/bounded-regex.ts:28-36 | in every run a new search is granted, queued or refused as the slots held and the places taken say |
| `BoundedRegex.LongestWaitingIsWoken` | bridge/src/bounded-regex.ts:39-43 | in every run a search that ends wakes the one that has waited longest |
| `BoundedRegex.Pool.AcquireSlot` | bridge/src/bounded-regex.ts:28-36 | a search gets a slot exactly while fewer than four are held, is refused exactly if sixteen wait then, and joins the end of the queue otherwise |
| `BoundedRegex.Pool.ReleaseSlot` | bridge/src/bounded-regex.ts:39-43 | the slot of a finished search goes to the one that waited longest, or the counter goes down if nobody waits |
| `BoundedRegex.Runner.DecideOn` | bridge/src/bounded-regex.ts:67-74 | only the first decision counts, and it resolves only if the worker is gone |
| `BoundedRegex.Runner.Exited` | bridge/src/bounded-regex.ts:75-79 | the exit resolves with what was decided, or decides that there is no result |
| `PullRequestStatus.Service.Begin` | bridge/src/pull-request-status.ts:150-176 | every URL is looked up and the cache made small again; gh is asked exactly if nobody is asking, the cooldown and a minute since the last launch are over and something requested in the foreground or pinned is due; then about at most 20 different due entries, all if they fit, with the least recently attempted of all and of each kind and otherwise the longest waiting, each with a new attempt number; without a launch nothing else changes; in short, gh is asked exactly if something pinned, or requested in the foreground, is due and allowed, only about such entries, and each counts as attempted now |
| `PullRequestStatus.DuesFit` | bridge/src/pull-request-status.ts:162-165 | what is due of a list of keys is exactly its due entries, each once |
| `PullRequestStatus.RequestedFits` | bridge/src/pull-request-status.ts:144-148 | the keys of a request are exactly those of its URLs that are pull requests, each once |
| `PullRequestStatus.SortedIsOldestFirst` | bridge/src/pull-request-status.ts:163-169 | no entry is chosen before one of its list that waits longer, but for the head of the other kind |
| `PullRequestStatus.Service.Finish` | bridge/src/pull-request-status.ts:185-231 | for every entry that was asked about and stays in the cache: it is failed, passed, in progress, merged, closed or without checks exactly if the reply found it so, with exactly that head commit, checked at the launch; without a usable finding state, head and time of the check are as before, with the reason of this reply; the next attempt is when the state, the failure or the cooldown says. Every other entry is as it was. The cooldown never shrinks and reaches exactly what the reply asks for |
| `PullRequestStatus.RefreshedIsLearnt` | bridge/src/pull-request-status.ts:185-231 | the same for the cache on values |
| `PullRequestStatus.DueAgain` | bridge/src/pull-request-status.ts:39-44 | an entry found at some time is due again exactly after an hour if closed, five minutes if failed or passed, a minute if in progress or without checks, and never if merged |
| `PullRequestStatus.TouchedFits` | bridge/src/pull-request-status.ts:112-123 | looking up a request touches exactly its entries: only their use numbers change, they are the most recently used, and new ones are empty and due |
| `PullRequestStatus.Service.Propose` | bridge/src/pull-request-status.ts:180-182 | the proposed next refresh is the first time, at least a minute off, at which a launch is allowed and an entry of the request is due, or an hour off if none ever will be |
| `PullRequestStatus.SoonestFits` | bridge/src/pull-request-status.ts:180-181 | an entry of the request is due from exactly the smallest of their times on |
| `PullRequestStatus.Service.Evict` | bridge/src/pull-request-status.ts:124-130 | afterwards at most 500 entries; only unpinned ones that are not asked about went, least recently used first |
| `PullRequestStatus.Service.SetBackground` | bridge/src/pull-request-status.ts:132-139 | exactly the first 20 different entries are pinned and in the cache afterwards, every URL up to the last of them was looked up, and only what eviction takes is gone |
| `PullRequestStatus.Service.Allowed` | bridge/src/pull-request-status.ts:160-161 | the time computed from the remembered launches allows a launch exactly if the whole history does |
| `PullRequestStatus.SixtyAnHour` | bridge/src/pull-request-status.ts:161 | of launches a minute apart, as all the launches of the service are, at most 60 fall into any rolling hour |
| `PullRequestStatus.QuotaIsSpacing` | bridge/src/pull-request-status.ts:160-161 | forgetting launches older than an hour does not weaken the gate: the sixty-in-an-hour clause never forbids what the one-minute clause allows |
| `PullRequestStatus.Select` | bridge/src/pull-request-status.ts:166-169 | the batch has no repeats and at most 20 entries, all due ones if they fit, and always the least recently attempted of all and one of each kind that is due |
| `PullRequestStatus.FirstOfFits` | bridge/src/pull-request-status.ts:132-139 | what is pinned has no repeats, is at most 20 entries of the list, and is all of it if fewer |
| `PullRequestStatus.PinnedAreFew` | bridge/src/pull-request-status.ts:126 | pinned and asked-about entries are too few to fill the cache, so eviction always reaches its limit |
| `PullRequestEvents.SelectIsStretch` | bridge/src/pull-request-events.ts:119-123 | a group is the next stretch of at most 20 links in cyclic order after the cursor |
| `PullRequestEvents.NextStart` | bridge/src/pull-request-events.ts:161-163 | the next group begins right behind this one |
| `PullRequestEvents.Watcher.ScanOnce` | bridge/src/pull-request-events.ts:116-163 | a scan keeps a group that is under way while all its links are there, else takes twenty links or all there are; when all of it was looked at, the cursor is its last link and the group is done, otherwise it is kept |
| `PullRequestEvents.Watcher.FindStart` | bridge/src/pull-request-events.ts:120-121 | the search finds the first key behind the cursor, or starts over |
| `PullRequestEvents.Watcher.Rounds` | bridge/src/pull-request-events.ts:75-166 | any scans, finished or not, over links that come and go, leave group, cursor and finished groups as the functions on values say |
| `PullRequestEvents.RoundAndRound` | bridge/src/pull-request-events.ts:116-163 | over links that stay the same, with any scans unfinished, the finished groups are the links in cyclic order, each as many as a group holds; once as many were finished as there are links, every link was |
| `PullRequestEvents.OneTurnEach` | bridge/src/pull-request-events.ts:116-163 | whatever links come and go and whatever scans stay unfinished: until a link that is always there has its turn, no other link has two, all that had theirs lie before it in the round, and each finished scan took twenty |
| `PullRequestEvents.TurnComes` | bridge/src/pull-request-events.ts:116-163 | so with n links ever seen, a link that is always there is in a finished group before n / 20 scans were finished without it |
| `PullRequestEvents.NeverSkips` | bridge/src/pull-request-events.ts:116-163 | a link that is not in the group lies behind every link in it, going up from the cursor and round, and then the group is full |
| `PreviewChat.ReaderMissesNothing` | bridge/src/preview-chat.ts:61-103 | a reader that follows the cursors while turns are added and marked has every turn up to its cursor once and in order; no two turns share an id, whatever its case |
| `PreviewChat.ReadsMoveOn` | bridge/src/preview-chat.ts:87-103 | whatever sizes pages have, a read with something left takes the reader further or finds a next turn that is larger than a page by itself |
| `PreviewChat.NeverStuck` | bridge/src/preview-chat.ts:13-18 | with the limit on texts and the sizes of JSON, that does not happen: no read fails |
| `PreviewChat.EveryReadMovesOn` | bridge/src/preview-chat.ts:87-103 | so every read with something left takes the reader further |
| `PreviewChat.CatchesUp` | bridge/src/preview-chat.ts:87-103 | as many reads as there are turns left bring the reader to the end, with all of them |
| `PreviewChat.Follow` | bridge/src/preview-chat.ts:61-103 | a reader on the store itself gets, for any events, exactly the pages and turns the functions on values say |
| `PreviewChat.PageFits` | bridge/src/preview-chat.ts:87-103 | a page is the turns from the offset to its cursor within both bounds, stops short only for one of them, and fails exactly for an offset beyond the end or a first turn that does not fit |
| `PreviewChat.Store.List` | bridge/src/preview-chat.ts:92-103 | the loop returns that page |
| `PreviewChat.Store.ReserveTurn` | bridge/src/preview-chat.ts:67-79 | a known id returns its turn if role and text agree and conflicts otherwise; a new one is appended with the next number, its text and role, unconfirmed for the user and recorded for the agent; a refusal changes nothing |
| `PreviewChat.Store.MarkTurnQueued` | bridge/src/preview-chat.ts:80-86 | on success the user's turn of this id is queued and every other turn as before; a failure changes nothing |
| `PreviewChat.ReserveKeepsLedger` | bridge/src/preview-chat.ts:67-79 | a reservation only appends, and numbers stay positions and ids unique |
| `PreviewChat.NeverHandedOverTwice` | bridge/src/session-controller.ts:143-178 | however often a message is sent again, whatever fails and whenever the bridge crashes, its id is handed to the agent at most once, never without its turn, and a turn says queued only after that |
| `PreviewChat.MessageIsSent` | bridge/src/session-controller.ts:160-175 | a new message to a running session is reserved as an unconfirmed turn, handed over once, and then queued |
| `PreviewChat.FailedIsUnconfirmed` | bridge/src/session-controller.ts:163-175 | if the hand-over fails the turn stays, unconfirmed; a session that cannot take the message leaves no turn, with the reason in the order of the checks |
| `PreviewChat.AgainIsAnswered` | bridge/src/session-controller.ts:162-164 | a message sent again is answered with its turn and not handed over |
| `PreviewChat.ReplyIsAdded` | bridge/src/session-controller.ts:176-178 | an agent's reply is a recorded turn at the end |
| `Sessions.Controller.UpdateMetadata` | bridge/src/session-controller.ts:275-347 | an update is made exactly if it is allowed and then leaves the session with the name, the parent and the address that were given, and all else as before; one that is refused changes nothing; flat trees stay flat |
| `Sessions.UpdateCarriesOut` | bridge/src/session-controller.ts:275-343 | an update is allowed exactly if the session is there, name and address are proper, and the session it moves under is another one of its bridge, not below it, while it has no children |
| `Sessions.StartedIs` | bridge/src/create-ftown-session.ts:57-67 | a session started under an unused id is there with its name, at the top or below the top of its starter's tree |
| `Sessions.TreesStayFlat` | bridge/src/session-controller.ts:295-330 | for sessions started, updated one at a time and removed, no session is nested deeper than one level or is its own ancestor |
| `Sessions.SavingKeepsOneLevel` | bridge/src/session-controller.ts:338-345 | a save keeps the trees flat exactly if it sets no parent, or another one without a parent while nobody has the session as parent |
| `Sessions.UpdateKeepsOneLevel` | bridge/src/session-controller.ts:304-330 | the checks of an update establish that condition |
| `Sessions.JoinsTheTree` | bridge/src/session-controller.ts:316 | a moved session ends up in the tree of the session it was moved under, and no other session changes |
| `Sessions.LinkFollowsAddress` | bridge/src/session-controller.ts:339-343 | a link keeps its id exactly while the address stays the same but for case |
| `Sessions.CrossingMovesNest` | bridge/src/session-controller.ts:261-273 | two sessions whose moves under each other both pass the checks and together break the trees |
| `Sessions.StepKeepsOneLevel` | bridge/src/create-ftown-session.ts:57-67 | a new session's parent is the top of the tree it is started from, so starting keeps trees flat too |
| `GeneratedNames.NextAvailableGeneratedName` | bridge/src/create-ftown-session.ts:156-164 | the name is free and is the base or its first free number; the search ends within as many numbers as there are names |
| `GeneratedNames.CandidatesCount` | bridge/src/create-ftown-session.ts:160-161 | the numbered names of one base are all different |
| `HarnessCommands.ArgumentsAreRead` | bridge/src/harness-registry.ts:13-16 | for any arguments without NUL, splitting the joined parts by the POSIX quoting rules gives back exactly the arguments |
| `HarnessCommands.CommandIsRead` | bridge/src/harness-registry.ts:13-16 | the shell reads the intended arguments, or refuses the command exactly if one of them holds a NUL |
| `HarnessCommands.EscapedIsRead` | bridge/src/harness-registry.ts:15 | a quoted value reads as itself wherever it stands, and the reader is back outside the quotes behind it |
| `HarnessCommands.BuildCommand` | bridge/src/harness-registry.ts:284-401 | for every harness and any options, the login shell starts it with exactly its argument list |
| `HarnessCommands.BuildCursor` | bridge/src/harness-registry.ts:65-90 | the shell reads workspace, model, resume id and prompt back as given, trimmed but for the prompt |
| `HarnessCommands.BuildCodex` | bridge/src/harness-registry.ts:92-121 | a resume carries only the id, a fresh start the model and the prompt |
| `HarnessCommands.BuildGrok` | bridge/src/harness-registry.ts:123-140 | the shell reads the model and the prompt back as given |
| `HarnessCommands.BuildOpencode` | bridge/src/harness-registry.ts:142-170 | a resume carries only the id, a fresh start the model and the prompt under its flag |
| `HarnessCommands.BuildPi` | bridge/src/harness-registry.ts:172-202 | the extension path expands under the home directory as one word, whatever that directory is called |
| `HarnessCommands.BuildKimiCode` | bridge/src/harness-registry.ts:204-221 | the program path expands under the home directory as one word |
| `HarnessCommands.BuildMuse` | bridge/src/harness-registry.ts:223-254 | the workspace comes before a resume, which carries neither model nor prompt |
| `HarnessCommands.BuildClaude` | bridge/src/harness-registry.ts:257-269 | plugin directory, model, and either the resume id or the prompt |
| `HarnessCommands.FreshSession` | bridge/src/harness-registry.ts:65-269 | the exact words every harness gets for a fresh session with a directory, a model and a prompt |
| `HarnessCommands.ResumedSession` | bridge/src/harness-registry.ts:65-269 | the exact words for a session that goes on: which of them pass the model, the directory and the prompt again |
| `HarnessCommands.EndsGo` | bridge/src/harness-registry.ts:65-269 | values are passed without the white space at their ends, and with all of it within |
| `HarnessCommands.FirstTextArrives` | bridge/src/create-ftown-session.ts:525-541 | a new session's first text arrives exactly once, as last argument or typed, exactly unless it is Pi on a stored session id |
| `HookInstaller.ExactlyOneInstalled` | bridge/src/hook-installer.ts:88-125 | for any list, afterwards there is exactly one version of the hook, under the target matcher, with its command, timeout and no background flag |
| `HookInstaller.YoursStay` | bridge/src/hook-installer.ts:88-125 | the user's own hooks stay under their matchers in their order, and so does whatever is not a group |
| `HookInstaller.KeptIfSettled` | bridge/src/hook-installer.ts:112-125 | the list is left alone, and counted as kept, exactly if the hook was installed |
| `HookInstaller.SecondRunChangesNothing` | bridge/src/hook-installer.ts:88-125 | a second run keeps what the first one made |
| `HookInstaller.FirstIsSettled` | bridge/src/hook-installer.ts:70-86 | without a matcher, the first version ends up as it should be, and the list is left alone exactly if it already was |
| `HookInstaller.SecondRunKeepsAny` | bridge/src/hook-installer.ts:70-86 | a second run without a matcher keeps what the first one made |
| `HookInstaller.YoursStayAny` | bridge/src/hook-installer.ts:70-86 | that touches no hook of the user either |
| `HookInstaller.StaysSettledIn` | bridge/src/hook-installer.ts:197-209 | installing the question hook into a list does not disturb the notification hook that is in it |
| `HookInstaller.InstallationIsComplete` | bridge/src/hook-installer.ts:164-209 | after an installation every event has every hook it needs |
| `HookInstaller.CompleteIsLeftAlone` | bridge/src/hook-installer.ts:164-209 | an installation changes an event's list exactly if a hook was missing or wrong |
| `HookInstaller.InstallingTwice` | bridge/src/hook-installer.ts:164-209 | installing twice is installing once, although three hooks share lists |
| `HookInstaller.InstallationKeepsYours` | bridge/src/hook-installer.ts:164-209 | the user's hooks survive a whole installation, under their matchers and in their order, also if our hooks are taken for each other |
| `HookInstaller.Settings.UpsertAnywhere` | bridge/src/hook-installer.ts:61-86 | the loops change one event's list as the model says, and count it once |
| `HookInstaller.Settings.UpsertUnder` | bridge/src/hook-installer.ts:88-125 | the reverse loops that splice in place do what the model says to one event's list, and count it once |
| `HookInstaller.Settings.SpliceHooks` | bridge/src/hook-installer.ts:98-110 | the inner reverse loop leaves what the model leaves of one group's hooks |
| `HookInstaller.Settings.Install` | bridge/src/hook-installer.ts:164-209 | all events end up as the model says, and events without a hook of ours are untouched |
| `HookOutcomes.VersionThatStays` | bridge/src/hook-installer.ts:88-125 | of all versions of a hook the last one under the target matcher stays, repaired, or else the new hook is there |
| `HookOutcomes.CountedAs` | bridge/src/hook-installer.ts:115-125 | it is counted as kept if it was installed, as added if no version was anywhere, as repaired otherwise |
| `HookOutcomes.NoEmptyGroupLeft` | bridge/src/hook-installer.ts:112 | no group is left empty by taking hooks out |
| `HookOutcomes.GoesIntoFirstGroup` | bridge/src/hook-installer.ts:115-118 | a hook without an earlier version goes into the first group with its matcher, where a group without one has the empty one |
| `HookOutcomes.NotifierIs` | bridge/src/hook-installer.ts:167-178 | an earlier notification hook gets the new command and keeps the rest; else one that runs in the background is added in a group of its own |
| `HookOutcomes.PumpIs` | bridge/src/hook-installer.ts:180-194 | an earlier mail pump gets command, 30 seconds and no background flag and keeps the rest; else one is added |
| `HookOutcomes.AskIs` | bridge/src/hook-installer.ts:196-209 | afterwards there is one question hook, under its matcher, with its command, an hour and no background flag, and what else an earlier version there had |
| `HookOutcomes.HooksSay` | bridge/src/hook-installer.ts:164-209 | after an installation each of the seven events has its hooks with the right command, time and flag; other events are untouched |
| `HookOutcomes.FreshInstallation` | bridge/src/hook-installer.ts:164-209 | the exact lists an installation into nothing makes |
| `HookCommands.RecognisedInFittingHomes` | bridge/src/hook-installer.ts:12-27 | the three commands are told apart by their words exactly in homes without the words of two of them |
| `HookCommands.PumpOverwritesNotifier` | bridge/src/hook-installer.ts:164-195 | in a home with `ftown-harness` and `hook-pump` in its path, an installation into an empty list leaves only the pump |
| `HookCommands.AskRemovesNotifier` | bridge/src/hook-installer.ts:164-209 | in a home with `ftown-harness` and `ask-hook` in its path, the notifier is gone after every installation |
| `HookCommands.CompleteInFittingHomes` | bridge/src/hook-installer.ts:12-209 | installations into all lists of all events are complete exactly in the other homes |
| `HookCommands.NotifierWords` | bridge/src/install-notify-script.ts:5-15 | the notifier is recognised in every home, and taken for another hook exactly if the home has that one's words |
| `HookCommands.NotifiersAreOurs` | bridge/src/install-notify-script.ts:5-15 | the user's own notify.sh is not taken for the notifier; one in ftown's directories or in any directory for hooks is |
| `HookCommands.YoursStayInEveryHome` | bridge/src/hook-installer.ts:12-209 | the user's own hooks survive every installation in every home |

## Left out

- Encryption, pairing, accounts and updates: they rest on files that are not part of this model.
- Routing, command lines, parsing of JSON text and of GitHub's replies, child processes, terminals, tmux and the network: calls to them are steps with any outcome.
- `ProductionDependencies.ProductionDependencies`: takes a bound on the queue and may return `OutOfFuel`, because nothing bounds the nested placements of contrived layouts that shadow each other; `OutOfFuel` then stands for a queue longer than the bound, and a larger bound changes no other outcome. Symbolic links, the copying and the final sort are not modelled.
- `AttentionIdle.AtMostOneNotice`: cycles written by older versions with the ten-minute delay are told once more by design and are not covered.
- `AttentionIdle`, `AttentionWait`, `MailDelivery` and the sending in `PreviewChat` are state machines on values, not classes: their point is the interleaving, and the maps of timers, waiters and claims of one session are fields of the state.
- `MailDelivery.ClaimIsRespected`: retry timers, leases, nudges and Muse are not modelled, nor what a drain returns beyond what it marks.
- `AttentionStore.Store.Observe`: classification of hooks and sanitising of their texts happen before; the activity field is part of `AttentionIdle`.
- `AttentionPrompt.PromptsReadBack`: lower case is any function of the label; error messages are reduced to their kind, without the path.
- `HookInstaller.ExactlyOneInstalled`: a repaired hook keeps its `type` and other fields, as in the code; user groups with no hooks in them are not part of what is shown to stay.
- `HookInstaller.InstallingTwice`: the notification command must be recognised as one and as neither of the other two, and they not as it; for the paths the setup uses, `HookCommands.RecognisedInFittingHomes` says in which homes that is so.
- `HookCommands.CompleteInFittingHomes`: a home directory is its path as `join` normalises it, without a slash at the end.
- `HarnessCommands.BuildCommand`: the quoting for Windows and commands given by the user are not modelled; words the shell would do more with than split them are refused by the reader.
- `ProcessRunner.Runner.Start`: the first input, environments and sizes passed to a terminal are not modelled; the listeners are the list of reports.
- `OutboundPipeline.Run`: the windows of suppressed log messages are not modelled.
- `PullRequestStatus.Service.Finish`: which finding a reply amounts to is given with it; the parsing of GitHub's answers is not modelled.
- `PullRequestEvents.Watcher.Rounds`: sessions, commits and retries of wakes are left out of a scan; observing a group is one answer.
- `PreviewChat.Store.List`: damaged conversation files are not modelled.
- `PreviewChat.NeverStuck`: the size of a page with one turn is bounded by a hypothesis, two bytes for each byte of its text and 1024 for the rest; JSON text itself is not modelled.
- `Sessions.TreesStayFlat`: updates are applied one at a time; what concurrent ones can do is `Sessions.CrossingMovesNest`.
- `SetupLock.AtMostOneHolder`: looking at the lock and listing it is one step.
- Provider tokens, briefings, usage, previews and relaunch rules.
