# Verification of the agent library's three stateful engines

This Dafny project models the three state machines an agent run rests on and
proves what they promise over whole runs.

1. **Branching conversation history and cut tokens.** An append-only raw log is
   held as a shared base prefix plus a local list; on top sit a materialised
   lineage, a head, a message-id set copied on write, and parent-pointer nodes.
   `HistoryViews` is the value a history shows and what operations do to it;
   `HistoryStore` is the heap structure with real sharing, each method proved
   equal to the value operation; `HistoryRestore` is the two-loop node rebuild;
   `HistoryFamily` interleaves members that share storage. `Boundaries`,
   `Conversations`, `ConversationStore` and `ConversationRuns` add versioned
   tokens, the pending turn and the version counter; `ConversationFamily` drives
   live conversations and their forks together; `ConversationLaws` says what each
   operation does in terms of turns, cuts and messages. `Projections` is the overlay of raw
   and compacted spans, its checks, what a commit makes of it and what is rendered
   from it; `Compactions` rebuilds it from a plan. `ParentGraph`, `Snapshots` and
   `RestoreRuns` are persistence.
2. **The effect driver.** `Effects`, `Routing` and `Batch` are the handler
   dispatch, pop routing and concurrent batches; `Budget` and `Trace` the shared
   ledger and trace. `DriveLog` is the log of a drive with three readings that make
   it lawful (settlements, cancellation, charges); `DriveAgenda`, `DriveStops` and
   `DriveFeed` are three more: what is asked for and which batches may start, when
   the budget stops the machine, and which answers are fed back. `DriveState` is the
   live drive and the invariant that ties it to its log, `DriveSteps` what one event
   does to the readings, `Drive` the loop itself over an arbitrary machine, arbitrary
   handlers, arbitrary completion orders and arbitrary other holders of the context,
   and `DrivePromises` what follows for every drive.
3. **Queued reconfiguration.** `ToolSets` is the in-place tool patch, `Reconfig`
   the planner's fold, `ReconfigLaws` what a queue may hold and leaves, setting by
   setting, `AgentStates` the live state and its cursor,
   `ReconfigRuns` whole runs of submit, park, resume, apply, abandon, fail, stop
   and restart, and `AgentRecords` the record that leaves defaults out.

The machine of a drive is a pair of step functions and a terminal test; the
clock, the scheduler and the handlers are arbitrary values drawn inside the
methods, so a proved `ensures` holds for every outcome of them. The loop of a
drive carries a bound on its turns; every clause holds when the bound is hit too,
so it holds of every finite run.

## Where code and documentation disagree

The model follows the code. Each case has a concrete counterexample and the exact
condition under which the promise holds.

- *Restore undoes snapshot.* It is refused when the raw log has more than one
  root, which reverting to the zero-turn cut and committing produces, and for a
  fork that reverted below its fork point and committed
  (src/conversation/persistence/snapshot.rs:391-406, 580-601). See
  `Snapshots.RestoreUndoesSnapshotExactlyWhen`, `RestoreRuns.RunsThatStayRestorable`.
- *A subagent's child pops outward from the scope that emitted it*
  (src/agent/drive.rs:178-198). In the code it pops outward from the scope that
  handles it (src/agent/drive.rs:785-829). See `Routing.DocumentedOuterLayerHoldsExactlyWhen`.
- *A budget stop ends the drive.* Inside a batch it settles the rest of that batch
  but keeps what earlier resumes asked for, and the loop goes on with that
  (src/agent/drive.rs:538-576). See `DriveAgenda.AnotherBatchFollowsAStopExactlyWhen`
  and `DriveExample.StopAndGoOn`.
- *An accepted queue can be applied.* Replacing the active skills directly does
  not plan the queue again (src/agent/state.rs:181-188); one queued activation can
  then block every later boundary. See `ReconfigRuns.QueueStaysPlannableExactlyWhen`
  and `ReconfigRuns.BrokenQueueBlocksEverything`.

## Model

| member | source | states |
|---|---|---|
| HistoryViews.AppendKeepsWellFormed | src/conversation/history.rs:102-128 | a commit on the tip keeps every view of the tree in agreement: head, lineage and backing in range, one parent chain, unique and grounded raw log, lineage retained, id set equal to a scan of the log |
| HistoryViews.ForkKeepsWellFormed | src/conversation/history.rs:135-147 | a shared prefix of any length is again such a history, with nothing above its ceiling |
| HistoryViews.RunKeepsWellFormed | src/conversation/history.rs:102-253 | every reachable history is well formed |
| HistoryViews.RunKeepsParentsFirst | src/conversation/history.rs:342-348 | in every reachable raw log each parent comes before its children |
| HistoryViews.RunOnlyExtendsRaw | src/conversation/history.rs:342-385 | no run of appends and head moves drops or reorders a retained turn: the old log is a prefix of the new one |
| HistoryViews.RestoreUndoesWriting | src/conversation/history.rs:156-211 | restoring what a history writes down shows the same turns, lineage, raw order, tip and membership answers |
| HistoryViews.SimilarRuns | src/conversation/history.rs:102-253 | two histories that show the same keep showing the same under every sequence of operations |
| HistoryViews.RestoreIsABisimulation | src/conversation/history.rs:156-211 | for every reachable history the restored one behaves alike under every later run, only the backing above a fork ceiling may differ |
| HistoryStore.History.Append | src/conversation/history.rs:102-128 | the shown value becomes the old one with the turn appended at the head; shared lineage, log and id-set objects are left untouched |
| HistoryStore.History.MoveHeadTo | src/conversation/history.rs:250-253 | only the head moves |
| HistoryStore.History.SharedPrefix | src/conversation/history.rs:135-147 | the child shares the parent's lineage object and shows the prefix; no child above the ceiling |
| HistoryStore.History.MakeMut | src/conversation/history.rs:114-119 | copy on write: a set held by another history is copied before it changes, one held by this history alone is written in place |
| HistoryStore.History.OthersUndisturbed | src/conversation/history.rs:102-147 | a change of one history leaves every other history that shares its storage showing what it showed |
| HistoryStore.History.Release | src/conversation/history.rs:29-39 | the end of a history gives up exactly its own handle on the id set |
| HistoryStore.History.OthersOutliveIt | src/conversation/history.rs:29-39 | dropping a history leaves every other one showing what it showed, and its last companion is sole owner again |
| HistoryStore.History.ContainsMessageId | src/conversation/history.rs:233-236 | the cached answer equals a scan of every retained branch |
| HistoryStore.History.RawFind | src/conversation/history.rs:214-230 | the node found in the local list or the base is the retained turn with that id, and none is found exactly when no turn has it |
| HistoryStore.History.RawTurns | src/conversation/history.rs:223-226 | base prefix then local list, oldest first |
| HistoryStore.FindLocal | src/conversation/history.rs:356-368 | the moving cursor finds the local node with the id, or none exists |
| HistoryStore.FindIn | src/conversation/history.rs:356-368 | the scan of the scoped base finds the node with the id, or none exists |
| HistoryStore.History.Clone | src/conversation/history.rs:29-39 | a clone shows the same and shares lineage, log and id set |
| HistoryFamily.Interleave | src/conversation/history.rs:102-147 | under every interleaving of operations on two members of a family each ends where its own operations alone would take it |
| HistoryFamily.AppendAfterACopyIsGone | src/conversation/history.rs:114-119 | a history whose copies are gone appends in place again: the same set object, grown |
| HistoryRestore.Climb | src/conversation/history.rs:418-438 | the climb ends and stacks exactly the unbuilt ancestors |
| HistoryRestore.BuildDown | src/conversation/history.rs:438-455 | the stack is built top down, every node on the node of its parent |
| HistoryRestore.BuildRestoredNode | src/conversation/history.rs:418-455 | afterwards exactly the old nodes and the ancestors of the turn are built, old nodes unchanged, so common ancestors are shared |
| HistoryRestore.BuildNodes | src/conversation/history.rs:156-180 | for every duplicate-free grounded set of turns in any order each id gets one node whose chain is its parent chain |
| HistoryRestore.FromRestored | src/conversation/history.rs:156-211 | the rebuilt object is valid and shows exactly the restored value |
| Boundaries.ResolvesExactlyTheIssued | src/conversation/boundary.rs:204-279 | with no open turn a token resolves to p if and only if it is the token issued at p with p within the lineage |
| Boundaries.ValidBoundariesAreExact | src/conversation/boundary.rs:115-119 | the list holds exactly the tokens that resolve, pairwise distinct, one per position |
| Boundaries.BoundaryAfterIsExact | src/conversation/boundary.rs:133-157 | the token after a lineage turn is the next element of that list, redo suffix included, never above the fork ceiling; every other turn is classified |
| Boundaries.PendingStepAcceptsOnlyTheHead | src/conversation/boundary.rs:189-201 | with an open turn only the current head token passes |
| Conversations.ValidateTurnIsTheGate | src/conversation/validation.rs:36-54 | a draft passes exactly when it is closed, extends the tip and owns fresh turn, message and call ids |
| Conversations.FirstClash | src/conversation/validation/identity.rs:55-89 | a clash is reported exactly when an id repeats or was retained |
| ConversationRuns.RunKeepsValid | src/conversation/mod.rs:217-446 | over every run an open turn's parent is the tip and its ids are fresh, the history agrees with itself, and the overlay covers the lineage exactly with an artifact behind every compacted span |
| ConversationRuns.ReadyTurnsAlwaysCommit | src/conversation/mod.rs:386-446 | so committing a ready, well-formed turn never fails on parent or identity; only the last version refuses it |
| ConversationRuns.VersionCountsMoves | src/conversation/mod.rs:195-202 | the version grows by exactly the number of commits, real head moves and compactions |
| ConversationRuns.TokensNeverComeBack | src/conversation/boundary.rs:170-220 | a token that resolved resolves again if and only if no commit, real head move or compaction happened since and no turn is open, even if its position and anchor recur |
| ConversationRuns.RevertAndRedoReissuesThePosition | src/conversation/boundary/head.rs:74-97 | reverting and redoing restores position and anchor under a token the old one does not equal |
| ConversationRuns.LastVersionRefusesMoves | src/conversation/mod.rs:419-446 | at the largest version commits, compactions and real head moves are refused and nothing changes |
| ConversationRuns.ForkKeepsValid | src/conversation/boundary/fork.rs:91-129 | a fork of a reachable conversation satisfies the same invariant and shows the prefix, with a raw overlay of its own |
| ConversationLaws.TurnsBeginExactlyWhen | src/conversation/mod.rs:217-244 | a turn opens exactly when none is open, both identities are new and the payload is good; it starts after the last turn shown with the user's message alone in it, and nothing else changes |
| ConversationLaws.MessagesAreInjectedExactlyWhen | src/conversation/mod.rs:359-378 | a message is injected exactly under the token of the current head, after a closed batch of tool results, with a new identity; it goes to the end of the open turn |
| ConversationLaws.TurnsAdvanceExactlyWhen | src/conversation/pending/turn.rs:310-342 | a transition inside the open turn passes exactly when it keeps identity and parent and every message and call in it is new and named once |
| ConversationLaws.TurnsCommitExactlyWhen | src/conversation/mod.rs:386-446 | an open turn commits exactly when it is ready and closed and the 64-bit version can rise; exactly its identity, parent, messages, calls and content end the log and the view |
| ConversationLaws.TurnsAreCancelledExactlyWhen | src/conversation/pending/cancel.rs:238-262 | a turn that is not ready is committed in its closed form exactly when that passes the gate, under the open turn's identity and parent |
| ConversationLaws.NothingSaidIsLost | src/conversation/mod.rs:217-446 | over every run in which transitions only add to the open turn, that turn and every retained one starts with the message it was begun with and has the injected ones in the order they came |
| ConversationLaws.TokensAreRefusedBecause | src/conversation/boundary.rs:204-279 | a token resolves exactly when it names this conversation, this version, a cut of the lineage and the turn before it, and no turn is open; otherwise it is told the first thing that is wrong |
| ConversationLaws.HeadsMoveExactlyWhen | src/conversation/boundary/head.rs:74-97 | the head moves exactly under such a token while the version can rise, only head and version change, and both cuts get fresh tokens |
| ConversationLaws.ForksExactlyWhen | src/conversation/boundary/fork.rs:91-129 | a fork is made exactly under such a token and another identity; it has the turns below the cut alone, an all-raw overlay, version zero and its origin |
| ConversationLaws.CompactionsSucceedExactlyWhen | src/conversation/projection/compaction.rs:211-289 | in every reachable state a plan is applied if and only if it names this conversation, this version and this head at the end of the lineage, no turn is open, it has steps, the version can rise, its own artifacts and steps pass and none of its artifact ids is taken; its covers then stand beside every old one no step touches, and nothing else changes |
| ConversationLaws.PlansNeverComeBack | src/conversation/projection/compaction.rs:227-275 | a plan that was current is refused as stale after any commit, real head move or compaction and as untimely while a turn is open; otherwise it does later what it would have done at once |
| ConversationLaws.NoPlanAtARevertedHead | src/conversation/projection/compaction.rs:256-270 | no plan is applied at a head below the end of the lineage |
| ConversationFamily.PerformIn | src/conversation/history.rs:102-147 | an action on one live member of a family leaves every other member, whatever lineage, raw prefix or id set it shares, showing what it showed |
| ConversationFamily.ForkIn | src/conversation/boundary/fork.rs:91-129 | a fork joins the family with the parent's own lineage object and changes no member |
| ConversationFamily.RunFamily | src/conversation/boundary/fork.rs:91-129 | over any events on live objects, forks among them, every member shows what the value-level world says and every original member ends where its own actions alone take it |
| ConversationStore.LiveConversation.BeginTurn | src/conversation/mod.rs:217-244 | the object opens the turn on the tip, or reports why not and is unchanged |
| ConversationStore.LiveConversation.InjectUserMessage | src/conversation/mod.rs:359-378 | a checked injection at the head, or unchanged |
| ConversationStore.LiveConversation.CommitDraft | src/conversation/mod.rs:419-446 | history, overlay and version change together or not at all |
| ConversationStore.LiveConversation.CommitPending | src/conversation/mod.rs:386-395 | commits the open turn through the same gate |
| ConversationStore.LiveConversation.AdvancePending | src/conversation/pending/turn.rs:310-342 | a checked transition inside the open turn keeps its identity and parent, or nothing changes |
| ConversationStore.LiveConversation.CommitCancelled | src/conversation/pending/cancel.rs:238-262 | commits the closed turn under the open turn's identity, or nothing changes |
| ConversationStore.LiveConversation.ApplyCompaction | src/conversation/projection/compaction.rs:211-289 | only a plan for these facts at an unreverted head with no open turn replaces the overlay and moves the version; history stays, and every refusal changes nothing |
| ConversationStore.LiveConversation.EffectiveView | src/conversation/projection/mod.rs:478-510 | every committed turn up to the head is rendered exactly once and none above it; a compacted span speaks through its artifact exactly when it ends at or below the head, and that artifact is always found |
| ConversationStore.LiveConversation.DiscardPending | src/conversation/pending/cancel.rs:205-211 | drops the open turn and nothing else |
| ConversationStore.LiveConversation.RevertTo | src/conversation/boundary/head.rs:74-97 | resolves the token, moves the head, and bumps the version on a real move only |
| ConversationStore.LiveConversation.ForkAt | src/conversation/boundary/fork.rs:91-129 | the child shows the prefix with origin and shares storage; the parent is unchanged |
| Projections.ValidateProjection | src/conversation/projection/mod.rs:862-1077 | accepts exactly the overlays whose spans tile the lineage, whose compacted spans have their artifact with that range and strategy, and whose artifacts are distinct, not empty and anchored |
| Projections.FitsExactlyWhen | src/conversation/projection/mod.rs:862-1077 | what fitting comes to: each span names its turns and begins where the one before ends, the last ends with the lineage, each cover has an artifact with its id, range and strategy, and artifacts render something, are named once and name their turns |
| Projections.RangesResolveExactlyWhen | src/conversation/projection/mod.rs:1083-1160 | a stored range resolves exactly when it is this conversation's, not empty, within the lineage, and both ends name the turn before them |
| Projections.ActiveProjectionSpans | src/conversation/projection/mod.rs:698-735 | the loop that cuts an overlay down to a prefix, as a fold |
| Projections.ActiveSpansTile | src/conversation/projection/mod.rs:698-768 | cutting an overlay of one lineage down to a prefix that two lineages share covers that prefix exactly, and leaves only covers that were there |
| Projections.ExtendAfterCommit | src/conversation/projection/mod.rs:425-462 | the overlay after a commit: active spans, one more raw turn, artifacts that still match |
| Projections.ExtendedFits | src/conversation/projection/mod.rs:425-462 | after a commit from any head the overlay fits the new lineage, so a cover the head went through is raw below it |
| Projections.CommitsKeepWhatLiesBelow | src/conversation/projection/mod.rs:425-462 | of compacted spans and of artifacts a commit keeps exactly those that end at or below the head it was made at |
| Compactions.CompactedProjection | src/conversation/projection/compaction.rs:278-289 | the checks and loops of a plan compute the planned overlay or the first error |
| Compactions.BuildReplacementSpans | src/conversation/projection/compaction.rs:462-494 | the loop over the steps, as a fold |
| Compactions.TargetsAreClean | src/conversation/projection/compaction.rs:413-459 | a target the checks allow never cuts through a compacted span |
| Compactions.TargetsFitExactlyWhen | src/conversation/projection/compaction.rs:413-459 | raw turns can be replaced exactly when none of them is hidden in a compacted span, whole spans exactly when one begins and one ends where the target does |
| Compactions.PlansFitExactlyWhen | src/conversation/projection/compaction.rs:327-410 | a plan's checks pass exactly when its artifacts are sound, its steps go left to right over targets that fit, each with its own artifact, and no artifact is left over |
| Compactions.ResolvedStepsRebuild | src/conversation/projection/compaction.rs:462-539 | once the steps resolve the rebuilt spans tile the lineage, so the alignment error of the copy cannot happen; every step's cover and every untouched old cover is there, and no other |
| Compactions.PlansSucceedExactlyWhen | src/conversation/projection/compaction.rs:278-557 | over an overlay that fits a plan succeeds if and only if its artifacts and steps pass and no artifact id of it is taken; the new overlay then fits and keeps every old artifact |
| ParentGraph.CheckParentsPresent | src/conversation/persistence/snapshot.rs:370-390 | succeeds exactly when every parent is in the set |
| ParentGraph.CheckParentChain | src/conversation/persistence/snapshot.rs:425-458 | an error means the parents cycle; otherwise the chain is marked done with ranks falling towards its root |
| ParentGraph.RootOf | src/conversation/persistence/snapshot.rs:465-493 | the memoised climb ends at the turn's own root |
| ParentGraph.CheckConnected | src/conversation/persistence/snapshot.rs:391-406 | passes exactly when there is a single root |
| ParentGraph.ValidateParentGraph | src/conversation/persistence/snapshot.rs:370-409 | accepts exactly the grounded turn sets with a single root |
| Snapshots.ValidateRawTurns | src/conversation/persistence/snapshot.rs:339-358 | accepts exactly the logs of closed turns with unique turn, message and call ids |
| Snapshots.ValidateLineage | src/conversation/persistence/snapshot.rs:496-552 | accepts exactly a duplicate-free known parent chain with head and ceiling in range |
| Snapshots.ValidateOrigin | src/conversation/persistence/snapshot.rs:555-604 | accepts exactly a foreign parent whose fork point is a cut of this lineage |
| Snapshots.Restore | src/conversation/persistence/snapshot.rs:300-336 | succeeds exactly on accepted snapshots, whose projection must fit the lineage, and then builds the conversation they describe |
| Snapshots.TakeSnapshot | src/conversation/persistence/snapshot.rs:254-262 | writes the committed facts with the overlay as it is; refused exactly while a turn is open |
| Snapshots.RestoreUndoesSnapshotExactlyWhen | src/conversation/persistence/snapshot.rs:300-409 | restore undoes snapshot if and only if the raw log has one root and the fork point is still on the lineage |
| Snapshots.SnapshotUndoesRestore | src/conversation/persistence/snapshot.rs:300-336 | what is restored from an accepted snapshot is a valid conversation whose own snapshot is that very snapshot |
| Snapshots.CommitsThatLoseTheRoot | src/conversation/persistence/snapshot.rs:391-406 | a commit adds a second root exactly when it is made at the zero-turn head of a non-empty log |
| Snapshots.CommitsThatLoseTheForkPoint | src/conversation/persistence/snapshot.rs:580-601 | a commit takes the fork point off the lineage exactly when the head is below it |
| RestoreRuns.RunsThatStayRestorable | src/conversation/persistence/snapshot.rs:300-604 | a run stays restorable if and only if it never commits at a risky head |
| RestoreRuns.NewConversationsRestoreExactlyWhen | src/conversation/persistence/snapshot.rs:300-604 | a conversation started from nothing comes back after a run if and only if the run commits safely |
| RestoreRuns.ForksCanRestore | src/conversation/persistence/snapshot.rs:555-604 | every fresh fork can be written and restored |
| RestoreRuns.RiskyTurnCannotRestore | src/conversation/persistence/snapshot.rs:391-604 | from any conversation whose head is at the zero-turn cut over a non-empty log or below its fork point, one turn begun and committed always leaves a snapshot that is refused |
| RestoreRuns.SecondRootCannotRestore | src/conversation/persistence/snapshot.rs:391-406 | a new conversation gets there by public calls: one turn, back to zero, another turn |
| RestoreRuns.ForkBelowItsPointCannotRestore | src/conversation/persistence/snapshot.rs:580-601 | and so does a fork that goes below its fork point and commits |
| Effects.AdvertisedMeansFulfilled | src/agent/effect_manifest.rs:396-431 | a scope fulfils in place exactly what it advertises, subagents excepted, so the other branch is dead |
| Effects.AcceptedResultsAreAligned | src/agent/effect_manifest.rs:291-318 | an accepted result is of the requirement's own family, and an interaction answer matches its question |
| Effects.AcceptedExactlyWhen | src/agent/interaction.rs:182-230 | a result is accepted exactly when it is of the requirement's family and, for an interaction, approves this call at this step, answers the question, picks an offered choice or permits this action |
| Routing.RoutesToTheLeastScope | src/agent/drive.rs:785-829 | over a chain of any length the innermost handling scope answers, its distance is the hop count, and a requirement is unhandled exactly when no scope handles it |
| Routing.AsksTheInnermostHandler | src/agent/drive.rs:785-829 | the innermost scope with a handler is asked this requirement; what it says is the result at its distance if it is accepted and a misalignment otherwise; without a handler the requirement is unhandled |
| Routing.EveryFamilyAsksItsOwnHandler | src/agent/effect_manifest.rs:396-431 | family by family: the model, tool, interaction, registry and session handlers get the requirement's own question, and the subagent handler also the layers from its own outward |
| Routing.AlignedChainsFailOnlyUnhandled | src/agent/drive.rs:785-829 | with handlers that answer in their own family resolution fails exactly when nobody handles |
| Routing.ChildLookupRunsOverTheHandlingChain | src/agent/drive.rs:403-412 | a child's lookup, grandchildren it opens included, is the ordinary one over its scope followed by the handling scope and its parents |
| Routing.DocumentedOuterLayerHoldsExactlyWhen | src/agent/drive.rs:178-206 | what a child's pop returns is what the documented layers return, seen from the handling scope, if and only if no scope passed on the way handles the family |
| Routing.DocumentedOuterLayerCanBeSkipped | src/agent/drive.rs:178-206 | a two-layer chain where a child's tool call is answered over the documented layers and unhandled over the ones it gets |
| Batch.FulfillBatch | src/agent/drive.rs:853-901 | for every completion order: succeeds exactly when every requirement succeeds alone, and returns a permutation of those results with ids, hops and families |
| Batch.FulfillLocally | src/agent/drive.rs:865-880 | the local future gives what resolving alone gives; the advertised-but-unfulfilled branch is unreachable |
| Batch.SerialPositions | src/agent/drive.rs:859-884 | exactly the requirements that cannot join the concurrent set are left for one-at-a-time resolution |
| Batch.LocalExactlyWhen | src/agent/drive.rs:859-884 | a requirement joins the concurrent set exactly when this scope has a handler for it and it opens no subagent |
| Batch.PickingAllPermutes | src/agent/drive.rs:886-900 | collecting every position once only reorders |
| Budget.CheckedCounter | src/agent/context/budget.rs:411-433 | adds exactly when the sum neither overflows nor exceeds the limit |
| Budget.Ledger.TryCharge | src/agent/context/budget.rs:273-302 | all three counters move or none does |
| Budget.Ledger.ExhaustedDimension | src/agent/context/budget.rs:247-263 | names the first spent dimension in the order steps, tokens, cost, and none exactly while every limited dimension has headroom |
| Trace.TraceHandle.RecordRequirement | src/agent/context/trace.rs:407-429 | a taken id, then a missing parent, is refused and changes nothing; otherwise one record is appended |
| Trace.TraceHandle.RecordRequirementNode | src/agent/drive.rs:734-759 | the first free attempt id is found and the search always ends; exactly one node is appended, or none when the parent is missing |
| Trace.NodeIdsAreDistinct | src/agent/drive.rs:751-754 | attempt ids of one requirement never collide |
| Trace.NodeIdsAreNumbered | src/agent/drive.rs:734-759 | the first settlement of a requirement has its plain id, the n-th the id with its number |
| Trace.DecimalReadsBack | src/agent/drive.rs:751-754 | the number in an attempt id reads back and has no leading zero |
| DriveLog.LawfulAt | src/agent/drive.rs:456-580 | in a lawful log every event was allowed when it happened |
| DriveLog.NoBatchAfterFlip | src/agent/drive.rs:490-530 | once the token has flipped no batch and no resume loop starts, and it flips once |
| DriveLog.ResumeAfterFlipStartedBefore | src/agent/drive.rs:519-576 | a resume after the flip belongs to a resume loop already running at the flip, so a batch in flight at the flip is never resumed |
| DriveLog.StruckMeansFlippedInFlight | src/agent/drive.rs:504-536 | a log is struck exactly when the token flipped while a batch was in flight |
| DriveLog.AbandonOnlyAfterFlip | src/agent/drive.rs:621-636 | abandon steps happen only after a flip |
| DriveLog.ResumedModelResultsWereCharged | src/agent/drive.rs:656-665 | every successful model answer that is fed back had its own step and then its own tokens charged since the previous one |
| DriveAgenda.BatchStartsExactlyWhen | src/agent/drive.rs:472-504 | after a pass of the checks a batch starts if and only if something is asked for, the token is down, and that needs no model or the ledger read has headroom; it drives all that was asked for |
| DriveAgenda.BatchesAreConsidered | src/agent/drive.rs:490-504 | every batch directly follows a pass of the checks that allowed it |
| DriveAgenda.AskedIsDemanded | src/agent/drive.rs:536-576 | what is asked for after a resume loop is what its resumes emitted, in order |
| DriveAgenda.NothingResumedAfterAStop | src/agent/drive.rs:538-558 | after a budget stop nothing is resumed until another loop opens |
| DriveAgenda.AnotherBatchFollowsAStopExactlyWhen | src/agent/drive.rs:472-576 | after a budget stop inside a loop the next pass starts a batch if and only if some result resumed before the stop asked for something, the token is down, and that needs no model or the ledger has headroom; it drives exactly what was asked |
| DriveStops.EveryStopHasItsCause | src/agent/drive.rs:668-683 | in a lawful log every interrupt answers a refused charge or a preflight that found the ledger spent before model work, with only never-resumed records between |
| DriveStops.EveryFailureStops | src/agent/drive.rs:538-558 | and every such failure is answered by an interrupt |
| DriveStops.InterruptsExactlyWhen | src/agent/machine/mod.rs:60-75 | a drive interrupts its machine if and only if a budget preflight or charge failed |
| DriveStops.GivenUpExactlyWhen | src/agent/drive.rs:621-683 | a requirement is given up only on the way to a budget stop, or after the flip and then abandoned at once |
| DriveFeed.FedBackInOrder | src/agent/drive.rs:538-576 | what a resume loop feeds back is a first part of the answers it was opened with, in order, and all of them unless a charge was refused |
| DriveFeed.WhatIsFedBackWasAnswered | src/agent/drive.rs:561-576 | every result fed back is one of its loop's answers, recorded just before under that answer's id and hop count, and the loop is over the batch started last |
| DriveLog.EmittedOrDropped | src/agent/drive.rs:466-579 | key by key, what the machine emitted was driven or came from a closing step |
| DriveLog.QuietMachinesDropNothing | src/agent/drive.rs:466-579 | machines whose abandon and interrupt steps emit nothing drop nothing |
| DriveState.RunContext.Await | src/agent/context.rs:133-185 | others may flip the token, charge within the limits and append to the trace, never take back; what the ledger grew by is what they charged |
| Drive.Charge | src/agent/context.rs:157-185 | one charge: the ledger moves by exactly that much and it is logged, or the refusal is logged with the ledger it was read from and nothing moves |
| Drive.ChargeResolution | src/agent/drive.rs:656-665 | step then tokens, with others running in between; fails only on a charge the ledger refuses |
| Drive.ResumeOne | src/agent/drive.rs:561-576 | one settlement recorded as resumed, then that result fed back, and what it emits becomes unsettled |
| Drive.ResumeUntilRefused | src/agent/drive.rs:538-576 | the machine is fed the results in completion order up to the first refused charge; its state and pending are what that feeding gives |
| Drive.ResumeAll | src/agent/drive.rs:538-576 | a refused charge settles this and the remaining results as never resumed, interrupts once and keeps the pending requirements |
| Drive.SettleCancelled | src/agent/drive.rs:621-636 | the log gains exactly one never-resumed record and one abandon per requirement, in order |
| Drive.SettleBudgetExhausted | src/agent/drive.rs:668-683 | the log gains exactly one never-resumed record per requirement and then one interrupt |
| Drive.BatchKeepsKeys | src/agent/drive.rs:853-901 | a fulfilled batch settles exactly the requirements of the batch |
| Drive.FulfillBatchCancellable | src/agent/drive.rs:504-530 | preempted only after a flip; otherwise the answers are, in completion order, what every requirement of the batch gives alone at its hop distance, or the error is one that a member gives alone |
| Drive.Consider | src/agent/drive.rs:472-504 | one pass of the checks reads the ledger as it is, takes the first move that applies and starts the whole pending batch or none |
| Drive.RunBatch | src/agent/drive.rs:504-576 | one batch: preempted or cancelled, everything abandoned; failed on a member's own error; or its handlers' own answers fed back in completion order, what was fed deciding what is pending; nothing is resumed unless the token was down after the wait |
| Drive.Conclude | src/agent/drive.rs:472-504 | without a batch the drive ends at rest, quiesced, cancelled with everything abandoned, or interrupted on the budget |
| Drive.Drain | src/agent/drive.rs:456-580 | for every machine, handler set, completion order and interference the drive keeps exactly-once settlement, the agenda, the budget stops with their causes, the answers of the handlers, cancellation safety, conservation of the ledger with charge before resume, and one trace node per settlement; it fails only on an error a pending requirement gives alone or on a non-terminal rest, ends cancelled only on a flipped token and always when it flips during a batch that does not fail, ends otherwise only terminal or interrupted with the token down, and is still running only after exactly that many batches |
| DrivePromises.DrivesAreLawful | src/agent/drive.rs:456-580 | every log a drive produces is lawful in all six readings and is a run of the machine |
| DrivePromises.CancelledMeansSignalled | src/agent/context.rs:131-143 | the token is flipped exactly when the log shows the flip, and exactly when another holder has signalled during a wait; the drive itself never flips it |
| DrivePromises.OpenedOnceWithTheMessage | src/agent/drive.rs:456-466 | the machine is opened exactly once, with the drive's own message |
| DrivePromises.StopsExactlyWhenTheLedgerFails | src/agent/drive.rs:538-683 | every interrupt answers a moment at which this ledger, everybody's charges included, refused a charge or was spent before model work, and every such moment is answered |
| DrivePromises.ResumesAreTheHandlersAnswers | src/agent/drive.rs:504-576 | whatever is fed back is what the innermost handler says to a requirement of a started batch, asked its own question, and is recorded just before under that requirement's id and family at that handler's distance |
| DrivePromises.LoopsFeedTheBatch | src/agent/drive.rs:538-576 | each resume loop is opened with a permutation of what its batch's requirements give alone and feeds that back in order up to the first refused charge |
| DrivePromises.EverythingSettlesExactlyOnce | src/agent/drive.rs:466-579 | with nothing pending and quiet closing steps, every emission has one settlement record, as resumed or as never resumed, and results are fed back exactly as often as they are recorded as resumed |
| DrivePromises.ResumedWorkFitsTheLimits | src/agent/drive.rs:640-665 | the model answers fed back and the tokens they report never exceed what the limits left at entry |
| DrivePromises.NoModelWorkOnASpentLedger | src/agent/drive.rs:640-646 | a batch with a model request at any place starts only on a reading of this ledger below every limit, with room beyond all model answers fed back by then |
| DrivePromises.PassesDecideExactly | src/agent/drive.rs:472-530 | in every drive a pass of the checks starts a batch of all pending work if and only if there is some, the token is down, and no request in it is for a model or the ledger is below every limit; a model request on a spent ledger is answered by an interrupt |
| DrivePromises.EverySettlementIsOnTheTrace | src/agent/drive.rs:734-759 | every settlement has a record of its own with its family, distance and disposition, under the requirement's plain id or one of its numbered ids |
| DriveExample.FeedTheAnswers | src/agent/drive.rs:538-576 | two model answers, headroom for one step: at most one is fed, and when nobody else charges exactly the first, whose tool is then pending after the interrupt |
| DriveExample.StopAndGoOn | src/agent/drive.rs:472-576 | the driver's own steps on that machine: after the stop, on the spent ledger, the tool's batch starts unless the token flipped |
| ToolSets.FirstDuplicate | src/agent/state.rs:632-650 | a duplicate is reported exactly when one exists |
| ToolSets.ApplyToolSetPatch | src/agent/state.rs:434-463 | the in-place loops compute the fold, with the same first error |
| ToolSets.RemoveAllRemoves | src/agent/state.rs:445-451 | removal succeeds exactly when it names existing tools once each, and survivors keep their order |
| ToolSets.PutAllPuts | src/agent/state.rs:453-459 | additions override the map, last write winning, old names keeping their places |
| ToolSets.PatchRefinesAMapUpdate | src/agent/state.rs:434-463 | from unique names the patch is current minus removed overridden by additions, and the final uniqueness check always passes |
| Reconfig.ApplyRequest | src/agent/state.rs:371-432 | one request edits the application as specified, errors included |
| Reconfig.PlanRequests | src/agent/state.rs:257-279 | the planner's loop is the left fold with its final checks |
| Reconfig.PlanKeepsValid | src/agent/state.rs:257-279 | skills and tool names stay unique, the overlay version grows by exactly the overlay requests, so the final checks never fail |
| Reconfig.PlanSnoc | src/agent/state.rs:223-229 | planning q followed by r is applying r to the plan of q |
| Reconfig.PlanConcat | src/agent/state.rs:257-279 | planning in two portions is planning at once |
| Reconfig.PlannablePrefix | src/agent/state.rs:257-279 | every prefix of a plannable queue is plannable |
| Reconfig.OverlayVersionsChain | src/agent/state.rs:399-414 | the expected versions in a plannable queue form one chain |
| Reconfig.DeactivateUndoesActivate | src/agent/state.rs:376-394 | activating an inactive skill and deactivating it restores the settings, order included |
| ReconfigLaws.QueuesPlanExactlyWhen | src/agent/state.rs:257-414 | a queue can be planned exactly when each request can be applied to what the ones before it leave: a skill not yet active, an active one, lists and tools named once, the overlay's version, tools that are there |
| ReconfigLaws.RequestsEditOneSetting | src/agent/state.rs:371-432 | each request of a plan edits the setting it names and leaves every other one as it was |
| ReconfigLaws.RefusalsNameTheReason | src/agent/state.rs:376-414 | a skill or overlay request that cannot be applied is refused for that reason |
| ReconfigLaws.PlansLeaveWhatWasSaidLast | src/agent/state.rs:257-432 | after a plan the model, the loop policy and the overlay are those last set, the tools the last ones put in place with the patches after them, and a skill is active by the last request about it; what nothing was said about is as it was |
| AgentStates.ValidateCursor | src/agent/state/cursor.rs:312-321 | a tool wait is accepted exactly when it awaits distinct calls, at least one, and its binding, if any, covers exactly those; an error exactly when it has text; every other cursor always |
| AgentStates.AgentState.QueueReconfig | src/agent/state.rs:200-206 | admitted exactly when not parked and the longer queue plans, and then last in the queue; a refusal changes nothing |
| AgentStates.AgentState.PlanReconfigWith | src/agent/state.rs:223-229 | plans the queue with the request at its end |
| AgentStates.AgentState.QueuedReconfigApplication | src/agent/state.rs:236-245 | nothing for an empty queue, else the plan with the queue it was made from |
| AgentStates.AgentState.ApplyReconfigApplication | src/agent/state.rs:247-255 | all planned settings take effect and the queue is empty |
| AgentStates.AgentState.TransitionCursor | src/agent/state.rs:289-299 | moves exactly when the target is valid and the table allows it, else unchanged |
| AgentStates.CursorsAreEnteredFrom | src/agent/state/cursor.rs:323-360 | the transition table read from its targets: which states lead to each |
| AgentStates.AgentState.ReplaceSkills | src/agent/state.rs:181-188 | replaces the list exactly when it has no duplicate |
| ReconfigRuns.NoRequestIsLost | src/agent/state.rs:200-255 | over every run, failures, abandons, stops and restarts included, accepted is applied followed by queued, and a parked plan was made from the whole queue |
| ReconfigRuns.SettingsAreWhatTookEffect | src/agent/machine/default/mod.rs:508-982 | over every run, direct replacements of the skills included, the settings in force are what took effect folded in order over the first settings, and a parked plan is still the plan of the queue |
| ReconfigRuns.HistoryReplays | src/agent/state.rs:200-279 | in every run what took effect followed by the queue plans over the first settings as the queue plans over those in force; names stay unique and the overlay version counts the applied overlays |
| ReconfigRuns.BoundaryAppliesTheWholeQueue | src/agent/machine/default/mod.rs:585-597 | a boundary at rest applies the whole queue, at once when the tool set stays and on the confirming resume otherwise |
| ReconfigRuns.TextBoundaryAppliesTheWholeQueue | src/agent/machine/default/mod.rs:847-900 | the end of a text step that commits applies the whole queue, at once or on the confirming resume |
| ReconfigRuns.BeginningATurnLeads | src/agent/machine/default/mod.rs:508-597 | where beginning a turn leaves machine and settings: failed on a queue that cannot be planned, parked with the plan when it changes the tools, otherwise with the plan applied, streaming or failed |
| ReconfigRuns.FinishingTextLeads | src/agent/machine/default/mod.rs:847-900 | the same for a finished text, where a commit that fails applies nothing |
| ReconfigRuns.ConfirmingAPlanLeads | src/agent/machine/default/mod.rs:936-983 | a confirmed plan takes effect unless the commit it was parked for fails |
| ReconfigRuns.SubmissionsAreAdmittedExactlyWhen | src/agent/state.rs:200-229 | a submitted request joins the queue exactly when nothing is parked, the longer queue plans, and a registry is found if that changes the tools |
| ReconfigRuns.StepsDoOneThing | src/agent/machine/default/mod.rs:508-982 | only a boundary applies, and then the whole queue; a direct replacement changes the skills alone; every other step leaves settings and queue |
| ReconfigRuns.ReplacingSkillsKeepsTheQueueExactlyWhen | src/agent/state.rs:181-188 | replacing skills keeps the queue plannable if and only if the new list agrees with the old on every skill the queue switches before it first replaces the list |
| ReconfigRuns.QueueStaysPlannableExactlyWhen | src/agent/state.rs:181-245 | over every run the queue can be planned at every moment if and only if every direct replacement of the skills agrees with the replaced list on each skill the queue then switches before it replaces the whole list |
| ReconfigRuns.ReplacingSkillsCanBreakTheQueue | src/agent/state.rs:181-206 | one accepted activation and one replacement reach a broken queue |
| ReconfigRuns.BrokenQueueBlocksEverything | src/agent/machine/default/mod.rs:585-597 | a broken queue accepts and applies nothing in any later run until the skills are replaced again |
| AgentRecords.ToRecord | src/agent/state.rs:465-493 | writes the record of the state, refused exactly while a turn is open |
| AgentRecords.FromRecord | src/agent/state.rs:312-347 | succeeds exactly on records of a sound state with an accepted conversation, and then gives that state |
| AgentRecords.ReadableExactlyWhen | src/agent/state.rs:312-347 | field by field: a record is read exactly when no skill and no tool name repeats, the cursor is valid, the queue plans over the settings with the specification's defaults, and the conversation is accepted |
| AgentRecords.DefaultsAreLeftOut | src/agent/state.rs:465-493 | a field is left out exactly when it holds its default |
| AgentRecords.BareRecordsAreNewAgents | src/agent/state.rs:312-345 | a record that leaves everything out is that of a new agent at rest with what its specification gives it |
| AgentRecords.RoundTripHoldsExactlyWhen | src/agent/state.rs:312-493 | reading back what was written gives the same state, if and only if it is sound and its conversation is restorable |
| AgentRecords.WriteAndRead | src/agent/state.rs:465-503 | on the live objects: the state read back answers as the one written |
| AgentRecords.RunsStaySoundExactlyWhen | src/agent/state.rs:312-347 | at every moment of a new agent's run its state is one a record may hold, if and only if every direct replacement of its skills is safe for its queue |

## Left out

- The tool-call index: a view derived from the raw log.
- Projections.RangesResolveExactlyWhen: the three ways a turn anchor can be wrong (detached, unknown, mismatched) are one error here, and so are the two ways a position can be out of reach; the shape check made while a projection is decoded, which this check repeats, is not modelled.
- Rendered messages: a rendering is its stretches of turns and artifacts; the messages inside them are opaque.
- Pending-turn phases and the role and tool-pairing grammar: flags on the pending turn that any caller may set; the model proves what holds for every verdict.
- Message payloads, JSON values, error text, serde attributes, provider formats, environment and endpoints: identifiers and opaque values with equality.
- Conversions between machine word sizes on restore and the 32-bit attempt and hop counters: unbounded here; the structural version, overlay version and budget counters keep their 64-bit bounds.
- The `Drop` loops: they guard stack depth, which is not observable here.
- The async runtime: an await is an arbitrary interference; the cancellation grace is a free choice between completing and being preempted; a flip between the last check and the start of a batch counts as a flip during that batch.
- Routing.Resolve: the depth of nested subagents is a remaining-nesting argument that falls at every layer, so popping at an unreduced depth is refused here; a handler's own child drive is its answer, and a child layer is its scope and the pop target it was given.
- Drive.Drain: the loop takes a bound on its batches, and what holds is stated for every bound; that a given machine ever rests is not claimed. The trace handle's parent is in the tree, as its constructors guarantee.
- HistoryStore.RawHistory.Nodes: the raw log is a value held by the history, as the source embeds it, with references to the shared objects.
- HistoryStore.History.MakeMut: the strong count is the set of histories that hold the id set.
- ReconfigRuns.NoRequestIsLost: opening and committing the conversation's turn are success flags here, and `Work` stands for every other checked cursor move of the machine.
- Dropping tool declarations at restore time.
- Concrete tool registries: whether one is found for a planned tool set is an argument of the submit action.
- Facade builders, keyword routing, approval tiers, collaboration flags, HTTP and CLI runtimes: simple or input and output.
