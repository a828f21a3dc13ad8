# Verified model of the Metis brain's turn, governance, routing and paging logic

A Dafny model of the parts of the repository whose correctness spans several
functions or a whole run, with proofs. `dafny verify dfyconfig.toml` checks all of it.

Every component has two layers. A specification layer of datatypes and functions says
what each operation computes; the theorems are lemmas about that layer. Where the
program changes state in place, a class or a method with loops is proved to compute
exactly what the specification says, so each theorem also holds of the in-place form.

**Turns and playback.** `SessionContexts`, `SessionModel`, `SessionSteps` and
`SessionStore` model the session store; `PlaybackModel`, `PlaybackInvariant`,
`PlaybackEffects` and `PlaybackQueue` the playback queue. `TurnProtocol` runs both together
with every lock-protected operation as one atomic step: requests interleave freely, a
cancellation is two steps, and a log records what each client could observe.
`TurnProtocolProofs` shows that every step keeps the joint invariant, `TurnTheorems` what
follows for all runs from the empty system. The lemmas there take any state with that
invariant; `InitInv` and `StepInv` give it for every reachable state. `ContextTheorems`
adds what holds of session contexts. `SessionEffects`, `ContextEffects` and
`PlaybackOutcomes` say in plain stages, states and answers what each operation does,
`TurnOutcomes` who asked for the way a turn ended. `AudioArtifacts` and `Coordinator` model
the artifact store and the orchestration coordinator.
`TurnHandlers`, `TurnAgreement` and `Brain` take whole request handlers over sessions,
playback and artifacts as steps, with `HandlerOutcomes` for the stage and code each one
leads to; `AudioPrivacy` shows whose audio a queued item is.
`TurnRaces` shows when an acknowledgement raises, and `AudioRaces` who gets an artifact, if
handlers are not atomic; `TurnWitnesses` reaches the cases they speak of.

**Governance.** `GovernanceModel` is the event reducer for proposals, reviews, receipts
and plans, `EventLog` the state as a fold over its log, `GovernanceProofs`,
`GovernanceTheorems` and `PlanTheorems` what holds after any log, `GovernanceReducer` the
in-place reducer; `GovernanceEffects` and `PlanEffects` say in plain words and values what
each event does. `ToolArguments` is argument validation. `PlanRunner` is the guided plan
runner with its handlers, `PlanInvariant`, `PlanQueueing`, `PlanProgress`,
`PlanExecuting`, `PlanBinding`, `PlanAdvance`, `PlanLife` and `PlanCompletion` the proofs
that it makes progress, decides nothing and when it stops; `TaskPlanner` the plans it
starts from, `PlanHandlers` the handlers' loops. `PlanAnswers`, `PlanWork` and
`PlannerSteps` say without the code's own branches which answer the runner gives, what the
handlers do and which steps a task gets. `PlanStalls` and `PlanFaults` say exactly
when two of its answers mislead, and reach both from logs; `PlanGuided` says when a plan
guided to its end is done.

**Routing and paging.** `AccountRouting`, `AccountRoutingProofs`,
`AccountRoutingTheorems` and `AccountResolver` model the account-label resolver, with
`AccountRoutingAnswers` for what each of its answers means;
`CalendarPaging` and `GoogleAccess` the bounded paged reads and the selection boundary.

## Hypotheses

- The id factory never repeats a value (`FreshIds`, `FreshTurns`, `FreshVoices`, `Steady`,
  `FreshTokens`); the store and the queue check new ids only against records still kept.
  References to stored audio hold no question mark.
- Cancelling in the playback queue cancels every generation of the session;
  `through_generation` only sets the tombstone. A CANCELLED acknowledgement ends the item,
  not the turn. Both are modelled as the code does them.
- The agreement of turns and playback takes each handler as one step. With the other
  handlers' operations interleaving, `FirstRaiseIff` says exactly which acknowledgement is
  the first to raise; the acknowledgement handler itself stays one step. Cancellation
  safety, the tombstone, FIFO and STOP results hold for interleaved single operations.
- `tool_plan` events carry planner-built plans without a review status (`PlannerBuilt`).
- Guided advance assumes executors that return a non-empty result (`NonFailing`), as
  those of `metis_head/read_only_tools.py` do unless they raise, and plans whose waiting
  steps follow read-only steps only (`SourcesFirst`), as the planner's do. What an
  executor returns may differ from call to call.
- In the routing result `MatchedExactly`, normalized labels are pairwise distinct.
- The artifact store's clock does not go back.
- `clear_failures` changes state without an event and lies outside the replay theorem.

Digests, the keyword classifier, the executors, the transports, the receipt summary text
and the reducers of all other state fields are function parameters, so the results hold
for every choice of them. Times and new ids are parameters of the operations.

## Where the code does not do what its documentation suggests

- `_finish_chat_turn` says it does not strand the session. A reply that is blank or too
  long raises before anything moves and the turn stays open in THINKING: `FinishSettles`
  gives the exact condition, `BlankReplyStrands` a case.
- The runner may call a plan complete while a proposal is pending: `CompleteIff` gives the
  exact condition for every plan, `PlannerSourcesIff` and `PlannerSourcesForTask` the tasks
  for which the planner's own plans are concerned, `CompleteTooEarly` takes such a task
  through planning, approval and queueing to the wrong answer, and by `GuidedToDoneIff`
  guidance leaves a step undone for these tasks and for no others.
- `has_prior_executed_step` accepts any receipt while binding needs a good one, so an
  announced binding may not be made: `AnnouncedBindingMadeIff` says exactly when it is.
  The planner's own plans never get there; `StallReached` uses a plan posted to the event
  endpoint, which the reducer takes as it is.
- `restrict_to` replaces the selection instead of narrowing it: `RestrictNarrowsIff`, with
  the case `RestrictionWidens`.
- Between being stored and being bound an artifact goes to whichever session asks for it:
  `FetchedIff` says exactly who gets it, `StrangerFetches` gives a case.
- A preflight check that throws leaves the coordinator's entry behind, and nothing else
  does: `RegisteredRunsIff`. The one caller (`metis_head/brain.py:715-721`) passes
  `SESSIONS.accepts`, which does not throw.
- Creating a session with a context that is refused may cost a closed session its place:
  `RefusedCreateCosts` says exactly when, `LongProjectCostsASession` gives a case the create
  endpoint lets through.
- An artifact store configured for no items drops what it has just stored: `PutBounded` says
  when, `PutKeepsNothing` gives the case.

## Model

| member | source | states |
|---|---|---|
| `Sessions.AcceptsExactlyOpenToken` | metis_head/conversation/session.py:486-493 | `accepts` holds for the token of the session's one open turn, when the session is active, and for no other token |
| `Sessions.LegalClimbs` | metis_head/conversation/session.py:47-61 | every legal transition leaves a non-terminal stage for one of higher rank |
| `Sessions.CreateKeepsOk` | metis_head/conversation/session.py:157-179 | creating keeps the store invariant and bounds; it adds at most the new session and drops at most one closed one, all others untouched |
| `Sessions.BeginKeepsOk` | metis_head/conversation/session.py:181-208 | a turn that begins is the newest of its session and accepted, and the invariant (one open turn, the last, of the current generation) holds |
| `Sessions.TransitionKeepsOk` | metis_head/conversation/session.py:265-295 | moving a turn keeps the session invariant, including on the retry and the illegal branch |
| `Sessions.CancelKeepsOk` | metis_head/conversation/session.py:343-357 | a cancellation that changes anything raises the generation by one and answers with it, records `Cancelled` for each open turn it is for and for no other, leaves no open turn, and changes that session only |
| `Sessions.CloseKeepsOk` | metis_head/conversation/session.py:359-366 | closing keeps the invariant: no history, no pending request, no open turn |
| `SessionSteps.TransitionStep` | metis_head/conversation/session.py:265-295 | per turn: unchanged, or the open turn moved to a higher rank; generations and activity only go one way |
| `SessionSteps.TerminalizeStep` | metis_head/conversation/session.py:297-319 | the same for `terminalize`, whichever of its three routes it takes |
| `SessionSteps.CommitStep` | metis_head/conversation/session.py:321-341 | a committed message is the newest of the history and belongs to the turn that is open |
| `SessionSteps.CancelStep` | metis_head/conversation/session.py:343-357 | cancelling only closes the open turn; finished turns are not rewritten |
| `SessionStores.SessionStore.CreateSession` | metis_head/conversation/session.py:157-179 | the method over mutable records computes exactly the specified store and answer, eviction of the oldest closed session and refusal of the context after it included |
| `SessionStores.SessionStore.FindOldestClosed` | metis_head/conversation/session.py:521-525 | the loop finds the closed session updated longest ago, the first among equals |
| `SessionStores.SessionStore.NewUniqueId` | metis_head/conversation/session.py:514-519 | the first of eight proposals that is non-empty and unused, or none |
| `SessionStores.SessionStore.BeginTurn` | metis_head/conversation/session.py:181-208 | method equals specification: validation before any change, stage choice, one open turn at a time |
| `SessionStores.SessionStore.Transition` | metis_head/conversation/session.py:265-295 | method equals specification, including the idempotent retry of a recorded outcome |
| `SessionStores.SessionStore.Terminalize` | metis_head/conversation/session.py:297-319 | method equals specification, cancellation going through `cancel` |
| `SessionStores.SessionStore.CommitText` | metis_head/conversation/session.py:321-341 | method equals specification for both roles: refused unless accepted, then cleaned and appended to the bounded deque |
| `SessionStores.SessionStore.Cancel` | metis_head/conversation/session.py:343-357 | method equals specification: in-place loop over the turns, other records untouched |
| `SessionStores.SessionStore.CloseSession` | metis_head/conversation/session.py:359-366 | method equals specification |
| `SessionStores.SessionStore.UpdateContext` | metis_head/conversation/session.py:210-245 | method equals specification: only the fields given are replaced, the result is normalised, a refusal leaves context and history alone |
| `SessionStores.SessionStore.SetPending` | metis_head/conversation/session.py:247-263 | method equals specification for storing and clearing the pending request |
| `SessionContexts.NormalizeNormal` | metis_head/conversation/session.py:432-484 | what is stored is clean text without repetitions, within the bounds, its primary account selected, calendars of selected accounts only |
| `SessionContexts.NormalIffFixed` | metis_head/conversation/session.py:432-484 | a context has that form exactly when normalising leaves it as it is |
| `SessionContexts.NormalizeContext` | metis_head/conversation/session.py:432-484 | the loops with their early refusals compute the specification |
| `ContextTheorems.ContextsForever` | metis_head/conversation/session.py:157-245 | along every run every stored session's context is normal |
| `ContextTheorems.UpdateInReachedState` | metis_head/conversation/session.py:210-245 | in every reachable state an update is refused exactly when the changed context is, and one that changes nothing is accepted and changes nothing |
| `ContextTheorems.RefusedCreateCosts` | metis_head/conversation/session.py:157-179 | a refused creation changes the store exactly when the client is named, the store is full, a closed session can make room, and the context is refused or no id is left; then that session alone is gone |
| `ContextTheorems.LongProjectCostsASession` | metis_head/brain.py:287-302 | a case that occurs: one session, closed, and a project id of 513 characters |
| `ContextTheorems.CreatedWith` | metis_head/conversation/session.py:157-179 | a new session has the normal form of the context given, and none when none is given |
| `SessionStores.SessionRecord.CancelOpenTurns` | metis_head/conversation/session.py:353-355 | the loop records `Cancelled` for each open turn the filter admits, all else of it kept, and leaves every other turn as it was |
| `PlaybackInvariant.EnqueueKeeps` | metis_head/audio/playback.py:91-117 | enqueueing keeps the representation invariant of the seven collections |
| `PlaybackInvariant.HeadIsQueued` | metis_head/audio/playback.py:128-131 | the dictionary lookup in the poll never misses, and the head of a queue is a queued item of that client |
| `PlaybackInvariant.NextCommandKeeps` | metis_head/audio/playback.py:119-144 | polling keeps the invariant through the whole pop loop |
| `PlaybackInvariant.AcknowledgeKeeps` | metis_head/audio/playback.py:146-181 | acknowledging keeps the invariant |
| `PlaybackInvariant.SetOverEffect` | metis_head/audio/playback.py:237-255 | ending an item forgets only items that are over, never the one just ended, and keeps the bound of the terminal record |
| `PlaybackInvariant.CancelSessionKeeps` | metis_head/audio/playback.py:183-214 | cancelling keeps the invariant although queues hold ended items while it runs; afterwards each item of the session that lived is `Cancelled`, items of others are untouched, and each stopped slot holds one STOP |
| `PlaybackInvariant.CancelOnce` | metis_head/audio/playback.py:192-207 | no item is cancelled twice in one cancellation |
| `PlaybackInvariant.RememberKeeps` | metis_head/audio/playback.py:265-270 | tombstones stay one per session and within the bound; the raised one survives |
| `PlaybackEffects.NextCommandEffect` | metis_head/audio/playback.py:119-144 | what a poll returns and touches: a waiting STOP, nothing while playing, else the first accepted entry of the client's queue; other clients unchanged |
| `PlaybackEffects.NextCommandDrops` | metis_head/audio/playback.py:128-135 | a poll drops only items whose token is no longer accepted, and records `Cancelled` for them |
| `PlaybackEffects.ItemCount` | metis_head/audio/playback.py:83-255 | items = terminal record + queued entries + active slots, and so at most max_terminal plus queued plus one per client |
| `PlaybackQueues.PlaybackQueue.Enqueue` | metis_head/audio/playback.py:91-117 | method equals specification, including the queue opened before the capacity check fails |
| `PlaybackQueues.PlaybackQueue.NextCommand` | metis_head/audio/playback.py:119-144 | method equals specification: pending command, busy client, or the pop loop |
| `PlaybackQueues.PlaybackQueue.PlayNext` | metis_head/audio/playback.py:128-144 | the while loop over the deque computes the recursive specification |
| `PlaybackQueues.PlaybackQueue.Acknowledge` | metis_head/audio/playback.py:146-181 | method equals specification in every state and ownership case |
| `PlaybackQueues.PlaybackQueue.CancelSession` | metis_head/audio/playback.py:183-214 | method equals specification: inferred floor, snapshot walk, queue sweep |
| `PlaybackQueues.PlaybackQueue.SetTerminal` | metis_head/audio/playback.py:237-255 | the expiry loop computes the specification |
| `PlaybackQueues.PlaybackQueue.AppendCommand` | metis_head/audio/playback.py:257-263 | duplicate search, append and trim as specified |
| `TurnProtocolProofs.StepInv` | metis_head/audio/playback.py:91-214 | every atomic step of the composed system, in any interleaving, keeps the joint invariant of sessions, playback, owed cancellations and the client log |
| `TurnTheorems.CancelReaches` | metis_head/brain.py:381-397 | after the first half of a cancel or close the session is at a higher generation |
| `TurnTheorems.ReachedForever` | metis_head/conversation/session.py:352 | a generation once reached is never left again along any run, even by eviction |
| `TurnTheorems.CancellationSafety` | metis_head/conversation/session.py:368-370 | after a session reached generation g, on every continuation, no token below g appends a message, moves a turn, is enqueued or is played, whether its tombstone is still kept or not |
| `TurnTheorems.TombstonesNeverOverReject` | metis_head/audio/playback.py:97-103 | well-formed audio is refused exactly when the token is not accepted; with room and a usable id accepted work is queued |
| `TurnTheorems.ClosedForever` | metis_head/conversation/session.py:359-366 | a closed session keeps empty history, no pending request and its terminal turns along every run |
| `TurnTheorems.GoneForever` | metis_head/conversation/session.py:526 | an evicted session id never comes back |
| `TurnTheorems.StagesClimb` | metis_head/conversation/session.py:47-61 | along every run a turn changes stage at most six times, less by the rank it already has |
| `TurnTheorems.StopNeverLost` | metis_head/audio/playback.py:202-207 | a STOP issued to a client is delivered before its next PLAY, with nothing but new entries in between |
| `TurnTheorems.StopOnlyOnce` | metis_head/audio/playback.py:119-124 | after a delivered STOP the next thing the client sees is a PLAY: no second STOP |
| `TurnTheorems.CommandsNeverTrimmed` | metis_head/audio/playback.py:257-263 | at most one command waits per client and none while it plays, so trimming is unreachable |
| `TurnTheorems.FifoPerClient` | metis_head/audio/playback.py:116-143 | what a client was told to play followed by what is queued is a subsequence, without repetition, of the order of enqueueing |
| `TurnTheorems.OnePlaybackAtATime` | metis_head/audio/playback.py:125-136 | between two PLAYs to one client the earlier item was ended by the client or stopped by the server |
| `TurnTheorems.PlaybackPartition` | metis_head/audio/playback.py:83-255 | each live item is in its client's queue or is its active item, never both and nowhere else; the terminal record lists exactly the ended items, once |
| `TurnAgreement.AgreementForever` | metis_head/brain.py:2876-2904 | after any run of requests with handlers atomic, an item of accepted work matches its turn's stage, and an acknowledgement never raises |
| `TurnAgreement.AckKeeps` | metis_head/brain.py:2888-2904 | the second lookup never misses and no transition the handler makes is illegal |
| `TurnAgreement.FinishSettles` | metis_head/brain.py:2320-2346 | finishing a thinking turn settles it (over, no longer accepted, or a live playback item) exactly when the reply's text may be committed; otherwise it raises and the turn stays open, contrary to the docstring at line 2325 |
| `TurnAgreement.SpeakChatKeeps` | metis_head/brain.py:2283-2317 | speaking queues an item and marks the turn, or leaves the session store alone |
| `TurnAgreement.PreviewKeeps` | metis_head/brain.py:2936-2966 | a preview ends with its turn settled, and succeeds exactly when an item is live for it |
| `TurnAgreement.CancelAllKeeps` | metis_head/brain.py:381-386 | the cancel handler keeps the agreement |
| `TurnAgreement.CloseAllKeeps` | metis_head/brain.py:393-398 | the close handler keeps the agreement |
| `TurnAgreement.HandleKeeps` | metis_head/brain.py:2283-2966 | every request handler keeps the agreement |
| `TurnAgreement.AgreementFromStart` | metis_head/brain.py:2876-2904 | the same from the empty world |
| `TurnRaces.AckRaisesIff` | metis_head/brain.py:2888-2904 | in any well-formed state an acknowledgement raises exactly when the owned, accepted item is queued, STARTED is reported and its turn is not yet PLAYBACK_QUEUED, or it is started, COMPLETED is reported and its turn may not complete |
| `TurnRaces.FirstRaiseIff` | metis_head/brain.py:2309-2316 | with every other handler's operations interleaving one by one, the first acknowledgement to raise is a STARTED for an item whose turn has not reached PLAYBACK_QUEUED, and every such one raises |
| `TurnRaces.AckRaceRaises` | metis_head/brain.py:2309-2316 | between enqueue and transition, in any well-formed state, an idle client can poll and acknowledge, and that acknowledgement raises |
| `TurnWitnesses.FirstRaiseFromStart` | metis_head/brain.py:2309-2316 | the exact first raise for every run from the empty system |
| `TurnWitnesses.AckRaceReached` | metis_head/brain.py:2309-2316 | a run of five operations from the empty system after which an acknowledgement raises |
| `TurnWitnesses.BlankReplyStrands` | metis_head/brain.py:2320-2346 | a case that occurs: from the empty world, a thinking turn whose reply is one blank; the handler raises and the turn stays open |
| `Brains.Brain.SpeakChatResponse` | metis_head/brain.py:2283-2317 | the handler's calls on the shared store, queue and artifact store, the bind included, leave all three as specified |
| `AudioPrivacy.HandlePrivate` | metis_head/brain.py:2283-2316 | every request handler keeps it that what an item refers to is bound to the item's turn |
| `AudioPrivacy.AudioStaysPrivate` | metis_head/brain.py:2850-2855 | after any run of requests, whoever follows the reference of an item the queue knows and gets its audio is the item's own session |
| `AudioRaces.DoKeeps` | metis_head/brain.py:2283-2316 | with storing, binding, queueing and fetching as single steps among all others: a kept artifact is bound exactly to the turn it was ever bound to, and an item refers to an artifact of its own turn |
| `AudioRaces.FetchedIff` | metis_head/audio/artifacts.py:59-67 | in every state so reached a fetch succeeds exactly when the artifact is kept, unexpired, and never bound or bound for the session that asks |
| `AudioRaces.AudioStaysPrivateInterleaved` | metis_head/brain.py:2850-2855 | after any interleaving from the start only the item's own session gets its audio |
| `AudioRaces.StrangerFetches` | metis_head/audio/artifacts.py:28-67 | the window: stored and not yet bound, the audio goes to whoever asks |
| `AudioRaces.SpeakActsIsHandler` | metis_head/brain.py:2283-2316 | the handler as a whole is these single steps with nothing in between |
| `Brains.Brain.FinishChatTurn` | metis_head/brain.py:2320-2346 | handler equals specification, every exception route included |
| `Brains.Brain.PlaybackAcked` | metis_head/brain.py:2888-2904 | handler equals specification |
| `Brains.Brain.CancelSession` | metis_head/brain.py:381-386 | handler equals specification: generation first, then playback through the generation before |
| `Brains.Brain.CloseSession` | metis_head/brain.py:393-398 | handler equals specification |
| `Brains.Brain.VoicePreview` | metis_head/brain.py:2943-2966 | handler equals specification |
| `Brains.Brain.Transcribed` | metis_head/brain.py:3535-3539 | handler equals specification |
| `Artifacts.EvictLongestSuffix` | metis_head/audio/artifacts.py:38-39 | the eviction loop ends with the longest suffix within both bounds: keeping one entry more would not fit |
| `Artifacts.PrunesPrefix` | metis_head/audio/artifacts.py:73-76 | in order of age, pruning removes exactly the prefix older than the cutoff |
| `Artifacts.PutBounded` | metis_head/audio/artifacts.py:31-40 | after a put both bounds hold, only oldest entries went, and the new artifact is there exactly when the store may hold any item |
| `Artifacts.PutKeepsNothing` | metis_head/audio/artifacts.py:31-40 | a case that occurs: a store configured for no items answers with an id and keeps nothing |
| `Artifacts.BindKeepsPlaces` | metis_head/audio/artifacts.py:42-57 | binding changes one owner and nobody's place or age |
| `Artifacts.ConsumeExactly` | metis_head/audio/artifacts.py:59-67 | handed out exactly when kept, unexpired, and unbound or bound to the asking session; then it alone is removed |
| `Artifacts.RunKeepsOk` | metis_head/audio/artifacts.py:28-76 | along every run with a steady clock and new ids: bounds, order of age, and no artifact handed out twice |
| `ArtifactStores.AudioArtifactStore.Put` | metis_head/audio/artifacts.py:31-40 | method equals specification: prune, insert, evict in a loop that terminates |
| `ArtifactStores.AudioArtifactStore.Bind` | metis_head/audio/artifacts.py:42-57 | method equals specification |
| `ArtifactStores.AudioArtifactStore.Consume` | metis_head/audio/artifacts.py:59-67 | method equals specification |
| `Coordination.OneUnhinderedPerSession` | metis_head/conversation/coordinator.py:55-60 | under any interleaving a running, uncancelled, unpopped token is the registered one of its session, so there is at most one per session |
| `Coordination.CleanupSparesOthers` | metis_head/conversation/coordinator.py:77-80 | cleanup removes its own entry and never another turn's |
| `Coordination.CancellationReachesAll` | metis_head/conversation/coordinator.py:82-88 | a pop or a newer start reaches every orchestration then running for the session: once no cancellation is half done each is cancelled or over |
| `Coordination.RegisteredRunsIff` | metis_head/conversation/coordinator.py:55-80 | along every run a registered token is running exactly when the preflight check of its own start did not throw: an entry with nothing behind it comes from a throw and from nothing else |
| `Coordination.ThrowingPreflightStays` | metis_head/conversation/coordinator.py:60-66 | when the preflight check throws, the registered token is never cleaned up by its own turn |
| `Coordinators.PersonalConversationCoordinator.Start` | metis_head/conversation/coordinator.py:55-66 | registering supersedes the previous token object and registers the new one before the preflight result is applied |
| `Coordinators.PersonalConversationCoordinator.Finish` | metis_head/conversation/coordinator.py:77-80 | identity-checked removal |
| `Coordinators.PersonalConversationCoordinator.CancelSession` | metis_head/conversation/coordinator.py:82-88 | pop and cancel as the two specified steps |
| `EventLog.ValidateIdempotent` | metis_head/schemas.py:207-217 | a validated event validates to itself, and validation changes only the type, its alias and the schema version |
| `EventLog.ReplayConcat` | metis_head/reducer.py:91-95 | replaying a+b is replaying a, then b |
| `EventLog.LogIsTheState` | metis_head/reducer.py:33-95 | for every run, events that raised included, replaying the state's own log from the start gives exactly the state |
| `EventLog.LogPrefixes` | metis_head/reducer.py:38 | every prefix of the log reproduces the state the run had at that point |
| `EventLog.ReplayEvents` | metis_head/reducer.py:91-95 | the loop computes the fold |
| `GovernanceTheorems.StateFromLog` | metis_head/reducer.py:33-88 | the governance part of the state is a function of the log alone |
| `GovernanceTheorems.CountersAgree` | metis_head/reducer.py:415-421 | after any log the three stored counters equal a recount of both queues, and the total is the sum of the other two |
| `GovernanceTheorems.ProposalIdsDistinct` | metis_head/proposals.py:45-47 | proposal ids are pairwise distinct and keep their place, whatever the digest is |
| `GovernanceProofs.SlotUnique` | metis_head/proposals.py:45-47 | the zero-padded index is readable from the id: one id fits one place |
| `GovernanceProofs.ReduceKeeps` | metis_head/reducer.py:40-86 | every event type keeps the invariant; proposals are only appended, reviewed once, or bound while pending |
| `GovernanceTheorems.ReviewFreezes` | metis_head/reducer.py:390-404 | a reviewed proposal never changes again in any field |
| `GovernanceTheorems.ReviewTraces` | metis_head/reducer.py:385-412 | a proposal is Approved because one review of the log said "approved" of it, Denied because one said "denied", pending with the same tool fields just before |
| `GovernanceTheorems.ReceiptTraces` | metis_head/reducer.py:424-442 | each receipt was issued by an execution request of the log for the proposal as it then stood |
| `GovernanceTheorems.ExecutionTracesToApproval` | metis_head/execution.py:24-40 | whatever was executed read-only, dry-run or blocked after review has an earlier event in the log that said "approved" of its proposal, and tool and arguments are the approved ones |
| `PlanTheorems.ReducePlansStep` | metis_head/reducer.py:445-600 | an event changes at most the first plan with the id it names, or appends one |
| `PlanTheorems.PlanDecisionStands` | metis_head/reducer.py:461-487 | a plan's decision is never revised and its steps keep id, tool and arguments |
| `PlanTheorems.NothingQueuedBeforeApproval` | metis_head/reducer.py:490-558 | with planner-built plans, an unapproved plan has no step with a proposal or receipt |
| `PlanTheorems.StepsAsLogged` | metis_head/reducer.py:461-600 | a plan not approved has exactly the steps it was logged with, provided plans come from the planner |
| `PlanTheorems.ShadowedPlanFrozen` | metis_head/reducer.py:466-468 | a plan behind another with the same id is never changed by any event |
| `PlanTheorems.ShadowedPlanStaysPending` | metis_head/brain.py:1638-1640 | why the handlers look for the id first: such a plan keeps the pending count above zero for ever |
| `GovernanceReducer.ReduceMetisEvent` | metis_head/reducer.py:33-88 | the whole copied state, log and all other fields included, is changed in place as specified, with the same error; the given state stays as it was |
| `GovernanceReducer.GovState.Take` | metis_head/reducer.py:40-86 | the dispatch on the event type computes the specification |
| `GovernanceReducer.GovState.RefreshProposalCounts` | metis_head/reducer.py:415-421 | the counting loops compute the specified counters |
| `GovernanceReducer.GovState.ReduceReview` | metis_head/reducer.py:385-412 | search and in-place update as specified, and so as `ReviewExactly` says |
| `GovernanceReducer.GovState.ReduceStepQueue` | metis_head/reducer.py:490-524 | method equals specification |
| `GovernanceReducer.GovState.ReducePlanExecution` | metis_head/reducer.py:527-558 | method equals specification |
| `GovernanceReducer.GovState.ReduceBinding` | metis_head/reducer.py:561-600 | method equals specification |
| `GovernanceReducer.QueueEach` | metis_head/reducer.py:501-513 | the nested loops compute the fold over entries |
| `GovernanceReducer.BindEach` | metis_head/reducer.py:571-593 | the nested loops compute the fold over bindings, reviewed proposals skipped |
| `ToolArguments.RevalidatesIff` | metis_head/tool_registry.py:272-321 | validated arguments validate again to themselves exactly when no argument given is declared a list or object, or is sensitive and not text, and every required argument is kept |
| `ToolArguments.SanitizeIdempotent` | metis_head/tool_registry.py:272-285 | sanitizing twice is sanitizing once |
| `ToolArguments.ValidateToolArguments` | metis_head/tool_registry.py:288-321 | the loop gives the specified verdict and arguments in whatever order it meets them |
| `ToolArguments.SanitizeArguments` | metis_head/tool_registry.py:272-285 | the loop computes the specification |
| `PlanRunner.NextPlanAction` | metis_head/tool_plan_runner.py:9-71 | the append loops and early returns compute the specified action, which is the one `AnswerIff` names, with the steps `AnswerNames` lists |
| `PlanRunner.HasPriorExecutedStep` | metis_head/tool_plan_runner.py:86-93 | the early-return search computes the specification |
| `PlanQueueing.QueueingWorks` | metis_head/brain.py:1260-1270 | queueing arguments that validate to themselves never fails and gives each candidate its own proposal |
| `PlanProgress.QueueAdvances` | metis_head/brain.py:1246-1286 | the queue handler succeeds, leaves less to do, and decides nothing |
| `PlanExecuting.ExecutionAdvances` | metis_head/brain.py:1289-1349 | so does the execution handler, with executors that return something |
| `PlanBinding.BindableIsApplied` | metis_head/tool_plan_runner.py:25-40 | a step the runner calls bindable has a source receipt the handler finds, and its proposal takes the binding |
| `PlanBinding.BindingAdvances` | metis_head/brain.py:1422-1444 | so does the binding handler |
| `PlanAdvance.AdvanceProgresses` | metis_head/brain.py:1447-1462 | whenever the runner says a step needs no human, advancing succeeds, strictly lowers the work left, and changes no review; otherwise nothing changes |
| `PlanAdvance.AdvanceReachesGateIn3` | metis_head/brain.py:1447-1462 | three advances per step always reach a waiting gate, no decision taken on the way |
| `PlanLife.OutsideKeeps` | metis_head/reducer.py:385-442 | reviews, new intents, single executions and moves on other plans leave this plan's invariant in place |
| `PlanLife.QueueDirect` | metis_head/brain.py:1246-1286 | the queue handler, called at any time, keeps the invariant and decides nothing; it answers nothing queued or leaves less to do |
| `PlanLife.ExecuteDirect` | metis_head/brain.py:1289-1349 | so does the execution handler |
| `PlanBinding.BindingNotBack` | metis_head/brain.py:1422-1444 | the binding handler, called at any time, undoes nothing and decides nothing, also when it binds a step again or finds nothing to bind |
| `PlanLife.WholeLifeBounded` | metis_head/brain.py:1246-1462 | guided advances, direct calls of the three handlers, reviews and other events in any order: the work left never rises and at most three moves per step take one |
| `PlanLife.ApprovalEstablishes` | metis_head/reducer.py:461-487 | approving any well-shaped plan no step of which was worked on establishes the invariant, its steps as they were |
| `PlanCompletion.CompleteIff` | metis_head/tool_plan_runner.py:9-71 | called complete exactly when every eligible step is approved and executed, or waits for a result behind steps none of which has run |
| `PlanCompletion.CompleteMeansDoneIff` | metis_head/tool_plan_runner.py:25-71 | called complete means every eligible step approved and executed, exactly unless the first eligible step waits for a result with its proposal pending |
| `PlanCompletion.NoPrematureCompletion` | metis_head/tool_plan_runner.py:86-101 | with an eligible step before each waiting one, complete means done: nothing pending is skipped |
| `PlanCompletion.DoneMeansComplete` | metis_head/tool_plan_runner.py:71 | a plan whose steps are all done is called complete |
| `PlanCompletion.PrematureCompletion` | metis_head/tool_plan_runner.py:96-101 | the failing family: a lone waiting step is called complete while pending |
| `PlanCompletion.AdvanceMayStall` | metis_head/tool_plan_runner.py:86-93 | after a step whose receipt cannot be bound the runner announces a binding and the handler makes none |
| `TaskPlanner.PlannerShape` | metis_head/tool_task_planner.py:64-132 | every plan the planner builds, for any registry, has increasing step ids, arguments that re-validate, and only read-only steps before a waiting one |
| `PlanStalls.AnnouncedBindingMadeIff` | metis_head/brain.py:1379-1444 | an announced binding is made exactly when some step that wants one has a usable receipt up to it; otherwise the advance changes nothing |
| `PlanStalls.AnnouncedBindingGainsIff` | metis_head/brain.py:1379-1444 | the work left drops by it exactly when an eligible step that waited gets a result |
| `PlanStalls.MoveIsLogged` | metis_head/brain.py:1246-1462 | each handler changes the governance state by logging events only, so what holds after every log holds after every run of handlers |
| `PlanFaults.StallReached` | metis_head/brain.py:2267-2274 | a log that reaches an announced binding that is never made, with executors that always return something |
| `PlanFaults.FetchThenSummarize` | metis_head/tool_registry.py:222-233 | such a plan with the registered tools: a proposal-only fetch, then a summary of a file no step reads |
| `TaskPlanner.WaitsIff` | metis_head/tool_plan_runner.py:96-101 | the summarizing step waits for a result exactly when the marker is within the 240 characters kept of its text |
| `TaskPlanner.PlannerSourcesIff` | metis_head/tool_task_planner.py:64-86 | for every registry and task, the plan gives each waiting step an eligible step before it exactly unless a summary can be planned, its kept text holds the marker, and neither the status nor the file step can be planned |
| `TaskPlanner.PlannerSourcesForTask` | metis_head/tool_task_planner.py:64-86 | for a registry that takes these arguments the condition is on the task alone: a summary is asked for, no file is named, no repository status is asked for, and the task's own text holds the marker |
| `PlanFaults.SummaryNeverMissed` | metis_head/tool_plan_runner.py:9-71 | for such a task, while the summary's proposal is pending, the plan is called complete exactly when all its other eligible steps are done |
| `PlanFaults.CompleteTooEarly` | metis_head/brain.py:1246-1286 | from task to fault: planned, approved and queued, a task that asks for such a summary only is called complete with its proposal pending |
| `PlanFaults.QuotingTaskCompletesTooEarly` | metis_head/tool_task_planner.py:72-77 | one task that does: `summarize <requires approved x>` |
| `TaskPlanner.ApprovalStarts` | metis_head/reducer.py:461-487 | approving a plan of a log whose plans come from the planner establishes the invariant of guided advance, its steps still those planned |
| `TaskPlanner.BuildCandidates` | metis_head/tool_task_planner.py:64-86 | the branch-by-branch list equals the specification |
| `PlanGuided.GuideCompletes` | metis_head/tool_plan_runner.py:9-71 | approving what the runner waits for and advancing otherwise, one turn for each thing left to do or to approve brings a plan with no denied proposal to where it is called complete |
| `PlanGuided.GuidedToDoneIff` | metis_head/brain.py:1447-1510 | from task to end: a planner-built plan, approved and so guided for four turns per step, is called complete, with every eligible step approved and executed if and only if the task does not wait in vain |
| `PlanHandlers.PlanDesk.QueueToolPlanSteps` | metis_head/brain.py:1246-1286 | handler equals specification, partial progress on failure included |
| `PlanHandlers.PlanDesk.RequestToolPlanExecution` | metis_head/brain.py:1289-1349 | handler equals specification, partial progress on failure included |
| `PlanHandlers.PlanDesk.PlanResultBindings` | metis_head/brain.py:1379-1419 | the loop with its running source computes the specification |
| `PlanHandlers.PlanDesk.BindToolPlanResults` | metis_head/brain.py:1422-1444 | handler equals specification |
| `PlanHandlers.PlanDesk.AdvanceToolPlan` | metis_head/brain.py:1447-1462 | handler equals specification, so that `NeverPastAReview` holds of it |
| `AccountRoutingProofs.MentionsOk` | metis_head/account_routing.py:116-135 | accepted spans are pairwise disjoint and each is an occurrence of a label or alias |
| `AccountRoutingProofs.EveryMatchCovered` | metis_head/account_routing.py:123-135 | every match the search reports overlaps an accepted span: nothing recognised is dropped |
| `AccountRoutingProofs.LongerLabelsFirst` | metis_head/account_routing.py:119-127 | a label match not accepted gave way to a label at least as long |
| `AccountRoutingTheorems.DecideExactly` | metis_head/account_routing.py:137-182 | which list a profile ends in, decided by its mentions alone, not by their order; with a sole profile exactly one account is left and it alone is matched |
| `AccountRoutingTheorems.ResolverDrawsFromAvailable` | metis_head/account_routing.py:81-182 | matched, excluded and ambiguous profiles all come from those available |
| `AccountRoutingTheorems.ExcludedNeverMatched` | metis_head/account_routing.py:141-149 | an account mentioned in an exclusion scope anywhere is neither matched nor offered |
| `AccountRoutingTheorems.MatchedExactly` | metis_head/account_routing.py:147-167 | with distinct labels, in a matched answer a profile is matched exactly when words that are its alone are said outside every exclusion and no mention excludes it |
| `AccountRoutingTheorems.MentionOwners` | metis_head/account_routing.py:103-135 | the owners of a mention are exactly the profiles its words stand for |
| `AccountRoutingTheorems.OffersInLabelOrder` | metis_head/account_routing.py:129-167 | a shared alias said alone is answered with a question that offers its owners in the order of their labels |
| `AccountResolver.AliasOwners` | metis_head/account_routing.py:103-114 | the table lists every alias with exactly the profiles that have it |
| `AccountResolver.SortedAliases` | metis_head/account_routing.py:129 | the rows in order of length, ties in any order, the owners of each in the order of their labels |
| `AccountResolver.ResolveAccountLabels` | metis_head/account_routing.py:81-182 | the loops compute the specified resolution; a sole profile is the only account outside every exclusion; only the order of aliases of one length and of owners with one label is left open, as the source leaves it to a set |
| `CalendarPaging.ListEvents` | metis_head/connectors/calendar.py:62-160 | refused exactly for an invalid request; else the first event of each calendar, series and occurrence in the order read, up to the bound, stably sorted; untruncated means every chain of pages was followed to its end and each event on it has one listed that agrees in these three; truncated only at a bound, with the token to go on with |
| `CalendarPaging.ReadCalendar` | metis_head/connectors/calendar.py:99-139 | one calendar's chain of pages: each asked for with the token of the one before, at most the allowed number |
| `CalendarPaging.AddItems` | metis_head/connectors/calendar.py:115-129 | one page's items: of those that agree in calendar, series and occurrence the first, stopped at the bound, refused when one does not parse |
| `CalendarPaging.SortedInOrder` | metis_head/connectors/calendar.py:144 | the result is ordered by the sort key |
| `CalendarPaging.SortedSame` | metis_head/connectors/calendar.py:144 | and is a permutation of what was read |
| `GoogleAccess.ListCalendars` | metis_head/connectors/google_access.py:219-286 | page size between 1 and 250 on every call, asked for with the token of the page before; the granted calendars read, each once, within the bound; untruncated means complete, otherwise with the token to go on with |
| `GoogleAccess.GuardExactly` | metis_head/connectors/google_access.py:298-311 | a listing passes the guard exactly when each calendar named may be read |
| `GoogleAccess.CheckCalendars` | metis_head/connectors/google_access.py:298-311 | the guard's two loops compute the specification |
| `GoogleAccess.RestrictedExactly` | metis_head/connectors/google_access.py:200-217 | the narrowed broker reads exactly the granted calendars asked for, of the accounts asked for |
| `GoogleAccess.RestrictNarrowsIff` | metis_head/connectors/google_access.py:200-217 | it reads no more than the original exactly when what is asked for was selected there or no selection was enforced; grants are never widened |
| `GoogleAccess.RestrictionWidens` | metis_head/connectors/google_access.py:200-217 | a case that occurs: granted two calendars, selected one, restricted to the other, which can then be read |
| `SessionEffects.LegalInto` | metis_head/conversation/session.py:47-61 | from which stages each stage can be reached: any open turn may be cancelled or fail, and each other stage has its own ways in |
| `SessionEffects.CancelExactly` | metis_head/conversation/session.py:343-357 | what a cancellation writes and answers: `Cancelled` for each open turn it is for and the new generation, or the generation there is, or an error and nothing |
| `SessionEffects.CloseExactly` | metis_head/conversation/session.py:359-366 | closing cancels every open turn, forgets history and pending request, and keeps client and context |
| `SessionEffects.MoveExactly` | metis_head/conversation/session.py:265-295 | a move writes just the stage and code given to the current turn; a late one writes nothing and is answered with whether the turn ended in that very stage |
| `SessionEffects.EndExactly` | metis_head/conversation/session.py:297-319 | ending as completed or failed is a move; ending as cancelled raises the generation, and a late one answers false |
| `SessionEffects.CancelledIsRecorded` | metis_head/conversation/session.py:270-285 | after a cancellation the turn's token is answered true when it asks for CANCELLED again and false for any other end |
| `SessionEffects.BeginFails` | metis_head/conversation/session.py:181-201 | why no turn begins, in the order it is looked at |
| `SessionEffects.BeginExactly` | metis_head/conversation/session.py:181-208 | the turn that begins, its stage and generation, and the message that begins it |
| `SessionEffects.CommitExactly` | metis_head/conversation/session.py:321-341 | words are kept for the current turn only, under their role, newest last in the bounded history |
| `SessionEffects.CleanMessageExactly` | metis_head/conversation/session.py:417-426 | what is stored is the text without the space around it, refused when blank or longer than allowed |
| `SessionEffects.PendingExactly` | metis_head/conversation/session.py:247-263 | the pending request is stored stripped or cleared, and only an active session has one |
| `SessionEffects.CreateExactly` | metis_head/conversation/session.py:157-179 | a new session has generation 0, nothing said or done, and the normal form of its context |
| `SessionEffects.CreateFails` | metis_head/conversation/session.py:157-179 | why no session is created, each reason if and only if |
| `SessionEffects.OldestIsFirst` | metis_head/conversation/session.py:521-525 | of the closed sessions updated longest ago the one stored first makes room |
| `TurnOutcomes.EndsOnlyAsAsked` | metis_head/conversation/session.py:265-366 | a turn that ended along a run ended as some step of the run asked: it fails only by a move or end that asked for failure, and is cancelled only by a cancellation |
| `ContextEffects.ScalarExactly` | metis_head/conversation/session.py:433-441 | blank text is no text, other text is kept stripped if not longer than 512 |
| `ContextEffects.CleanListIff` | metis_head/conversation/session.py:443-455 | a list is refused exactly when a text is too long or more than the bound are distinct, and else has each once |
| `ContextEffects.CleanListInOrder` | metis_head/conversation/session.py:443-455 | in the order in which they first come |
| `ContextEffects.NormalizeIff` | metis_head/conversation/session.py:432-484 | when a context is refused: if and only if a field does not fit, the primary account is not selected, or calendars are given for an account that is not |
| `ContextEffects.NormalizeFields` | metis_head/conversation/session.py:432-484 | each field of the form kept comes from that field of the one given |
| `ContextEffects.UpdateExactly` | metis_head/conversation/session.py:210-245 | an update replaces the fields it names, forgets the history when asked to, and touches nothing else |
| `PlaybackOutcomes.EnqueueAnswers` | metis_head/audio/playback.py:91-117 | what becomes of audio handed in, each answer under its own condition, in the order it is looked at |
| `PlaybackOutcomes.EnqueueExactly` | metis_head/audio/playback.py:91-117 | queued audio is a new item, last in its client's queue; otherwise nothing that waits, plays or is kept changes |
| `PlaybackOutcomes.PollExactly` | metis_head/audio/playback.py:119-144 | a waiting command, the oldest first; nothing while the client plays; else the first entry still accepted, all before it dropped and no other |
| `PlaybackOutcomes.AckAnswers` | metis_head/audio/playback.py:146-181 | an acknowledgement is accepted if and only if the item's client repeats the recorded end, starts current work whose turn it is, or ends what it plays, completed only after started |
| `PlaybackOutcomes.AckExactly` | metis_head/audio/playback.py:146-181 | what an accepted one writes: the state reported, the code cut to 256, the client's slot freed; a repeated or refused one writes nothing |
| `PlaybackOutcomes.RememberExactly` | metis_head/audio/playback.py:265-270 | a tombstone only rises and becomes the newest; the others keep their order, the oldest goes when there are too many |
| `PlaybackOutcomes.RecordExactly` | metis_head/audio/playback.py:237-255 | an ended item is the newest of the terminal record; when it is too long the oldest goes, and its item with it |
| `PlaybackOutcomes.CancelledInOrder` | metis_head/audio/playback.py:192-214 | what was cancelled is listed in the order it was queued |
| `PlaybackOutcomes.AppendExactly` | metis_head/audio/playback.py:257-263 | a command waits behind the others, once per kind and item; of too many the newest are kept |
| `HandlerOutcomes.ConcludeExactly` | metis_head/brain.py:2329-2346 | for each outcome of the voice the literal stage and code the turn ends in |
| `HandlerOutcomes.FinishSpoken` | metis_head/brain.py:2320-2346 | a reply to be spoken is committed first, and its turn then goes where speech leads |
| `HandlerOutcomes.FinishSilent` | metis_head/brain.py:2320-2346 | a reply not to be spoken completes its turn and touches no audio |
| `HandlerOutcomes.FinishRefused` | metis_head/brain.py:2320-2346 | a reply is a conflict when its turn is not current and raises when its text is none, and changes nothing then |
| `HandlerOutcomes.FinishElsewhere` | metis_head/brain.py:2329-2339 | a reply that comes in any other stage raises, with its text kept already |
| `HandlerOutcomes.SpeechLeaves` | metis_head/brain.py:2283-2317 | what speech does to artifacts, queue and turn for each outcome: bound to the turn, queued under its session for its client, and nothing else |
| `HandlerOutcomes.HeardExactly` | metis_head/brain.py:3535-3539 | a transcript is the user's message of its turn, which is thought about next |
| `HandlerOutcomes.HeardLate` | metis_head/brain.py:3535-3539 | one of a turn past that is kept, and an error unless the turn is being thought about |
| `HandlerOutcomes.ReportExactly` | metis_head/brain.py:2888-2904 | an accepted report moves the item's turn to the stage reported if it is current, with its code; a repeat or a cancellation moves nothing |
| `HandlerOutcomes.ReportRefused` | metis_head/brain.py:2877-2892 | a report about an unknown item, or one the queue refuses, is a conflict and leaves the turn alone |
| `HandlerOutcomes.CancelAllExactly` | metis_head/brain.py:376-386 | a session's turns are cancelled first, then its audio through the generation that was left |
| `HandlerOutcomes.CloseAllExactly` | metis_head/brain.py:389-398 | closing takes all its audio, of whatever generation |
| `HandlerOutcomes.PreviewExactly` | metis_head/brain.py:2937-2966 | a preview with nothing queued fails its turn with the code for the outcome |
| `GovernanceEffects.ReviewExactly` | metis_head/reducer.py:385-412 | "approved" approves the pending proposal named, "denied" denies it, any other word changes nothing; the receipt says the same |
| `GovernanceEffects.ReviewOfNothing` | metis_head/reducer.py:385-412 | a review that names no proposal changes nothing |
| `GovernanceEffects.PlanReviewExactly` | metis_head/reducer.py:461-487 | the same for the first plan with the id named, the word taken in lower case |
| `GovernanceEffects.PlanReviewTraces` | metis_head/reducer.py:461-487 | a decided plan was decided by one review of the log, in that very word, and was pending until then |
| `GovernanceEffects.IntentFailsIff` | metis_head/reducer.py:325-358 | an intent raises exactly when it has a policy and nothing names its class |
| `GovernanceEffects.IntentExactly` | metis_head/reducer.py:325-358 | an intent that names a tool, or acts in agent mode, becomes one pending proposal of exactly what was asked |
| `GovernanceEffects.IntentIgnored` | metis_head/reducer.py:325-358 | any other intent proposes nothing |
| `GovernanceEffects.MemoryExactly` | metis_head/reducer.py:361-382 | a request to remember becomes a memory proposal without a tool, and no other operation proposes anything |
| `GovernanceEffects.ExecutionExactly` | metis_head/execution.py:24-60 | a request files one receipt, last, with the status, output and error that the proposal's review and tool call for |
| `GovernanceEffects.ProposalIdExactly` | metis_head/proposals.py:45-47 | a proposal is numbered from one in at least four digits, and named by ten letters of the digest of its place, class and intent |
| `GovernanceEffects.ReceiptIdExactly` | metis_head/execution.py:10-12 | a receipt likewise, by its place, proposal, status and time |
| `GovernanceEffects.ReceiptIdsNeverRepeat` | metis_head/execution.py:10-12 | receipt ids never repeat along a log, whatever the digest is |
| `GovernanceEffects.ModeIsLastSet` | metis_head/reducer.py:111-143 | agent mode is what the last use of the band button set it to |
| `GovernanceEffects.NothingExternal` | metis_head/reducer.py:33-88 | along every log the state says that nothing external was executed |
| `PlanEffects.StepQueueExactly` | metis_head/reducer.py:490-524 | an approved plan takes the entries of a queue event and changes in nothing else; any other plan is left alone |
| `PlanEffects.QueuedLast` | metis_head/reducer.py:501-513 | of several entries for one step the last decides |
| `PlanEffects.QueuedIds` | metis_head/reducer.py:501-513 | the ids kept on a plan: the old ones and each new one once |
| `PlanEffects.PlanExecutionExactly` | metis_head/reducer.py:527-558 | the same for executions |
| `PlanEffects.BindingExactly` | metis_head/reducer.py:561-600 | the first plan named takes the bindings, whatever its review says |
| `PlanEffects.BoundLast` | metis_head/reducer.py:571-593 | a pending proposal takes the arguments of the last binding that names it |
| `PlanEffects.BoundUnnamed` | metis_head/reducer.py:571-593 | a proposal no binding names, or not the one found by its id, stays as it was |
| `PlanEffects.BoundCount` | metis_head/reducer.py:571-593 | the count grows by one for each step each binding writes to |
| `PlanAnswers.AnswerIff` | metis_head/tool_plan_runner.py:9-71 | each of the eight answers, if and only if over the plan's review and how its steps stand: missing proposals first, then results, reviews, executions, denials |
| `PlanAnswers.AnswerNames` | metis_head/tool_plan_runner.py:21-71 | the steps an answer names are exactly those it is about, in plan order, each with its own proposal |
| `PlanAnswers.NeverPastAReview` | metis_head/brain.py:1447-1462 | when a guided advance issues a receipt, no step of the plan awaits a review or a result it could be given |
| `PlanWork.ProposalEventExactly` | metis_head/tool_registry.py:356-383 | the intent event for a tool: refused when the arguments are, else naming the tool, the arguments kept and what its manifest says |
| `PlanWork.QueueNextExactly` | metis_head/brain.py:1247-1275 | a working step without a proposal is proposed with its own tool and arguments; any other is passed over |
| `PlanWork.ExecutionEventExactly` | metis_head/brain.py:1543-1564 | nothing runs for a proposal not approved, or whose tool neither only reads nor is a harmless dry run |
| `PlanWork.CandidateIff` | metis_head/brain.py:1290-1316 | a step is executed when its own proposal is approved and it has no receipt |
| `PlanWork.ReceiptForExactly` | metis_head/brain.py:1352-1362 | a step's receipt: the one it names, or the newest for its proposal |
| `PlanWork.BindingsExactly` | metis_head/brain.py:1379-1419 | one binding for each step that wants one and has a result up to it, from the last such result, in plan order |
| `PlanWork.BindingFromExactly` | metis_head/brain.py:1365-1419 | what a binding says: the source step's summary, cut to 900 characters, for the step's own proposal |
| `PlanWork.AnswersExactly` | metis_head/brain.py:1247-1445 | what the three handlers answer, each answer under its own condition |
| `PlannerSteps.CandidatesExactly` | metis_head/tool_task_planner.py:64-86 | the steps of a task, told by the words it holds, in a fixed order, and an outline when there is none |
| `PlannerSteps.PlannedStepExactly` | metis_head/tool_task_planner.py:89-132 | a candidate's tool and reason, the arguments validation keeps, and blocked without a tool or with arguments it refuses |
| `PlannerSteps.StatusExactly` | metis_head/tool_task_planner.py:89-132 | only a dry run outside agent mode needs no proposal; a tool that is merely proposed for later says so |
| `AccountRoutingAnswers.AnswerIff` | metis_head/account_routing.py:137-182 | each status, if and only if over what is named and unclear outside exclusions, the request, and whether exactly one account is left |
| `AccountRoutingAnswers.GrantedExactly` | metis_head/account_routing.py:147-182 | matched is what is named outside every exclusion, or the only account left, and nothing otherwise |
| `AccountRoutingAnswers.OfferedLeft` | metis_head/account_routing.py:167-182 | with nothing unclear said, the offer is exactly the accounts left, in their order |
| `AccountRoutingAnswers.OfferedUnclear` | metis_head/account_routing.py:155-166 | otherwise each account named or unclear, once |
| `AccountRoutingAnswers.ResolveIff` | metis_head/account_routing.py:81-102 | calling off and having no accounts come first; then the mentions decide |
| `AccountRoutingAnswers.MatchedInOrderSaid` | metis_head/account_routing.py:137-154 | accounts are granted in the order in which the message first names them |
| `AccountRoutingAnswers.RequestIff` | metis_head/account_routing.py:72-78 | which messages need an account, told by their words |
| `AccountRoutingAnswers.SaidIsHeard` | metis_head/account_routing.py:103-135 | wherever a label or alias is said, an accepted mention takes a word of it or of an overlapping occurrence of the same words: nothing said of an account goes unheard |
| `AccountRoutingAnswers.ExclusionIff` | metis_head/account_routing.py:137-146 | a place is in an exclusion when one of the five words comes before it with no break from there on |
| `CalendarPaging.KeyExactly` | metis_head/connectors/calendar.py:221-223 | two events have one key exactly when they agree in calendar, series and occurrence |
| `CalendarPaging.BothListed` | metis_head/connectors/calendar.py:115-129 | two instances of one series, or two calendars' events, are listed by two different events |
| `ToolArguments.ValidateExactly` | metis_head/tool_registry.py:288-321 | which arguments are refused and what is kept of the others |
| `ToolArguments.SanitizeExactly` | metis_head/tool_registry.py:272-285 | what becomes of each argument: kept, redacted or left out |

## Left out

- HTTP routing, OAuth, keyring, subprocesses, sockets and file code: transports and executors are function parameters.
- Speech, WAV and spectrum code: only whether synthesis raised, spoke, and which stored audio it refers to matters here.
- Safe exports of sessions: copies for display. A context's fields are text: the refusal of other types is not modelled, and all refusals of a context are one error.
- Turn timestamps, message timestamps and wall-clock fields of items: stored, never read by the modelled logic.
- Unicode case folding and regular expressions: text is stripped of four blank characters and lowered on A to Z; the planner's path and URL patterns, the resolver's tokenizer and its cancel phrases are inputs.
- The other state fields of the reducer (LEDs, panel, adapters, module health, readiness): covered by the replay theorem as an arbitrary function, not modelled one by one.
- The `execution_allowed` flags: constantly false in every record built here.
- Loops of the two spec-level helpers `Strip` and `DropTombstone`: modelled on values only.
- `SessionStores.SessionStore` methods promise separation of records and equality with the specification; the bounds and the one-open-turn invariant come from the lemmas about the specification.
- PlanLife.WholeLifeBounded: raw step-queue, execution and binding events posted for this very plan are excluded by `Outside`, because such an event can name any proposal and any receipt; the three handlers that build these events are included.
- The artifact store and the session store read different clocks; the handlers here take one reading for both, which no result depends on.
- Locks: one lock-protected operation is one step, and the class methods are sequential.
- `CalendarPaging.ListEvents`: the converse of completeness is not claimed, because a listing that fills its bound with the very last item is marked truncated; order is by sort key only, not by time across zones; resuming from the continuation token is not modelled.
- Credential-store restoration and the Gmail and contacts adapters.
- A guarantee that cancelling a session also cancels a running orchestration: the handler pops the coordinator before it raises the generation, so only commit rejection is proved.
- The ledger and the orchestration package are not part of this model.
