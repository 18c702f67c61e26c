# Verification of the Nanasa daemon's durable protocols

Nanasa is a local orchestrator daemon: it supervises teams of coding agents that run in terminals. What
is hard about it is durable and concurrent. Transactions interleave with waits, the daemon may die after
any durable step, processes share lock files, and text is cut, quoted and hashed. This project models those
protocols in Dafny and proves what they keep over whole runs.

- `GoalModel`, `GoalMachine`, `GoalTheorems`, `GoalRequests`, `GoalFinality`, `GoalRecovery`, `GoalCounterexample` and
  `GoalService`: goals, delegations, reports, decisions, review wake-ups and recovery budgets. The model is a
  machine of atomic steps in which a reconcile pass uses rows it read earlier; `GoalService` is the service
  itself, with its loops and rollbacks, proved to do what the machine does. Two writes of the pass are modelled
  both as they are and with a re-read of the goal first. Finished goals stay finished with the re-read; as
  written they do exactly under the conditions that `GoalFinality` gives, and `GoalCounterexample` shows two
  runs where they do not.
- `EventLog`, `LiveEvents` and `EventStream`: paged replay of the event log, spliced with live events. A listener
  that appends while it is told of an event makes listeners that subscribed later hear its own event first: the
  delivery dispatcher does so at `apps/daemon/src/delivery-dispatcher.ts:59-62` when it rejects an expired
  message, and `apps/daemon/src/store.ts:6091-6093` announces at once. So events are announced in any order here,
  `WholeIffSeamless` says exactly which orders lose none, and `ReversedLoses` what the other order does.
- `Preparation` and `PreparationService`: preparing a team, with an intent on record before every effect. The
  daemon has a finite number of durable steps to live, any number of times over.
- `Inbox` and `InboxScheduler`: pasting one input at a time into the Foreman's terminal.
- `Conversation` and `ConversationService`: questions to team members, their one action and their one reply.
- `OperationQueue`, `RunObservation`, `CheckoutSwitch` and `RunRecovery`: the run coordinator.
- `StatusReducer`: the agent status as a fold over observations.
- `Sequencer`: lock-file numbering by many processes. The class form removes a lock it did not take;
  `ClassSafeIff` says when that is harmless and `ClassIssuesTwice` shows when it is not.
- `Overlay`: committing a generated tree and its ledger.
- `Canonical` and `RepositoryTrust`: the text that a trust digest is taken of, and what the digest determines.
- `ShellQuote` and `TextTail`: quoting a command line, and keeping the last lines and bytes of a screen.

Modelling decisions. A record's id is its row number. Time is a natural number of milliseconds that never
goes back. Hashes are injective. A run has one row, run ids are never reused, and a run that is over is never
current again. Facts of other tables, and what every awaited call returns, are inputs that range over
everything. Creating an agent action runs its authorization in the same transaction. A save never fails on its own.

## Model

| member | source | states |
|---|---|---|
| `GoalTheorems.ReachableSound` | apps/daemon/src/foreman-goal-service.ts:766-846 | In every state of every run, with any operation falling between the read and the write of a reconcile pass, all table invariants hold; with the re-read before the policy write, turns used equal the reviews created |
| `GoalTheorems.CompletedGoalIsCertified` | apps/daemon/src/foreman-goal-service.ts:784-819 | A completed goal owns a completed delegation and no active one; for each completed one the last ready report is the accountable member's and the latest review of that same candidate by somebody else is approved with evidence |
| `GoalTheorems.ActiveTeamsNeverShare` | apps/daemon/src/foreman-goal-service.ts:950-969 | Two active delegations never hold the same team or the same checkout |
| `GoalTheorems.OfferIsFresh` | apps/daemon/src/foreman-goal-service.ts:1559-1577 | A handoff that passes its own re-read writes exactly the row it read before the await, for a goal that is not finished |
| `GoalTheorems.TurnsStayInBudget` | apps/daemon/src/foreman-goal-service.ts:1806-1841 | With the re-read, reviews created equal turns used, never more than granted, at most one outstanding |
| `GoalTheorems.RequestsRecordOnce` | apps/daemon/src/foreman-goal-service.ts:1010-1013 | Over any run a request key names at most one delegation and at most one report |
| `GoalRequests.ProposalsAndQuestionsRecordOnce` | apps/daemon/src/foreman-goal-service.ts:451-461 | Over any run a request key names at most one goal, and at most one question about a goal and delegation |
| `GoalTheorems.StepSound` | apps/daemon/src/foreman-goal-service.ts:1873-1977 | One step of any kind, pass or transaction, keeps every invariant |
| `GoalFinality.FinishedStays` | apps/daemon/src/foreman-goal-service.ts:824-838 | With the re-read, completed and cancelled are absorbing over every continuation, and what certified a completed goal still does |
| `GoalFinality.FinishedStepStays` | apps/daemon/src/foreman-goal-service.ts:1883-1884 | With the re-read, no single step touches a finished goal, its delegations or their evidence |
| `GoalFinality.AsWrittenStaysIff` | apps/daemon/src/foreman-goal-service.ts:1879-1891 | As written, a step leaves a finished goal finished if and only if it is not a policy write of a listed row nor a wake-up beyond the budget |
| `GoalFinality.AsWrittenTurnsIff` | apps/daemon/src/foreman-goal-service.ts:1882-1891 | As written, a step keeps turns and reviews equal if and only if it is not the policy write of a row whose turn count is out of date |
| `GoalFinality.BlindOfferIff` | apps/daemon/src/foreman-goal-service.ts:1960-1968 | Writing the queued row back without the re-read is safe if and only if the goal is unfinished and team and checkout are still free |
| `GoalFinality.CheckRevivesIff` | apps/daemon/src/foreman-goal-service.ts:2045-2049 | A progress check revives a finished goal if and only if its review budget is used up and no review is outstanding |
| `GoalFinality.VisitRevivesIff` | apps/daemon/src/foreman-goal-service.ts:1878-1912 | The pass leaves a finished goal it visits finished if and only if the visit is not one of the reviving ones |
| `GoalCounterexample.PolicyWriteRevivesACancelledGoal` | apps/daemon/src/foreman-goal-service.ts:1882-1884 | A concrete run in which a goal cancelled during the await is blocked again |
| `GoalCounterexample.PolicyWriteLosesATurn` | apps/daemon/src/foreman-goal-service.ts:1882-1884 | A concrete run in which a review created during the await is no longer counted |
| `GoalRecovery.RecoveryStaysInBudget` | apps/daemon/src/foreman-goal-service.ts:1731-1804 | In every reachable state recovery attempts match the restarts authorized and respect the incident limit, the goal limit and the cooldown |
| `GoalRecovery.RestartLimits` | apps/daemon/src/foreman-goal-service.ts:1774-1794 | Spelled out: restarts of a member within its incident limit, of a goal within its total, two of one member a cooldown apart |
| `GoalService.ForemanGoalService.ControlGoal` | apps/daemon/src/foreman-goal-service.ts:766-846 | The method, its loops and its rollback do what the specification of control says, on every input |
| `GoalService.ForemanGoalService.MayAccept` | apps/daemon/src/foreman-goal-service.ts:788-813 | Decides exactly whether a delegation has current, certified completion evidence |
| `GoalService.ForemanGoalService.ReviewApproved` | apps/daemon/src/foreman-goal-service.ts:1162-1184 | Decides exactly whether the latest independent review of the candidate approves it with evidence |
| `GoalService.ForemanGoalService.CompleteDelegations` | apps/daemon/src/foreman-goal-service.ts:784-819 | Completes all delegations of the goal, or none of them |
| `GoalService.ForemanGoalService.Resolve` | apps/daemon/src/foreman-goal-service.ts:1347-1408 | An answer is recorded only at the revision it was asked at, moves its delegation, and wakes the Foreman once |
| `GoalService.ForemanGoalService.Delegate` | apps/daemon/src/foreman-goal-service.ts:1003-1103 | Records a delegation once per request, within budgets and on a free team, or changes nothing |
| `GoalService.ForemanGoalService.Question` | apps/daemon/src/foreman-goal-service.ts:1311-1336 | Records a question once per request of a running goal, or changes nothing |
| `GoalService.ForemanGoalService.Propose` | apps/daemon/src/foreman-goal-service.ts:654-760 | Records a goal once per request within the capacity, approved at once when coordination is autonomous, or changes nothing |
| `GoalService.ForemanGoalService.Report` | apps/daemon/src/foreman-goal-service.ts:1185-1309 | Records a report once, moves the delegation and the goal, and wakes the Foreman, or changes nothing |
| `GoalService.ForemanGoalService.MayReport` | apps/daemon/src/foreman-goal-service.ts:1200-1242 | Decides exactly what a report is refused for |
| `GoalService.ForemanGoalService.Recover` | apps/daemon/src/foreman-goal-service.ts:1731-1804 | Authorizes one recovery of the delegation that holds the team, or records nothing |
| `GoalService.ForemanGoalService.Wake` | apps/daemon/src/foreman-goal-service.ts:1806-1841 | Creates one review within the budget, or blocks the goal when the budget is used up |
| `GoalService.ForemanGoalService.VisitGoal` | apps/daemon/src/foreman-goal-service.ts:1878-1912 | The pass at one listed goal, with the row read when it began |
| `GoalService.ForemanGoalService.OfferTeam` | apps/daemon/src/foreman-goal-service.ts:1936-1973 | The handoff after the await: re-read, then write the row read before |
| `GoalService.ForemanGoalService.CheckTeam` | apps/daemon/src/foreman-goal-service.ts:2035-2058 | The progress check of a team that is due |
| `GoalService.ForemanGoalService.ListRunning` | apps/daemon/src/foreman-goal-service.ts:1873-1878 | The goals a pass goes through are those running when it begins |
| `GoalService.ForemanGoalService.Perform` | apps/daemon/src/foreman-goal-service.ts:1873-1977 | Each operation and each step of the pass does what the machine says, with the writes as they are |
| `GoalService.ForemanGoalService.Serve` | apps/daemon/src/foreman-goal-service.ts:1873-1977 | Any run of the service from empty tables, pass steps and transactions interleaved, is the run of the machine; so completed goals are certified and hold no team, and active teams never share |
| `EventStream.EventStreamSession.Converse` | apps/daemon/src/event-stream-session.ts:55-193 | For any events appended before, during and after the replay, announced in any order: the client receives events of the log after the requested sequence each once and in order, queued bytes stay within the limit, and it has everything unless it was cut off or an announcement skipped one; it has exactly the slice of the log up to the cursor if and only if none did, and in log order none does |
| `EventStream.EventStreamSession.Start` | apps/daemon/src/event-stream-session.ts:55-115 | Refuses exactly the cursors it cannot continue from; otherwise replays up to where the log stood, for a socket that is open or a session that is closed, which is exactly when the replay ends |
| `EventStream.EventStreamSession.Replay` | apps/daemon/src/event-stream-session.ts:85-96 | Each page of an open session moves the cursor, so the loop ends with the cursor at the high water mark or the session closed |
| `LiveEvents.ReplayEndsIff` | apps/daemon/src/event-stream-session.ts:85-96 | The replay loop ends if and only if the session is closed, its socket is open, or nothing is left up to its mark |
| `LiveEvents.ReplayToTheEndEndsIff` | apps/daemon/src/event-stream-session.ts:85-96 | The replay up to where the log stands ends if and only if the session is closed, its socket is open, or there is nothing to replay |
| `EventStream.EventStreamSession.SendPage` | apps/daemon/src/event-stream-session.ts:95 | One page keeps the slice, event by event as `LiveEvents.Heard` says; on a socket that is not open it sends and moves nothing |
| `EventStream.EventStreamSession.Flush` | apps/daemon/src/event-stream-session.ts:97-104 | What arrived during the replay is sent in log order, each event once |
| `EventStream.EventStreamSession.OnLiveEvent` | apps/daemon/src/event-stream-session.ts:138-151 | Holds an event while replaying, sends it afterwards, and closes the session exactly when that would exceed the limit |
| `EventStream.EventStreamSession.SendEvent` | apps/daemon/src/event-stream-session.ts:153-156 | The cursor moves exactly when the frame went out, the session is closed exactly when a new event did not fit, and the slice stays whole when nothing unsent lies before the event |
| `EventStream.EventStreamSession.Send` | apps/daemon/src/event-stream-session.ts:158-170 | A frame goes out only on an open socket of an open session within the byte limit |
| `EventStream.EventStreamSession.CloseSlowConsumer` | apps/daemon/src/event-stream-session.ts:183-193 | Closes once, keeping what was delivered |
| `EventStream.EventStreamSession.Reset` | apps/daemon/src/event-stream-session.ts:195-205 | Ends the session with at most a reset frame |
| `EventStream.EventStreamSession.Publish` | apps/daemon/src/event-stream-session.ts:51-51 | Announcing a batch in any order keeps a replaying session whole and moves a live one exactly as its order says |
| `LiveEvents.RanCaughtUp` | apps/daemon/src/event-stream-session.ts:138-170 | A live session that is neither closed nor disconnected is never behind the log |
| `LiveEvents.WholeIffUnbroken` | apps/daemon/src/event-stream-session.ts:138-156 | What a live session received is the slice up to its cursor if and only if the order its events were announced in skips none |
| `LiveEvents.WholeIffSeamless` | apps/daemon/src/event-stream-session.ts:138-170 | Over any run of a live session: each event at most once and in order always, and without a gap if and only if no announcement moves the cursor over an unsent event |
| `LiveEvents.InOrderSeamless` | apps/daemon/src/event-stream-session.ts:138-156 | A run in which every batch is announced in log order skips nothing |
| `LiveEvents.ReversedLoses` | apps/daemon/src/event-stream-session.ts:139-156 | Two events announced in the wrong order to any session that is up to date: the first is never sent, whatever follows, and resuming from the cursor does not bring it |
| `LiveEvents.FirstEventLost` | apps/daemon/src/event-stream-session.ts:139-156 | A concrete fresh session that is told of event 2 before event 1 and never sends event 1 |
| `EventStream.ResumeContinues` | apps/daemon/src/event-stream-session.ts:63-74 | A client that resumes from its cursor and is not refused continues the slice, if and only if the log was not emptied by pruning before it received anything |
| `EventLog.SliceExtendsIff` | apps/daemon/src/event-stream-session.ts:153-156 | Sending an event keeps a contiguous slice if and only if nothing unsent lies before it |
| `EventLog.SliceJoins` | apps/daemon/src/event-stream-session.ts:76-96 | Two adjacent slices are one |
| `PreparationService.ForemanOrchestrationService.Serve` | apps/daemon/src/foreman-orchestration-service.ts:304-364 | Over any number of daemon lifetimes, each dying after any number of durable steps: finished preparations never change and name their result, each stop and each start happens at most once, behind an open fence and first in line, a preparation yields at most one delegation, no two unfinished ones hold one checkout, and none is advanced more than 600 times but for deaths and escaped errors |
| `PreparationService.ForemanOrchestrationService.Reconcile` | apps/daemon/src/foreman-orchestration-service.ts:318-364 | One visit moves only its own row; a preparation with an open intent, or with a delegation on record, starts no effect |
| `PreparationService.ForemanOrchestrationService.Advance` | apps/daemon/src/foreman-orchestration-service.ts:387-687 | Every effect is preceded by its saved intent, its fence and the reservation check; an open intent starts nothing |
| `PreparationService.ForemanOrchestrationService.Resume` | apps/daemon/src/foreman-orchestration-service.ts:443-466 | A checkout assignment that took effect is completed; an open intent stops the visit |
| `PreparationService.ForemanOrchestrationService.StopRuns` | apps/daemon/src/foreman-orchestration-service.ts:556-597 | Every run of the team that required a stop when it began is over when it ends, each stopped behind its own intent |
| `PreparationService.ForemanOrchestrationService.StopOne` | apps/daemon/src/foreman-orchestration-service.ts:564-596 | Intent, effect, confirmation: on success the run is over, its stop was started once and is recorded as done |
| `PreparationService.ForemanOrchestrationService.Reassign` | apps/daemon/src/foreman-orchestration-service.ts:598-612 | On success the last effect switched the team to the target, marked pending before, after every run that required it was stopped |
| `PreparationService.ForemanOrchestrationService.Bind` | apps/daemon/src/foreman-orchestration-service.ts:613-614 | Binds the target; a team that was elsewhere was switched to it first, with its runs stopped |
| `PreparationService.ForemanOrchestrationService.EnsureCheckout` | apps/daemon/src/foreman-orchestration-service.ts:468-505 | The target is the one on record, the team's own if that is asked for or suits, or a worktree created behind the fence |
| `PreparationService.ForemanOrchestrationService.CheckTarget` | apps/daemon/src/foreman-orchestration-service.ts:506-555 | A visit goes on only with a clean linked checkout of the unchanged source repository, at the pinned commit, free of other teams and preparations, and with an open fence |
| `PreparationService.ForemanOrchestrationService.StartOne` | apps/daemon/src/foreman-orchestration-service.ts:620-655 | Intent, consent behind the fence, effect, confirmation: on success the start was made once and is recorded with its run; a launch that is withheld holds the preparation |
| `PreparationService.ForemanOrchestrationService.Staff` | apps/daemon/src/foreman-orchestration-service.ts:617-686 | An outcome is handed over only after every member of the team was seen active or its start was confirmed |
| `PreparationService.ForemanOrchestrationService.Handover` | apps/daemon/src/foreman-orchestration-service.ts:657-686 | One delegation, recorded under the preparation's own key |
| `PreparationService.ForemanOrchestrationService.ReconcileDelegation` | apps/daemon/src/foreman-orchestration-service.ts:366-385 | A preparation with a delegation on record is finished by it if and only if it matches; a mismatch is an error |
| `PreparationService.ForemanOrchestrationService.ReservedElsewhere` | apps/daemon/src/foreman-orchestration-service.ts:548-553 | Decides exactly whether another unfinished preparation has the checkout |
| `PreparationService.ForemanOrchestrationService.FindPrior` | apps/daemon/src/foreman-orchestration-service.ts:390-393 | The first unfinished preparation of a team |
| `PreparationService.ForemanOrchestrationService.Recover` | apps/daemon/src/foreman-orchestration-service.ts:338-362 | An error is retried, held or ends the preparation, as the goal's state and the error say, and is always saved |
| `Preparation.EffectsHappenOnce` | apps/daemon/src/foreman-orchestration-service.ts:570-596 | A preparation starts at most one stop per run and one start per member |
| `Preparation.DelegatesOnce` | apps/daemon/src/foreman-orchestration-service.ts:669-686 | A preparation yields at most one delegation |
| `Preparation.RequestedSound` | apps/daemon/src/foreman-orchestration-service.ts:99-171 | A request is recorded once per key and holds nothing |
| `Preparation.LiveUnstopped` | apps/daemon/src/foreman-orchestration-service.ts:557-571 | A run that still requires a stop has none on record |
| `Preparation.LiveComplete` | apps/daemon/src/foreman-orchestration-service.ts:557 | No run of the team that is not over is left out of the runs to stop |
| `InboxScheduler.ForemanInboxScheduler.Serve` | apps/daemon/src/foreman-inbox-scheduler.ts:27-53 | Over any number of lifetimes, each dying anywhere: at most one input is outstanding, an ordinary input is pasted at most once ever and a conversation result at most once into each run |
| `InboxScheduler.ForemanInboxScheduler.Dispatch` | apps/daemon/src/foreman-inbox-scheduler.ts:84-171 | One dispatch begins at most one paste, into the current run, of the oldest row queued |
| `InboxScheduler.ForemanInboxScheduler.Paste` | apps/daemon/src/foreman-inbox-scheduler.ts:116-170 | A paste begins exactly for a queued row, claimed for the run; the row counts as submitted only if the keystrokes passed the fence, and is never left writing by a daemon that lives |
| `InboxScheduler.ForemanInboxScheduler.Start` | apps/daemon/src/foreman-inbox-scheduler.ts:27-32 | An interrupted paste becomes ambiguous |
| `InboxScheduler.ForemanInboxScheduler.Blocked` | apps/daemon/src/foreman-inbox-scheduler.ts:96-101 | Decides exactly whether an input is outstanding |
| `InboxScheduler.ForemanInboxScheduler.Oldest` | apps/daemon/src/foreman-inbox-scheduler.ts:102-105 | Finds the oldest queued row by creation time and id |
| `Inbox.OneOutstanding` | apps/daemon/src/foreman-inbox-scheduler.ts:96-101 | At most one input is writing, submitted or ambiguous |
| `Inbox.PastedOnce` | apps/daemon/src/foreman-inbox-scheduler.ts:91-104 | An ordinary input is pasted at most once ever, a conversation result at most once into each run |
| `Inbox.ClaimSound` | apps/daemon/src/foreman-inbox-scheduler.ts:133-139 | Claiming with nothing outstanding and a run that is not over keeps both |
| `Inbox.MovedDrifts` | apps/daemon/src/foreman-inbox-scheduler.ts:116-139 | Other services settle a row or find it ambiguous, and never bring it nearer to delivery |
| `ConversationService.ForemanConversationService.Serve` | apps/daemon/src/foreman-conversation-service.ts:110-439 | Any sequence of steps: finished requests never change and have exactly one result, a request has at most one action and one reply, the reply from the runtime the action is pinned to, and at most 100 requests wait, 4 for one member, 16 in a thread |
| `ConversationService.ForemanConversationService.AskMember` | apps/daemon/src/foreman-conversation-service.ts:110-180 | Records a question if and only if it is new and within every capacity, pinned to the runtime that is active; a repeat finds its request |
| `ConversationService.ForemanConversationService.Thread` | apps/daemon/src/foreman-conversation-service.ts:141-154 | A follow-up joins the thread of an answered request to the same member, within the thread limit |
| `ConversationService.ForemanConversationService.Accept` | apps/daemon/src/foreman-conversation-service.ts:236-269 | A reply is recorded if and only if it comes from the addressed runtime, in time and after delivery; a repeat of the answer is accepted, another answer refused |
| `ConversationService.ForemanConversationService.CancelRequest` | apps/daemon/src/foreman-conversation-service.ts:215-235 | An open request becomes cancelled with its result and an undelivered action is withdrawn; a finished one is left alone |
| `ConversationService.ForemanConversationService.ReconcileOne` | apps/daemon/src/foreman-conversation-service.ts:355-438 | One request expires, follows its action, is cancelled, fails, or gets its one action, exactly as its row and the runtime say |
| `ConversationService.ForemanConversationService.ReconcileAll` | apps/daemon/src/foreman-conversation-service.ts:354-439 | A pass moves every open request to the state its row called for when the pass began, and creates an action exactly where one was due |
| `ConversationService.ForemanConversationService.Create` | apps/daemon/src/foreman-conversation-service.ts:404-430 | The one action of a request, pinned to the runtime that is ready now |
| `Conversation.AskedOnceAnsweredOnce` | apps/daemon/src/foreman-conversation-service.ts:64-81 | At most one action and one reply per request, the reply from the runtime the action is pinned to |
| `Conversation.OneResult` | apps/daemon/src/foreman-conversation-service.ts:270-283 | A finished request has exactly one result row |
| `Conversation.AskBounded` | apps/daemon/src/foreman-conversation-service.ts:125-136 | A new question keeps the capacities: 100 waiting, 4 per member, 16 per thread |
| `Conversation.StillBounded` | apps/daemon/src/foreman-conversation-service.ts:126-136 | Closing requests and the passage of time keep the capacities |
| `OperationQueue.Queue.Serve` | apps/daemon/src/run-runtime-coordinator.ts:614-621 | Whatever fails, at most one operation runs and they start in submission order |
| `OperationQueue.Queue.StartOne` | apps/daemon/src/run-runtime-coordinator.ts:614-615 | An operation starts exactly when it is next and all before it have settled, however they ended |
| `RunObservation.RunRuntimeCoordinator.Serve` | apps/daemon/src/run-runtime-coordinator.ts:493-574 | No run is recovered as missing unless it was missing in two passes and missing or dead on a second look; it was not seen in between if and only if no handler of such a sighting failed since the first confirmation |
| `RunObservation.RunRuntimeCoordinator.Reconcile` | apps/daemon/src/run-runtime-coordinator.ts:463-574 | A pass does to the confirmations what the specification says, also when it ends early |
| `RunObservation.RunRuntimeCoordinator.VisitRun` | apps/daemon/src/run-runtime-coordinator.ts:496-574 | One run in a pass |
| `RunObservation.PassedKeeps` | apps/daemon/src/run-runtime-coordinator.ts:493-574 | A pass over distinct runs keeps every recovery confirmed |
| `RunObservation.UndisturbedIff` | apps/daemon/src/run-runtime-coordinator.ts:559-570 | A run that was confirmed missing was never seen, nor possibly there, since its first confirmation if and only if every such sighting had its handler return |
| `RunObservation.ClearedIffHandled` | apps/daemon/src/run-runtime-coordinator.ts:498-558 | A present or indeterminate sighting clears the confirmations if and only if its handler returns |
| `RunObservation.PresentButRecovered` | apps/daemon/src/run-runtime-coordinator.ts:497-500 | Three concrete passes recover a run as missing that was present in the second, because the handler of that sighting failed |
| `CheckoutSwitch.Team.AssignGroupCheckout` | apps/daemon/src/run-runtime-coordinator.ts:334-443 | The checkout changes if and only if the assignment is admitted, every stop works and no run is left just then; a change comes after all the stops, any failure before leaves it |
| `CheckoutSwitch.WithoutExact` | apps/daemon/src/run-runtime-coordinator.ts:661-690 | A stop removes its member's runs from those that require one, and no others |
| `CheckoutSwitch.Team.StopAll` | apps/daemon/src/run-runtime-coordinator.ts:364-394 | All the runs are stopped in order, or the first failure ends it |
| `CheckoutSwitch.Team.Relaunch` | apps/daemon/src/run-runtime-coordinator.ts:401-434 | Relaunches the stopped members and says how each ended |
| `RunRecovery.Recovery.Serve` | apps/daemon/src/run-runtime-coordinator.ts:688-810 | Between two starts a run is relaunched within the attempt limit, and relaunches are a cooldown apart unless the run settled between |
| `RunRecovery.Recovery.RecoverMissingRun` | apps/daemon/src/run-runtime-coordinator.ts:688-810 | A launch happens exactly when an attempt is left, the cooldown is over and consent and policy allow it; the attempt and the cooldown are taken first, and phase and failure follow the reason |
| `CheckoutSwitch.Team.Switch` | apps/daemon/src/store.ts:2217-2254 | The assignment itself happens exactly at the expected revision with no run requiring a stop |
| `StatusReducer.AlwaysSound` | apps/daemon/src/agent-status-reducer.ts:131-187 | After any observations: changes form a chain of at most 20 ending in the current state, revisions count observations, readiness implies presence, stale means no authority, waits and tools are unique, and waits block |
| `StatusReducer.NoTurnCompletesTwice` | apps/daemon/src/agent-status-reducer.ts:668-672 | Over any stretch from any state, completions never exceed entries into working plus the turn already open |
| `StatusReducer.StuckOnlyAfterTwoProbes` | apps/daemon/src/agent-status-reducer.ts:370-390 | suspected_stuck is entered only at the second of two counted probes, working throughout, without activity between |
| `StatusReducer.OneProbeSince` | apps/daemon/src/agent-status-reducer.ts:375-379 | One counted probe means a quiet stretch since exactly that probe |
| `StatusReducer.TransitionRecorded` | apps/daemon/src/agent-status-reducer.ts:131-160 | A transition keeps the chain of changes |
| `StatusReducer.ReduceAuthorized` | apps/daemon/src/agent-status-reducer.ts:226-345 | Every observation keeps authority, staleness and readiness consistent |
| `StatusReducer.ReduceWaited` | apps/daemon/src/agent-status-reducer.ts:473-666 | Every observation keeps waits unique and blocking |
| `StatusReducer.ReduceProbed` | apps/daemon/src/agent-status-reducer.ts:370-390 | A working status has at most one counted probe |
| `Sequencer.IssuedNumbersAreDistinct` | apps/daemon/src/status-reporter-assets.ts:14-36 | Any number of processes interleaving at every file step and dying anywhere issue distinct numbers that increase in commit order: always with the hook, whose startup calls are only ever issued 1, and with the class as long as no refused call removes the lock of a call inside |
| `Sequencer.DistinctIffUninterrupted` | apps/daemon/src/status-reporter-assets.ts:23-32 | Numbers of an epoch are distinct if and only if no other epoch commits in between |
| `Sequencer.HappenExclusive` | apps/daemon/src/status-reporter-assets.ts:22-35 | A file step keeps mutual exclusion if and only if it is not a refused call of the class removing the lock of a call inside |
| `Sequencer.CommitNumbered` | apps/daemon/src/status-reporter-assets.ts:29-33 | A commit is one more than the one before |
| `Sequencer.ExclusiveThroughoutIff` | apps/daemon/src/reporter-sequencer.ts:43-46 | Mutual exclusion holds at every moment of a run if and only if no refused call of the class removes the lock of a call inside |
| `Sequencer.ClassSafeIff` | apps/daemon/src/reporter-sequencer.ts:25-46 | After an undisturbed run of the class, no continuation that disturbs nothing issues a number twice if and only if the next step does not remove the lock of a call inside |
| `Sequencer.ClassIssuesTwice` | apps/daemon/src/reporter-sequencer.ts:25-46 | A concrete interleaving in which the class form issues one number twice |
| `Overlay.GeneratedOverlayTransaction.Commit` | apps/daemon/src/generated-overlay-transaction.ts:200-285 | Wherever it ends or dies, every ledger names a complete overlay without drift and earlier overlays are untouched; repeating a committed revision changes nothing; an accepted request fails only if a file operation does or its files cannot lie beside each other |
| `Overlay.GeneratedOverlayTransaction.Install` | apps/daemon/src/generated-overlay-transaction.ts:234-284 | A new overlay appears complete before its ledger does |
| `Overlay.GeneratedOverlayTransaction.Publish` | apps/daemon/src/generated-overlay-transaction.ts:260-279 | Rename, then ledger: how far it came decides what is on disk |
| `Overlay.GeneratedOverlayTransaction.Stage` | apps/daemon/src/generated-overlay-transaction.ts:239-259 | The staged tree holds exactly the files and the ownership file |
| `Overlay.GeneratedOverlayTransaction.Check` | apps/daemon/src/generated-overlay-transaction.ts:206-224 | Decides exactly what may be staged |
| `Overlay.GeneratedOverlayTransaction.DetectDrift` | apps/daemon/src/generated-overlay-transaction.ts:171-198 | Drift is empty if and only if the tree is exactly what the ledger says |
| `Overlay.DriftOf` | apps/daemon/src/generated-overlay-transaction.ts:174-197 | A path is reported if and only if its file is missing, different or unexpected |
| `Overlay.Inventory` | apps/daemon/src/generated-overlay-transaction.ts:110-125 | Every file of the tree |
| `Overlay.GeneratedOverlayTransaction.RemoveConservatively` | apps/daemon/src/generated-overlay-transaction.ts:287-295 | If it dies between removing the tree and the ledger, the ledger is still kept if and only if none of its files is gone |
| `Overlay.LostExact` | apps/daemon/src/generated-overlay-transaction.ts:177-189 | A tree that lost files is exact if and only if it lost none of the ledger's |
| `Overlay.HalfRemovedIsIncomplete` | apps/daemon/src/generated-overlay-transaction.ts:287-295 | A concrete overlay whose removal was cut short: its file is gone and the ledger still names it |
| `Overlay.StagedExact` | apps/daemon/src/generated-overlay-transaction.ts:239-256 | A staged tree has no drift |
| `RepositoryTrust.ParseUndoesCanonical` | apps/daemon/src/repository-trust-service.ts:40-49 | A parser reads the canonical text back to the value with its keys in printing order |
| `RepositoryTrust.CanonicalIsUnambiguous` | apps/daemon/src/repository-trust-service.ts:40-49 | Equal texts mean equal values up to key order, and conversely when no two keys tie in the comparison |
| `RepositoryTrust.TextsDetermineCanon` | apps/daemon/src/repository-trust-service.ts:40-49 | Texts are equal if and only if the values with sorted keys are |
| `RepositoryTrust.LoneUndefinedCollides` | apps/daemon/src/repository-trust-service.ts:41 | The one collision: an array of one undefined element prints as the empty array |
| `RepositoryTrust.TiesShow` | apps/daemon/src/repository-trust-service.ts:43-44 | Where two keys tie, reordered objects print differently |
| `RepositoryTrust.DigestDeterminesLaunch` | apps/daemon/src/repository-trust-service.ts:56-71 | Equal digests mean the same launch up to the order of environment names and generated identities and of keys inside the structured values; and conversely when no two keys tie in the comparison |
| `RepositoryTrust.DigestDeterminesText` | apps/daemon/src/repository-trust-service.ts:56-71 | Digests are equal if and only if the launches agree and their structured values print alike |
| `RepositoryTrust.SortForgetsOrder` | apps/daemon/src/repository-trust-service.ts:63-65 | Sorted lists are equal if and only if they hold the same names equally often |
| `Canonical.ParseUndoesRender` | apps/daemon/src/repository-trust-service.ts:40-49 | Printed text parses to its value whatever follows it |
| `Canonical.UnitsUndone` | apps/daemon/src/repository-trust-service.ts:45-48 | String escaping is undone code unit by code unit |
| `Canonical.CanonicalRenders` | apps/daemon/src/repository-trust-service.ts:42-47 | Sorting while printing is printing the sorted value |
| `ShellQuote.CommandRoundTrip` | apps/daemon/src/tmux-runtime.ts:829 | The shell takes the joined command apart into exactly its arguments if and only if none contains a NUL |
| `ShellQuote.CommandReads` | apps/daemon/src/tmux-runtime.ts:829 | Every list of NUL-free arguments round-trips, empty ones and quotes included |
| `ShellQuote.ReplacedReads` | apps/daemon/src/tmux-runtime.ts:70-72 | The replaced string reads back inside single quotes |
| `TextTail.LastBytesBound` | apps/daemon/src/tmux-runtime.ts:615-622 | The kept bytes exceed the limit by at most three, and exceed it if and only if the cut leaves two or three stray bytes |
| `TextTail.LastBytesIsSuffix` | apps/daemon/src/tmux-runtime.ts:617-621 | Past the replacements the kept text is a true suffix |
| `TextTail.LastBytesLines` | apps/daemon/src/tmux-runtime.ts:617-628 | Cutting bytes adds no line |
| `TextTail.ReadTail` | apps/daemon/src/tmux-runtime.ts:611-632 | Lines and bytes of a terminal read, with returns replaced, are bounded and truncation is reported exactly |
| `TextTail.UnreturnedLines` | apps/daemon/src/tmux-runtime.ts:611 | Replacing returns before newlines takes one return from the end of every line but the last, and changes nothing else |
| `TextTail.LastLinesIsSuffix` | apps/daemon/src/tmux-runtime.ts:611-614 | The kept lines are the end of the text, as many as asked for or as there are |
| `TextTail.BoundedText` | apps/daemon/src/screen-status-classifier.ts:30-51 | The classified screen is sanitized and bounded, and truncation is reported exactly |
| `TextTail.DecodeStray` | apps/daemon/src/screen-status-classifier.ts:43-46 | Each stray byte in front decodes to one replacement |

## Left out

- `resetState` and the cleanup service delete rows of goals, preparations and the inbox; the tables here only grow.
- `acceptAutonomously`, `finishReview`, `checkIn`, `observe`, `pauseForTakeover` and the decision notices of the goal service: they call operations that are modelled, or only notify.
- How a candidate's files are hashed: the digest of a checkout and path is an input.
- Notifications and audit records: they change nothing the properties speak of. A notification that fails after a save is not modelled.
- Zod validation, identifiers, summaries and prompt texts: requests are small records, and two requests are the same when their fields are.
- EventStream.EventStreamSession.Converse: before the replay the socket does not close unnoticed, for the same reason as in `Start`.
- EventStream.EventStreamSession.Start: a socket that has closed without the session noticing is excluded while there is something to replay, because the loop then never ends, as `LiveEvents.ReplayToTheEndEndsIff` states. Pruning the log while a session replays it is not modelled, because nothing in the repository prunes it; `ResumeContinues` covers pruning between two sessions.
- The heartbeat timer of an event stream is a step that may happen at any time; frame schemas are constructors and sizes are functions.
- PreparationService.ForemanOrchestrationService.Admit: the dirty flag of the source checkout and the branch name are stored but decide nothing, so the rows do not have them.
- One reconciler runs at a time in a daemon: that `tick` returns the pending pass is taken for granted in the preparation, inbox and conversation services.
- The fence's classification of stopped runs and team blockers is one input, the objection, because its cases are other services' rows.
- Reading conversations and listing them: queries without effect. An action that was created although saving its request failed is not modelled.
- Provider updates, view sessions, terminal gateways and lease bookkeeping of the coordinator: input and output.
- Fields of a status that are stored for display only: activity, progress texts, exit codes, fingerprints, the last screen.
- Sequencer.ClassIssuesTwice: file permissions, directories and temporary file names of the sequencer are not modelled; a rename replaces the sequence file in one step, and a process writes its own temporary file.
- Ownership, symbolic links and directory modes of an overlay, and the ledger's own syntax: operating system facts. A tree is a map from relative paths, so empty directories are not part of it.
- Repository trust receipts and decision times: one map update and a maximum.
- Numbers in canonical text stand for their own JSON text, so a number that is not finite, and zero with a sign, are not distinguished from what they print as.
- TextTail.ReadTail: text is a sequence of Unicode scalar values, so a lone surrogate, which encodes as a replacement character, appears as one.
- Screen rules and their priorities: a sort and a search over the bounded text.
- Session names, bindings, tmux, git and WebSocket plumbing; the portal, scripts and command line.
