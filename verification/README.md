# A verified model of OpenHands' stateful core

This project models, in Dafny, the parts of OpenHands that keep state across events, requests,
servers and tables, and proves what they keep over whole runs. Faults of external calls, crashes and
interleavings are part of the models. Where the code does not do what one would expect of it, the
model follows the code, and a lemma says exactly when the expectation holds.

| files | what they model |
|---|---|
| `ClusterLease`, `ClusterTiming`, `ClusterBound`, `ClusterFailover`, `ClusteredConversationManager` | servers sharing conversations through expiring Redis keys: claims, refresh pipelines, closing, the delays that keep a lease, crashes, failover |
| `AuthTokens`, `AuthTokenStore` | double-checked locking around refresh tokens that can be redeemed once |
| `UserCreation` | the expiring lock around the migration of a user |
| `ControllerModel`, `ControllerPlan`, `ControllerSafety`, `ControllerConfirmation`, `ControllerDelegation`, `ControllerTurns`, `ControllerStream`, `AgentController` | the agent controller: agent state, pending action, confirmation, delegates, loop recovery, over a growing event stream |
| `ReplayManager` | which events of a trajectory are replayed, and their hand-out one by one |
| `OrgTables`, `UserMigration` | the tables around users and organizations; moving a user's rows to the organization schema and back |
| `LiteLlm` | budgets, teams and keys in LiteLLM during the same two moves |
| `OrgCreation`, `Organizations`, `OrgService` | deleting an organization across database and LiteLLM, switching, the creation saga, and what all of these keep |
| `GitlabWebhooks` | the round-robin job that installs webhooks |
| `ProactiveConversations` | collecting workflow runs per commit and acting on them once |
| `ResendSync` | adding users to a mailing audience, with a tracking table and compensation |
| `DeviceFlow` | polling and status of OAuth device codes (section 3.5 of RFC 8628) |
| `ConversationLimit` | closing the oldest conversations of a user |

Each protocol is a datatype for its state, a function for an atomic step, and lemmas about sequences
of steps. Beside it stands a class whose methods change the fields the source changes, statement by
statement, with a contract that equates the new state with the step function of the old one.
`dafny verify dfyconfig.toml` checks everything.

## Where the code differs from its own description or from the obvious reading

- Confirmation: `event_to_dict` drops the confirmation state of action types that do not declare it,
  so the runtime receives a file edit, a file read or write, a browser action or an MCP call as ready
  to run even in confirmation mode (`GateHoldsExactly`). Delegates start without confirmation mode
  (`DelegateActsUnasked`).
- Delegation: events are forwarded one level down, so a delegate's delegate never acts
  (`NestedDelegateNeverActs`). Of the two messages that keep a delegate in ERROR alive, the budget one
  is compared with a text that lacks a space and never matches; the model recognises only the
  iteration limit.
- `_reset` compares tool call metadata with `==`, so a pending action without any counts as observed
  if some observation has none either. `Observed` does the same.
- Redis: a refresh pipeline built before a session was closed can be executed late and hide a crash
  (`LatePipelineHidesCrash`). A conversation with an empty id is never refreshed (`if sid:`), so the
  timed theorems are about conversations that have one.
- Tokens: if the transaction fails after the redemption, the next request redeems the same token
  (`FailedCommitRedeemsTwice`).
- User creation: the lock has no owner; a caller that outlasts it deletes the lock of the next one
  (`LateReleaseLetsThirdIn`).
- Deleting an organization: `session.delete(org)` is not awaited, so the row of the organization
  stays. The model leaves it in place; of the theorems only `DeletionBetweenCheckAndUpdate` depends on
  that.
- `switch_org` checks the membership in one transaction and updates in another
  (`StepKeepsCurrentExactly`, `DeletionBetweenCheckAndUpdate`). `remove_user_from_org` leaves
  `current_org_id` alone, and the service that calls it repairs it afterwards (`RepairRestoresExactly`,
  `RunKeepsCurrent`).
- Creation saga: a failure of the refresh that follows the commit is compensated like one before it,
  and leaves an organization without a team; a failure inside the LiteLLM set-up after the team was
  created, and a cancellation anywhere, is not compensated at all (`LeftBehindExactly`). A database
  error raised while the rows are built would not be either; none of the calls there raises one.
- User migration: `migrate_customer` commits the new org_id of a Stripe customer in a session of its
  own before the organization's row is flushed, which the foreign key of that column refuses; a user
  with a Stripe customer cannot be migrated (`MigratesExactly`, `CustomersCannotMigrate`).
- LiteLLM: a migration that raises after the user's budget was set to unlimited counts as done when
  it is repeated (`RetryCompletesExactly`); migrating again after a downgrade applies the billing
  margin again (`MarginAppliesAgain`).
- Webhooks: a row that names no resource, or two, ends the run each time it comes up, and since its
  `last_synced` cannot be updated either it comes up first for ever (`MalformedStarves`).
- Resend: a mark that commits and then raises keeps the user from ever being added
  (`TrackedIsLeftAlone`); an addition that takes effect and loses its answer is forgotten
  (`ForgottenExactly`).
- Device flow: reverting an authorization through `deny_device_code` is always refused
  (`KeyFailureIsFinal`), and through the routes no code is ever denied (`RoutesNeverDeny`).

## Model

| member | source | states |
|---|---|---|
| ClusterTiming.LeaseSafety | enterprise/server/clustered_conversation_manager.py:390-484 | if registering, the 5 s pause with a late wake-up, two pipelines and deleting fit into 15 s, then in every state a punctual run reaches a conversation is in the table of at most one live node and its key is live |
| ClusterBound.BoundIsNeeded | enterprise/server/clustered_conversation_manager.py:422-484 | the bound is exact: with any other delays some punctual run from an empty cluster has a conversation in two tables |
| ClusterTiming.TimedRunKeepsInv | enterprise/server/clustered_conversation_manager.py:390-484 | the inductive invariant of punctual runs: holders are unique, and every held key lasts as long as the node's own schedule requires |
| ClusterTiming.OnlyHolderDeletes | enterprise/server/clustered_conversation_manager.py:615-671 | in a punctual run the key of a conversation that a live node holds disappears only through that node's own close |
| ClusterLease.SecondHolderExactly | enterprise/server/clustered_conversation_manager.py:399-405 | with no assumption on timing, a claim beside a holder keeps it the only one if and only if the claimed key is still live |
| ClusterLease.StagedWasHeld | enterprise/server/clustered_conversation_manager.py:456-465 | whatever a pipeline carries, its node had in its table when it built the pipeline, though it may have lost it since |
| ClusterLease.HeldKeyStays | enterprise/server/clustered_conversation_manager.py:436-484 | no step but its holder's delete and the clock takes away a held key |
| ClusterFailover.LiveOwnerNeverReported | enterprise/server/clustered_conversation_manager.py:499-515 | in a punctual run no node reports a conversation as stopped that a live node holds |
| ClusterFailover.CrashReportedExactly | enterprise/server/clustered_conversation_manager.py:486-543 | whatever the timing: 15 s or more after the crash of the only holder, with nobody restarting it, a connected survivor reports the conversation if and only if no pipeline carrying its key was executed within the last 15 s |
| ClusterFailover.CrashIsReported | enterprise/server/clustered_conversation_manager.py:486-543 | among punctual nodes it is reported from 15 s plus the longest execution of a pipeline on |
| ClusterFailover.SureToBeReportedExactly | enterprise/server/clustered_conversation_manager.py:436-484 | no run without a restart hides the crash, exactly when no live node carries the key in a pipeline |
| ClusterFailover.StagedCanHide | enterprise/server/clustered_conversation_manager.py:483-484 | a node that carries it can hide the crash after any wait |
| ClusterFailover.LatePipelineHidesCrash | enterprise/server/clustered_conversation_manager.py:436-484 | a run from an empty cluster of three nodes in which a connected survivor scans 15 s after the crash and reports nothing |
| ClusterFailover.NoSecondStart | enterprise/server/clustered_conversation_manager.py:390-405 | while the winner keeps the conversation, every other claim is refused |
| ClusterFailover.ExactlyOneStarts | enterprise/server/clustered_conversation_manager.py:390-405 | of any number of punctual nodes racing for an abandoned conversation whose key has run out, exactly one starts the loop |
| ClusteredConversationManager.Manager.MaybeStartAgentLoop | enterprise/server/clustered_conversation_manager.py:390-420 | started here exactly if the key is absent or expired; refused, it runs here if it is in the local table, elsewhere if the key is still live at the second look, and otherwise the call fails |
| ClusteredConversationManager.Manager.StageRefresh | enterprise/server/clustered_conversation_manager.py:436-465 | the pipeline holds exactly the keys of the local loops |
| ClusteredConversationManager.Manager.ExecutePipeline | enterprise/server/clustered_conversation_manager.py:483-484 | executing it sets every key it holds, live or not, and no other |
| ClusteredConversationManager.Manager.DisconnectFromStopped | enterprise/server/clustered_conversation_manager.py:486-543 | reports exactly the connected conversations that run neither here nor in Redis |
| ClusteredConversationManager.Manager.PopSession | enterprise/server/clustered_conversation_manager.py:615-641 | removes the session from the local table and keeps its key for the delete |
| ClusteredConversationManager.Manager.DeleteKey | enterprise/server/clustered_conversation_manager.py:642-651 | deletes the key of the popped session and nothing else |
| ClusteredConversationManager.Manager.GetRunningAgentLoops | enterprise/server/clustered_conversation_manager.py:240-249 | exactly the requested conversations of the user that run here or have a live key, although the remote scan is sometimes skipped |
| ClusteredConversationManager.ConnectionsShortcutExactly | enterprise/server/clustered_conversation_manager.py:285-294 | the same shortcut on connections is right exactly when it scans or there is no unseen remote connection |
| ClusteredConversationManager.ConnectionsShortcutLoses | enterprise/server/clustered_conversation_manager.py:285-294 | two connections to one of two conversations hide the connections to the other |
| AuthTokens.NeverRedeemedTwice | enterprise/storage/auth_token_store.py:102-251 | under any interleaving, if every redemption is written back, no refresh token is redeemed twice |
| AuthTokens.RedeemsAgainExactly | enterprise/storage/auth_token_store.py:187-243 | in any reachable state, a redemption repeats an earlier one if and only if the replacement of the row's token was lost |
| AuthTokens.FailedCommitRedeemsTwice | enterprise/storage/auth_token_store.py:187-251 | a failed commit leaves the redeemed token for the next request |
| AuthTokens.CallerSeesARealRow | enterprise/storage/auth_token_store.py:139-251 | every caller gets a version of the row that was current at some moment of its call |
| AuthTokens.BurstRefreshesOnce | enterprise/storage/auth_token_store.py:139-243 | a burst over one expired row refreshes at most once, and every request that returns gets those tokens |
| AuthTokens.RunKeepsInv | enterprise/storage/auth_token_store.py:102-251 | the inductive invariant of the lock protocol |
| AuthTokens.FastPathExactly | enterprise/storage/auth_token_store.py:39-58 | a request returns without the lock exactly when it cannot refresh, or the access token has no expiry or at least 15 minutes left |
| AuthTokens.SecondCheckExactly | enterprise/storage/auth_token_store.py:187-204 | under the lock the same test decides again whether to refresh |
| AuthTokens.RefreshesExactly | enterprise/storage/auth_token_store.py:139-243 | undisturbed, a request redeems the refresh token and replaces the row exactly when the access token expires in less than 15 minutes |
| AuthTokens.RepliesExactly | enterprise/storage/auth_token_store.py:206-243 | what each reply of the callback leaves of row, lock and refresh token |
| AuthTokens.CommitsExactly | enterprise/storage/auth_token_store.py:214-232 | a commit replaces the row; without it the row stays, the lock is free and the redeemed token is lost |
| AuthTokens.WaitsExactly | enterprise/storage/auth_token_store.py:168-251 | a request waits, and times out, exactly while another one keeps the lock; so does a login |
| AuthTokenStore.Store.LoadTokens | enterprise/storage/auth_token_store.py:102-251 | an uninterrupted call is a run of the protocol, and its result for every row, lock, reply and commit: the row itself if it has 15 minutes left, the new tokens, or one of the three errors |
| AuthTokenStore.Store.RefreshLocked | enterprise/storage/auth_token_store.py:187-251 | the part under the row lock |
| AuthTokenStore.Store.StoreTokens | enterprise/storage/auth_token_store.py:59-100 | a login writes the row over, or inserts it |
| UserCreation.RunsExclude | enterprise/storage/user_store.py:643-689 | while nobody outlasts the 30 s of the lock, no two callers are inside |
| UserCreation.SecondEntersExactly | enterprise/storage/user_store.py:117-135 | a second caller gets in exactly when the one inside has outlasted its lock |
| UserCreation.LateReleaseLetsThirdIn | enterprise/storage/user_store.py:138-154 | a run from the empty state in which a late release frees the second caller's lock and a third gets in beside it |
| UserCreation.OneCallerMigrates | enterprise/storage/user_store.py:643-689 | of any number of prompt callers at most one starts a migration, and none does after it succeeded |
| UserCreation.MigratedAtMostOnce | enterprise/storage/user_store.py:632-689 | however late the callers, at most one migration commits and a user who is reported exists |
| UserCreation.UndisturbedExactly | enterprise/storage/user_store.py:632-689 | an undisturbed call finds a user exactly if there is one or one can be migrated, begins a migration exactly if there is none and one can be, and leaves no lock of its own |
| UserCreation.SecondLookFinds | enterprise/storage/user_store.py:653-661 | whoever gets the lock after the user was created finds that user and begins no migration |
| UserCreation.FinishesExactly | enterprise/storage/user_store.py:673-689 | a migration reports a user exactly if it succeeds and there was none yet, and the lock is released either way |
| UserCreation.CreationLock.Acquire | enterprise/storage/user_store.py:117-135 | SET NX EX 30, or nothing without Redis |
| UserCreation.CreationLock.Release | enterprise/storage/user_store.py:138-154 | an unconditional delete |
| ControllerPlan.HandlePlanned | openhands/controller/agent_controller.py:488-630 | whatever one controller does with one event is a sequence of the basic operations, each allowed where it happens |
| ControllerSafety.HaltedMeansNothingPending | openhands/controller/agent_controller.py:684-694 | in every reachable state a STOPPED or ERROR controller has no pending action |
| ControllerSafety.HaltingAnswersPendingCall | openhands/controller/agent_controller.py:632-671 | on entry into STOPPED or ERROR the pending action's tool call has an observation in the history or gets one now, never both |
| ControllerSafety.ChangeShownOnce | openhands/controller/agent_controller.py:673-721 | every real change of state appends exactly one observation of it |
| ControllerSafety.StreamShowsStates | openhands/controller/agent_controller.py:684-721 | over every run without delegates the stream shows the stutter-free path of states, and `_is_awaiting_observation` agrees with RUNNING exactly when a state was shown or the state is not RUNNING |
| ControllerSafety.AwaitingMeansLatest | openhands/controller/agent_controller.py:1253-1259 | `_is_awaiting_observation` looks at the latest state shown |
| ControllerStream.RunRecords | openhands/events/stream.py:163-203 | over every run, with delegates, every event's id is its position, and the stream holds the pending actions of the root and of its delegate under their ids |
| ControllerSafety.RecoveringWaits | openhands/controller/agent_controller.py:1304-1346 | recovery from a loop cuts the history at the loop, keeps the pending action and waits for the user |
| ControllerSafety.RestartingAsksAgain | openhands/controller/agent_controller.py:1348-1389 | a restart cuts it too and leaves the agent running on a new recall for the last user message, or waits if there is none |
| ControllerConfirmation.ConfirmedOnlyAfterAsking | openhands/controller/agent_controller.py:978-1035 | over every run, with whatever delegates, an action the root sent as confirmed was sent by it before as awaiting confirmation, and was sent during a change to USER_CONFIRMED while pending |
| ControllerConfirmation.FreshRunAsks | openhands/controller/agent_controller.py:978-1035 | so for every run of a fresh controller, whatever the stream holds already |
| ControllerConfirmation.GateHoldsExactly | openhands/events/serialization/event.py:100-152 | the runtime's copy of an action waits for the user exactly when its type declares a confirmation state |
| ControllerConfirmation.DelegateActsUnasked | openhands/controller/agent_controller.py:735-794 | a delegate's tool actions are executable at once, whatever the parent's modes |
| ControllerTurns.ConfirmationRoundTrip | openhands/controller/agent_controller.py:542-570 | from a running agent's action through question, answer and observation back to RUNNING if the user confirmed, to AWAITING_USER_INPUT if not, with the five events the stream shows and nothing else changed |
| ControllerTurns.MessageRoundTrip | openhands/controller/agent_controller.py:488-611 | from a user's message through the recall it asks for and its observation to the agent's next action, which is sent once |
| ControllerTurns.AsksExactly | openhands/controller/agent_controller.py:978-1035 | a tool action makes the controller wait exactly in confirmation mode, in the CLI always and elsewhere for high risk or without an analyzer |
| ControllerTurns.ObservationSettlesExactly | openhands/controller/agent_controller.py:542-570 | an observation of the pending action clears it unless the user is being asked, and hands the turn to the agent or to the user |
| ControllerTurns.MessageTurnsExactly | openhands/controller/agent_controller.py:572-611 | a user's message becomes a pending recall of a running agent; an agent's that waits gives the user the turn |
| ControllerTurns.CommandsLeadTo | openhands/controller/agent_controller.py:515-540 | the states that a change of state, finishing, rejecting and the three recoveries from a loop lead to |
| ControllerTurns.DelegateStartsExactly | openhands/controller/agent_controller.py:735-794 | a delegate starts with an empty history, no pending action, no confirmation mode and the parent's analyzer, running if it has a task; the parent only gains it |
| ControllerTurns.DelegateStartShows | openhands/controller/agent_controller.py:515-540 | the stream shows its system message, if any, its task as a user's message, and that it runs |
| ControllerTurns.ActsExactly | openhands/controller/agent_controller.py:391-452 | the agent acts after an event exactly if the event is not hidden and wakes it, and the controller is then running without pending action and delegate |
| ControllerTurns.FailuresExactly | openhands/controller/agent_controller.py:323-377 | a failing step ends in RATE_LIMITED or ERROR, shows it, and remembers whether the iterations ran out |
| ControllerTurns.ReportsExactly | openhands/controller/agent_controller.py:863-978 | a malformed answer of the model or a full context is reported in the stream and changes nothing else |
| ControllerDelegation.OneHandler | openhands/controller/agent_controller.py:454-513 | every event that is not hidden goes to exactly one place: to the root if there is no delegate; else it closes a delegate that is FINISHED, REJECTED or in ERROR, not out of iterations, and no history gains it; else to the delegate. Who takes it appends it, if it is of an included kind, and cuts its own history if it is a recovery from a loop |
| ControllerDelegation.ClosesExactly | openhands/controller/agent_controller.py:463-483 | the next event, whichever it is, closes the delegate exactly if its state is FINISHED, ERROR or REJECTED and its iterations have not run out |
| ControllerDelegation.EntersHistoryExactly | openhands/controller/agent_controller.py:488-513 | which events enter the history of the controller that handles them, and where a recovery from a loop cuts it |
| ControllerDelegation.HistoriesShareTheStream | openhands/controller/agent_controller.py:454-513 | over every run, recoveries from loops included, the root's history is what the events it took make of it, each appended and its cut applied, and so is the present delegate's with the events it took since it was started |
| ControllerDelegation.RootRemembersInOrder | openhands/controller/agent_controller.py:1325-1346 | whatever is cut, the root's history holds only events it had or took, in their order; if none it took cuts, it holds all of them |
| ControllerDelegation.DelegateRemembersInOrder | openhands/controller/agent_controller.py:1325-1346 | the same for a delegate started during the run, and only of what it took |
| ControllerDelegation.TakenIsStream | openhands/controller/agent_controller.py:454-486 | the events so shared out are those of the stream, each once and in order |
| ControllerDelegation.ParentIsFrozen | openhands/controller/agent_controller.py:454-486 | until the delegate is closed, the parent changes only if its state is set directly |
| ControllerDelegation.LastDelegateCallExactly | openhands/controller/agent_controller.py:835-852 | a result carries the tool call of the latest delegate action in the parent's history, wherever it stands |
| ControllerDelegation.DelegationRoundTrip | openhands/controller/agent_controller.py:796-861 | from the delegate action through any moves to the closing event, the history gains that action only, and the stream gains exactly one result, with the tool call of that action |
| ControllerDelegation.PendingStaysNoResult | openhands/controller/agent_controller.py:1041-1093 | over every run no pending action is a delegate's result, as the round trip requires |
| ControllerDelegation.NestedDelegateNeverActs | openhands/controller/agent_controller.py:454-486 | over every run a delegate's delegate handles no event |
| AgentController.EventStream.AddEvent | openhands/events/stream.py:163-203 | the event is numbered and the copy that went through the serializer is appended |
| AgentController.EventStream.IsAwaiting | openhands/controller/agent_controller.py:1253-1259 | the backward search finds the latest state shown |
| AgentController.AgentController.Reset | openhands/controller/agent_controller.py:632-671 | the method refines `Reset` |
| AgentController.AgentController.SetAgentStateTo | openhands/controller/agent_controller.py:673-725 | the method refines `SetAgentState` |
| AgentController.AgentController.HandleObservation | openhands/controller/agent_controller.py:542-570 | the method refines `HandleObservation` |
| AgentController.AgentController.HandleMessageAction | openhands/controller/agent_controller.py:572-611 | the method refines `HandleMessage` |
| AgentController.AgentController.PerformLoopRecovery | openhands/controller/agent_controller.py:1304-1323 | the method refines `RecoverFromLoop` |
| AgentController.AgentController.TruncateMemory | openhands/controller/agent_controller.py:1325-1346 | the history is cut at the recovery point, if it is longer |
| AgentController.AgentController.RestartWithLastUserMessage | openhands/controller/agent_controller.py:1348-1389 | the method refines `RestartWithLastMessage` |
| AgentController.AgentController.StartDelegate | openhands/controller/agent_controller.py:735-794 | the method refines `StartDelegate` |
| AgentController.AgentController.HandleAction | openhands/controller/agent_controller.py:515-540 | the method refines `HandleAction` |
| AgentController.AgentController.ReactToException | openhands/controller/agent_controller.py:323-377 | the method refines `Fail` |
| AgentController.AgentController.Step | openhands/controller/agent_controller.py:863-1039 | the method refines `StepAgent` |
| AgentController.AgentController.HandleEvent | openhands/controller/agent_controller.py:488-513 | the method refines `Handle` |
| AgentController.AgentController.EndDelegate | openhands/controller/agent_controller.py:796-861 | the method refines `EndDelegate` |
| AgentController.AgentController.OnEvent | openhands/controller/agent_controller.py:454-486 | the method refines `OnEvent` |
| ReplayManager.ReplayManager.constructor | openhands/controller/replay.py:30-57 | keeps the events that are not the environment's and clears `wait_for_response` in all but the last message |
| ReplayManager.ReplayManager.ShouldReplay | openhands/controller/replay.py:66-80 | moves to the next action; true exactly when one is left |
| ReplayManager.ReplayManager.Step | openhands/controller/replay.py:82-87 | hands out that action and moves on; its assertion never fails |
| ReplayManager.ReplayManager.ReplayAll | openhands/controller/replay.py:66-87 | driven to exhaustion, the two hand out exactly the actions of the kept trajectory, each once, in order |
| ReplayManager.KeptActions | openhands/controller/replay.py:30-57 | the actions of the replay are the trajectory's, less those of the environment |
| ReplayManager.ReplayedExactly | openhands/controller/replay.py:30-42 | replayed are exactly the events that are neither the environment's nor null observations, and of the actions all but the environment's |
| ReplayManager.WaitsClearedExactly | openhands/controller/replay.py:44-57 | only a message that waits, and is not the last event, is changed, and only in that |
| ReplayManager.ClearedActions | openhands/controller/replay.py:40-57 | clearing the waits neither adds, removes nor reorders an action |
| ReplayManager.GetReplayEvents | openhands/controller/replay.py:90-105 | drops the environment's events and the ids, and keeps the order |
| ReplayManager.CopiesKeepAllButId | openhands/controller/replay.py:90-105 | each copy is an event of the trajectory that is not the environment's, with its id unset, and none of these is missing |
| UserMigration.MigratesExactly | enterprise/storage/user_store.py:157-367 | a migration succeeds exactly when all calls do, nothing conflicts and the user has no row in stripe_customers |
| UserMigration.DowngradesExactly | enterprise/storage/user_store.py:402-604 | a downgrade applies exactly to the sole member of an existing personal organization, succeeds exactly when all calls do and nothing else refers to user or organization, and otherwise changes nothing |
| UserMigration.FlagFollows | enterprise/storage/user_store.py:290 | a migration marks the user's settings as migrated, a downgrade unmarks them, and neither touches anybody else's; failures touch none |
| UserMigration.AwaitsMigrationAgainExactly | enterprise/storage/user_store.py:655-669 | so get_user_by_id never migrates a migrated user again, and does migrate a downgraded one |
| UserMigration.CustomersCannotMigrate | enterprise/integrations/stripe_service.py:103-126 | a user with such a row cannot be migrated, because its early commit refers to an organization not yet written |
| UserMigration.FailureChangesExactly | enterprise/integrations/stripe_service.py:103-126 | when exactly a failed migration leaves a trace in the database |
| UserMigration.MigrateDowngradeRestores | enterprise/storage/user_store.py:300-358 | migrate then downgrade restores the whole database exactly when the org_id columns of the user's rows were NULL |
| UserMigration.DowngradeLeavesNothing | enterprise/storage/user_store.py:523-604 | whatever happened since, a downgrade leaves no row of the new schema for the user |
| UserMigration.DowngradeReturnsConversations | enterprise/storage/user_store.py:523-548 | every conversation held in the new table is the user's in the old one; everybody else's rows stay |
| UserMigration.MigratedLifeRoundTrip | enterprise/storage/user_store.py:300-604 | from migration through any activity to the downgrade, the old table names the user for exactly the conversations that belonged to the user |
| UserMigration.ActivityTakesEffect | enterprise/storage/stored_conversation_metadata_saas.py:14-21 | what every activity in between comes to, and that one whose rows are missing or taken comes to nothing |
| UserMigration.ActivityKeepsIntegrity | enterprise/storage/user_store.py:300-330 | activity in between keeps the foreign keys and the agreement of the two tables |
| UserMigration.MigrateKeepsReferences | enterprise/storage/user_store.py:157-367 | a migration keeps every foreign key valid, whatever fails |
| UserMigration.DowngradeKeepsReferences | enterprise/storage/user_store.py:523-604 | a downgrade keeps every foreign key valid, whatever fails |
| UserMigration.UserStore.MigrateCustomer | enterprise/integrations/stripe_service.py:103-126 | the update of the Stripe customer commits by itself, or is refused by the foreign key |
| UserMigration.UserStore.MigrateUser | enterprise/storage/user_store.py:157-367 | the statements in order amount to `Migrate`, including key conflicts, failed calls and the customer's own commit |
| UserMigration.UserStore.DowngradeUser | enterprise/storage/user_store.py:370-629 | the statements in order amount to `Downgrade`, including the foreign keys that refuse a delete |
| LiteLlm.MigrationConservesExactly | enterprise/storage/lite_llm_manager.py:206-283 | the margin-adjusted rest of the budget becomes the team's credit exactly when the team has no spend of its own |
| LiteLlm.CreditIsAdjustedRemainder | enterprise/storage/lite_llm_manager.py:206-243 | the credit is what was left of the budget, never negative; only settings before version 4 with a margin other than 0 and 1 change that, to the margin times what was left exactly if the margin is positive or nothing was left |
| LiteLlm.MigrateAnswersExactly | enterprise/storage/lite_llm_manager.py:226-343 | a migration raises for an unknown user or when a call does, and does not apply, changing nothing, to a user without a budget or with the unlimited one |
| LiteLlm.MigrateTwice | enterprise/storage/lite_llm_manager.py:226-242 | repeating a completed migration changes nothing |
| LiteLlm.CreditRoundTrip | enterprise/storage/lite_llm_manager.py:346-486 | after migration, any spending and purchases, and a downgrade, the user has exactly what was left of the credit |
| LiteLlm.DowngradeHandsBack | enterprise/storage/lite_llm_manager.py:400-480 | the team's credit becomes the user's, whichever of the two budgets is reported; keys and membership move to the default team |
| LiteLlm.RestoresExactly | enterprise/storage/lite_llm_manager.py:400-440 | however far a downgrade gets, budget and spend that it restores are those of the user's own reported membership, or else the team's |
| LiteLlm.DowngradeAnswersExactly | enterprise/storage/lite_llm_manager.py:388-480 | a downgrade completes exactly if the team and the default team exist and no call raises |
| LiteLlm.NoDefaultTeamStops | enterprise/storage/lite_llm_manager.py:420-455 | without a default team a downgrade raises after setting the user's budget; team, membership and keys stay |
| LiteLlm.ActivityMirrors | enterprise/storage/lite_llm_manager.py:489-512 | spending and purchases keep the membership's budget and spend equal to the team's |
| LiteLlm.MarginAppliesAgain | enterprise/storage/lite_llm_manager.py:211-225 | a second migration yields what was left exactly when no margin applies or nothing was left |
| LiteLlm.RetryCompletesExactly | enterprise/storage/lite_llm_manager.py:244-291 | repeating a migration that raised completes it exactly when the user's budget was untouched or nothing was left to do |
| LiteLlm.EarlyRetryCompletes | enterprise/storage/lite_llm_manager.py:244-270 | a migration that raised before the user's budget was changed can be repeated |
| LiteLlm.DowngradeRetryCompletes | enterprise/storage/lite_llm_manager.py:388-480 | a downgrade can be repeated after raising anywhere before the team is deleted, and raises afterwards |
| LiteLlm.LiteLlmManager.UpdateUserKeys | enterprise/storage/lite_llm_manager.py:824-847 | the loop moves exactly the user's keys that are listed and accepted |
| LiteLlm.LiteLlmManager.MigrateEntries | enterprise/storage/lite_llm_manager.py:168-343 | the calls in order, each possibly the last, amount to `Migrate`; the loop over the keys may raise half-way |
| LiteLlm.LiteLlmManager.DowngradeEntries | enterprise/storage/lite_llm_manager.py:346-486 | the calls in order, each possibly the last, amount to `Downgrade` |
| Organizations.OrphanErrorExactly | enterprise/storage/org_store.py:330-350 | the orphan error is raised exactly when, and names exactly those users whose current organization it is and who have no other |
| Organizations.DeletesExactly | enterprise/storage/org_store.py:259-398 | which of its four outcomes a deletion has, for every world and every fault |
| Organizations.FailedDeleteChangesNothing | enterprise/storage/org_store.py:391-398 | a deletion that fails leaves the database as it was and touches no other team |
| Organizations.DeleteRemovesExactly | enterprise/storage/org_store.py:277-371 | what the organization owns is removed from every table, nothing else is, and affected users get an organization they belong to |
| Organizations.ReassignmentExists | enterprise/storage/org_store.py:330-364 | without orphans every affected user has an organization to move to |
| Organizations.CreatesUserExactly | enterprise/storage/user_store.py:43-104 | a new user, with organization and membership, is there exactly if all calls succeed and no key or name is taken; the team is made as soon as LiteLLM answers |
| Organizations.StepKeepsCurrentExactly | enterprise/storage/org_service.py:916-933 | creating, migrating and downgrading users, creating and deleting organizations, switches, joins, removals and repairs keep "the current organization is one the user belongs to", except exactly when a member is removed from the current organization, a switch is applied after its check went stale, or a repair moves a user to a personal organization that is not the user's any more |
| Organizations.RepairRestoresExactly | enterprise/server/services/org_member_service.py:215-224 | a removal from the current organization and its repair restore the rule exactly when the personal organization is another one, exists and still has the user |
| Organizations.StepServesExactly | enterprise/storage/org_store.py:375-398 | the same events keep "every organization with a member has a team", except exactly when a deletion, a creation or a downgrade loses the team but not the organization, a user joins one without a team, or a migrated user gets none |
| Organizations.StepKeepsRepairableExactly | enterprise/server/services/org_member_service.py:215-224 | every event keeps "the current organization is one the user belongs to, or one whose removal is still to be repaired", except exactly a switch applied after its check went stale and a repair that finds no organization of the user's to move to |
| Organizations.RunKeepsRepairableExactly | enterprise/server/services/org_member_service.py:215-224 | over any run that rule holds in every state if and only if no switch is applied stale and no repair finds no organization to move to |
| Organizations.RunKeepsCurrent | enterprise/server/services/org_member_service.py:215-224 | over any run, with removals from current organizations, that takes no membership a pending switch has checked and whose repairs find the personal organization intact, the first rule holds in every state in which each removal has been repaired |
| Organizations.DeletionBetweenCheckAndUpdate | enterprise/storage/org_store.py:373 | a deletion between check and update leaves the user in an organization without members and team |
| Organizations.OrgStore.DeleteOrgCascade | enterprise/storage/org_store.py:259-398 | the statements in order amount to `DeleteOrg` |
| Organizations.OrgStore.DeleteConversations | enterprise/storage/org_store.py:277-310 | the rows that refer to the conversations go before the conversations they are found by |
| Organizations.OrgStore.DeleteOwned | enterprise/storage/org_store.py:298-328 | the deletes from the six tables |
| Organizations.OrgStore.Reassign | enterprise/storage/org_store.py:352-364 | every affected user gets one of the alternatives |
| OrgCreation.CleansUpOnceExactly | enterprise/storage/org_service.py:217-362 | however the calls go, the log of effects has exactly one deletion of the team after a failure that follows the set-up, none otherwise, and none if the failure is a cancellation or a database error raised while the rows are built |
| OrgCreation.CreatedExactly | enterprise/storage/org_service.py:217-281 | creation succeeds exactly when no call raises; then organization, owner and team exist and only these two effects were had |
| OrgCreation.RaisesExactly | enterprise/storage/org_service.py:217-400 | which error every failed creation raises, in particular that the name is taken, and whether a database error reports a failed clean-up |
| OrgCreation.LeftBehindExactly | enterprise/storage/org_service.py:307-400 | when exactly a failed creation leaves a team, or an organization with its membership, behind |
| OrgCreation.RolledBackExactly | enterprise/storage/org_service.py:307-362 | a cleaned-up failure leaves the world as it was exactly when the commit had not gone through |
| OrgService.SwitchIsCheckThenUpdate | enterprise/storage/org_service.py:889-955 | when exactly an uninterrupted switch succeeds, and which of organization, membership, user and commit it reports as missing; a switch that succeeds is its two events back to back, and any other changes nothing |
| OrgService.OrgService.CreateOrgWithOwner | enterprise/storage/org_service.py:178-281 | the steps with both handlers amount to `Create`: database errors and cancellations pass, every other exception is cleaned up |
| OrgService.OrgService.BuildThenPersist | enterprise/storage/org_service.py:229-253 | steps 4 to 7, of which the first to raise ends the rest |
| OrgService.OrgService.PersistCompensating | enterprise/storage/org_service.py:284-322 | every exception of the persisting is cleaned up and becomes a database error |
| OrgService.OrgService.PersistOrgWithOwner | enterprise/storage/org_store.py:233-256 | the commit of both rows, and the refresh that may still raise |
| OrgService.OrgService.HandleFailureWithCleanup | enterprise/storage/org_service.py:325-400 | requests the deletion of the team once and always raises a database error |
| OrgService.OrgService.SwitchOrg | enterprise/storage/org_service.py:889-955 | the checks in order amount to `Switch` |
| GitlabWebhooks.ReachedDespiteCrashes | enterprise/sync/install_gitlab_webhooks.py:164-203 | with r well-formed rows in front, r + 1 runs process a row even if every run crashes on its first |
| GitlabWebhooks.ReachedInChunks | enterprise/storage/gitlab_webhook_store.py:172-195 | without crashes r / 100 + 1 runs are enough |
| GitlabWebhooks.ReachedByCount | enterprise/sync/install_gitlab_webhooks.py:164-203 | whatever happens, the row is processed by the time the runs have processed r + 1 rows |
| GitlabWebhooks.RunProgress | enterprise/sync/install_gitlab_webhooks.py:164-203 | a run processes the row or takes as many rows out of its way as it processes, whatever arrives meanwhile |
| GitlabWebhooks.ArrivalsLineUp | enterprise/storage/gitlab_webhook_store.py:287-339 | inserted and reset rows line up behind |
| GitlabWebhooks.MalformedStarves | enterprise/storage/gitlab_webhook_store.py:16-28 | a malformed row keeps itself and every row synced after it from ever being processed |
| GitlabWebhooks.ReachedExactly | enterprise/storage/gitlab_webhook_store.py:157-195 | enough runs reach a row exactly when it and all rows in front of it are well formed, if no malformed row ties with it |
| GitlabWebhooks.ProcessedExactly | enterprise/integrations/gitlab/webhook_installation.py:60-190 | a processed row stays pending exactly if it was skipped or crashed, disappears exactly if its resource is gone, and otherwise goes to the end of the queue |
| GitlabWebhooks.InstalledOnce | enterprise/sync/install_gitlab_webhooks.py:116-211 | once a run has installed a webhook or found it installed, no later run fetches its row until somebody resets it |
| GitlabWebhooks.ArrivesExactly | enterprise/storage/gitlab_webhook_store.py:287-339 | inserts add the rows that are not there, a reset makes its row pending, both come last, and no other row changes |
| GitlabWebhooks.GitlabWebhookStore.FilterRows | enterprise/storage/gitlab_webhook_store.py:172-195 | returns the pending rows synced longest ago, each once and in order, at most 100 and all of them if fewer, ties either way |
| GitlabWebhooks.GitlabWebhookStore.UpdateLastSynced | enterprise/storage/gitlab_webhook_store.py:157-170 | stamps the row with a later time than all, or raises for a malformed one |
| GitlabWebhooks.GitlabWebhookStore.ProcessRow | enterprise/sync/install_gitlab_webhooks.py:165-211 | try, except and finally for one row |
| GitlabWebhooks.GitlabWebhookStore.InstallWebhooks | enterprise/sync/install_gitlab_webhooks.py:116-211 | the loop amounts to `RunRows` on what `filter_rows` returned |
| ProactiveConversations.CompleteExactly | enterprise/storage/proactive_conversation_store.py:90-101 | a group is complete exactly when every run has ended and not all of them completed |
| ProactiveConversations.ReturnedExactly | enterprise/storage/proactive_conversation_store.py:67-128 | a group is returned for exactly the first event after which the overlay has no pending run and a failed one, and it is that overlay |
| ProactiveConversations.StoredRuns | enterprise/storage/proactive_conversation_store.py:71-126 | the stored runs are the overlay of all events until then, and frozen afterwards |
| ProactiveConversations.HandedOutOnce | enterprise/storage/proactive_conversation_store.py:67-69 | over any run no key is handed out twice |
| ProactiveConversations.KeysAreIndependent | enterprise/storage/proactive_conversation_store.py:54-66 | however keys interleave, each fares as if alone |
| ProactiveConversations.ProactiveConversationStore.StoreWorkflowInformation | enterprise/storage/proactive_conversation_store.py:25-128 | the method amounts to `Store` |
| ResendSync.NeverAddedTwice | enterprise/sync/resend_keycloak.py:462-539 | over any number of runs, crashes included, no email is successfully added twice |
| ResendSync.SetMatchesTableExactly | enterprise/sync/resend_keycloak.py:488-519 | a turn keeps the in-memory set equal to the table exactly unless marking fails after its commit |
| ResendSync.SetMatchesTable | enterprise/sync/resend_keycloak.py:456-539 | so over a whole run the two are equal |
| ResendSync.EveryUserCounted | enterprise/sync/resend_keycloak.py:440-539 | already synced, added, skipped and errors add up to the listed users with an email |
| ResendSync.TurnCountedExactly | enterprise/sync/resend_keycloak.py:469-537 | which of the four counters each user raises, and that the run breaks off exactly when the compensation itself raises |
| ResendSync.StartsFresh | enterprise/sync/resend_keycloak.py:397-460 | a run starts from what is tracked or listed as a contact, with all counters at 0 |
| ResendSync.LowerExactly | enterprise/storage/resend_synced_user_store.py:37-51 | emails are compared without regard to the case of their letters and in nothing else |
| ResendSync.TrackedIsLeftAlone | enterprise/storage/resend_synced_user_store.py:37-51 | no later run touches an email in the table |
| ResendSync.CreatedIsAdded | enterprise/sync/resend_keycloak.py:508-523 | without lost answers the contacts created are those reported as added |
| ResendSync.ForgottenExactly | enterprise/sync/resend_keycloak.py:508-516 | a created contact is forgotten exactly when its answer was lost and the removal took effect |
| ResendSync.CreatedAgainExactly | enterprise/sync/resend_keycloak.py:346-394 | the next run creates it again unless the backfill finds it |
| ResendSync.ResendSyncedUserStore.MarkUserSynced | enterprise/storage/resend_synced_user_store.py:53-106 | inserts the lower-cased email if it is not there |
| ResendSync.ResendSyncedUserStore.RemoveSyncedUser | enterprise/storage/resend_synced_user_store.py:108-125 | removes the lower-cased email |
| ResendSync.Syncer.Backfill | enterprise/sync/resend_keycloak.py:346-394 | afterwards every listed contact is tracked |
| ResendSync.Syncer.User | enterprise/sync/resend_keycloak.py:469-537 | one pass of the inner loop amounts to `SyncUser` |
| ResendSync.Syncer.SyncUsersToResend | enterprise/sync/resend_keycloak.py:397-550 | for every batch size, the batches get to all listed users in order, until an exception |
| DeviceFlow.IntervalLaw | enterprise/storage/device_code.py:78-118 | k slow-downs bring the interval to min(5 + 5k, 60) |
| DeviceFlow.ReportedLaw | enterprise/server/routes/oauth_device.py:137-156 | over every run the slow-down after k others reports min(5 + 5(k + 1), 60), and that interval is stored |
| DeviceFlow.PollAnsweredExactly | enterprise/server/routes/oauth_device.py:125-210 | the answer to every poll in its order of precedence: too fast, expired, denied, pending, token, no key; every poll is recorded |
| DeviceFlow.VerifiedExactly | enterprise/server/routes/oauth_device.py:230-310 | a verification decides a pending code in time, for that user, and no other |
| DeviceFlow.DeniedExactly | enterprise/storage/device_code_store.py:118-142 | so does a denial, which gives the code no owner |
| DeviceFlow.AcceptedInWindow | enterprise/storage/device_code.py:78-118 | at most t / 5 + 1 polls are accepted within t seconds |
| DeviceFlow.AcceptedSpaced | enterprise/storage/device_code.py:95-106 | accepted polls are at least 5 s apart |
| DeviceFlow.DecidedForGood | enterprise/storage/device_code_store.py:91-142 | status and owner never change again once a code is decided |
| DeviceFlow.OwnerVerified | enterprise/storage/device_code_store.py:91-116 | a code is authorized exactly when it has an owner, who verified it before it expired |
| DeviceFlow.TokenNeedsLink | enterprise/server/routes/oauth_device.py:161-205 | over every run a token is handed out only after a verification in time that created the key, and before the code expires |
| DeviceFlow.LinkYieldsToken | enterprise/server/routes/oauth_device.py:161-205 | and the other way round: after such a verification, whatever else is tried, a poll in time that is not too fast gets the token |
| DeviceFlow.DecisionAnswersPolls | enterprise/server/routes/oauth_device.py:161-205 | what a decided code answers for the rest of its life |
| DeviceFlow.KeyFailureIsFinal | enterprise/server/routes/oauth_device.py:286-306 | when the key cannot be created the revert is refused, and whatever is tried afterwards the code never yields a token |
| DeviceFlow.RoutesNeverDeny | enterprise/server/routes/oauth_device.py:230-310 | through the routes no code is ever denied |
| DeviceFlow.DeviceCode.CheckRateLimit | enterprise/storage/device_code.py:78-106 | says whether the poll is too fast and the interval that recording it will store |
| DeviceFlow.DeviceCode.UpdatePollTime | enterprise/storage/device_code.py:108-118 | records the poll |
| DeviceFlow.DeviceCodeStore.CreateDeviceCode | enterprise/storage/device_code_store.py:29-73 | stores the first attempt whose codes are both unused, fails exactly if there is none, and keeps the codes unique |
| DeviceFlow.DeviceCodeStore.AuthorizeDeviceCode | enterprise/storage/device_code_store.py:91-116 | authorizes a pending entry, refuses any other |
| DeviceFlow.DeviceCodeStore.DenyDeviceCode | enterprise/storage/device_code_store.py:118-142 | denies a pending entry, refuses any other |
| DeviceFlow.DeviceCodeStore.DeviceToken | enterprise/server/routes/oauth_device.py:125-210 | a poll is checked, recorded and answered as `Step` says |
| ConversationLimit.ClosesTheOldest | enterprise/server/saas_nested_conversation_manager.py:793-823 | closed and kept make up the list, no closed one is newer than a kept one, as many as allowed are kept; without a positive limit all are closed and the pop raises |
| ConversationLimit.SortedInOrder | enterprise/server/saas_nested_conversation_manager.py:804 | the newest come first; a missing date counts as time 0 |
| ConversationLimit.SortedPermutes | enterprise/server/saas_nested_conversation_manager.py:804 | the sort neither adds nor loses a conversation |
| ConversationLimit.SortedIsStable | enterprise/server/saas_nested_conversation_manager.py:804 | conversations with the same date keep their order, so the later listed is closed first |
| ConversationLimit.BelowLimitExactly | enterprise/server/saas_nested_conversation_manager.py:596-615 | fewer than the limit keep running exactly when no pause request failed |
| ConversationLimit.EnsureNumConversationsBelowLimit | enterprise/server/saas_nested_conversation_manager.py:793-823 | the loop amounts to `Evict` on the sorted list, and does nothing below the limit |

## Left out

- Cluster: connection keys in Redis, the rendering and parsing of key names, publish and subscribe, and the policy by which `_close_disconnected` picks idle sessions; a session may be closed at any time instead. `StandaloneConversationManager` is not part of this model.
- Agent controller: the security analyzer's internals, the stuck detector, `Agent.step`, metrics, budgets and the first-user-message search; they are answers of an oracle. Handlers are atomic, as one event loop runs them. Restoring a controller from a stored state is left out.
- ClusterTiming.LeaseSafety: assumes that claims of one conversation name one user and that the nodes keep to their delays; the delays themselves are parameters. Clocks of nodes and of Redis run at one rate.
- ClusterFailover.CrashReportedExactly: speaks of conversations that had a single holder when it crashed and that nobody restarts meanwhile.
- AuthTokens: `is_access_token_valid` and `is_refresh_token_valid`; the expiry of refresh tokens, which `load_tokens` computes and ignores.
- AuthTokens.NeverRedeemedTwice: assumes that the identity provider issues fresh refresh tokens and that every redemption is committed; `RedeemsAgainExactly` drops the second assumption.
- ControllerConfirmation.ConfirmedOnlyAfterAsking: speaks of the root controller's own actions of the two types that keep their confirmation state in the stream; `GateHoldsExactly` and `DelegateActsUnasked` cover the other types and delegates.
- UserMigration: the encrypted settings columns, the copying of settings into organization, user and membership, Stripe's own records, and several `user_settings` rows for one user.
- LiteLlm: the replacement of a stored key that LiteLLM does not know, a deployment without LiteLLM or without a default team, and the rounding of budgets; amounts are exact. A key that was not listed, was rejected or was not reached is simply not moved.
- UserCreation.OneCallerMigrates: assumes that migrations that are started succeed and nobody outlasts the lock; a sign-up through `create_user` at the same time is not an event of the model. Without Redis every caller gets in at once, which `CreationLock.Acquire` says and the step function does not model.
- Organizations: authorization of the requests, roles, invitations and the paging of organization lists. The deletion is one atomic step for the others, and so is a repair with its check; partial failures of LiteLLM inside `create_user` are one fault.
- GitlabWebhooks: rows whose last_synced is NULL, which sort last, the calls to GitLab that lead to an outcome, and rows deleted by others during a run.
- ProactiveConversations.HandedOutOnce: two first events of one key that run at the same time can both insert a row, because there is no row to lock; events of a key are taken one after the other. `clean_old_convos` forgets keys on purpose.
- ResendSync.SyncUsersToResend: assumes a listing that does not change during the run and whose total equals its length.
- OrgCreation: a cancellation during the clean-up's own call to delete the team is not modelled.
- ResendSync: the regular expression for valid emails is a parameter, lower-casing is for ASCII letters, and waiting, retries and welcome emails are left out. A batch size of zero makes the job loop for ever and is excluded from `SyncUsersToResend`.
- DeviceFlow.AcceptedInWindow: polls of one code follow one another; two overlapping polls read the same last poll time and can both be accepted. Guard and update of an authorization are one step.
- ConversationLimit: the status message to the client and where the metadata comes from.
- `get_budget_from_team_info`, the alias builders, `get_user_orgs_paginated` and the copying of settings fields: they compute from their inputs and would add easy members.
- The start-up of nested conversation managers, HTTP, socket and SQL layers, runtimes, agents, the frontend and the remaining stores are not part of this model.
