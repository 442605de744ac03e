# Verified models of the runtime's core

Dafny models of five parts of the repository, with proofs of what their documentation
promises. Where a promise does not hold of the code, the model keeps the code, a lemma gives
the exact condition under which the promise holds, and where a short run shows the failure it
is given too. `dafny verify dfyconfig.toml` checks everything.

## The parts

**Migration of a connection** (`Migration*.dfy`). A connection belongs to the app thread until
its first command names an engine; then it moves to the engine thread, by a chain of tasks over
three threads, while the implementation protocol keeps a copy of the migration state and holds
back all further messages. `Migration.dfy` is the protocol as a transition system over one
first-in-first-out queue per thread, with any number of messages, resets, closing requests and
any interleaving. `MigrationCode.dfy` is the same protocol as classes whose methods update the
objects in place; every method is proved to do what the transition system says.
`MigrationTasks.dfy`, `MigrationViews.dfy`, `MigrationSafety.dfy` and `MigrationRuns.dfy` hold
the invariant and its preservation by every step. The results are in `MigrationLaws.dfy` (every
reachable state), `MigrationLog.dfy` and `MigrationHistory.dfy` (what becomes of messages, and
what no step takes back), `MigrationFaults.dfy`, `MigrationCauses.dfy` and `MigrationTrips.dfy`
(failing assertions, and the clients that can cause them), `MigrationProgress.dfy` and
`MigrationLiveness.dfy` (what happens in the end), `MigrationScenarios.dfy` (complete runs for
both arrangements of the loops, and what each kind of message comes to), and
`MigrationSimulation.dfy` (the objects taken through any run).

**Closing flow** (`Closing.dfy`). Resource trees of any shape, with notifications delivered in
any order: safety, termination within 4n steps, independence of the interleaving, and which
resources a request closes.

**Typed list** (`TypedListNode.dfy`, `TypedList.dfy`, `TypedListRuns.dfy`). The intrusive
doubly-linked list as heap code over nodes, proved against a sequence.

**Alignment** (`Align.dfy`). The mask form of `ten_align_forward` on words of any width.

**Scripts** (`CargoSort.dfy`; `Manifests.dfy`, `VersionRuns.dfy`, `VersionScripts.dfy`,
`VersionSuccess.dfy`, `VersionVisits.dfy`, `VersionCode.dfy`). The Cargo dependency sorter, and
the version updater with the checker it must satisfy. `VersionVisits.dfy` says what a run does in
terms of the repository's paths and of the fields of its manifests.

## Where code and documentation disagree

The models follow the code.

- `connection/migration.h:70` sets the state `DOING` in `connection::migrate()`. The enum has
  `FIRST_MSG`, and `protocol.c:286-289` sets it before the message is handled.
- `connection/connection.h:48-51` says that a connection whose migration is `DONE` is attached
  to an engine or a remote. After `close_app` as the first command it is `DONE` and attached to
  the app. `MigrationLaws.MigratedIsAttached` says exactly which steps break the promise, in
  terms of the state before the step; `MigrationLaws.MigratedAtTheApp` is a run that does.
- The table at `connection/connection.h:59-65` lets only the engine thread write `DONE`; the
  app thread does so too (`connection/connection.h:133-137`, `connection/migration.c:126-155`).
- `connection/migration.h:139-146` sets `DONE` before `ENGINE` and notifies the implementation
  at once; `connection/migration.c:126-155` and `:82-124` attach first and notify through a
  task on the attached loop. The order of the tasks matters and is the order of the code.
- `connection/connection.h:95-101` promises an event once a migration is completed or reset.
  Some first messages are consumed without either: `MigrationLaws.FirstMessageOutcome` says
  which, and `MigrationLaws.SilentFirstMessageFreezes` what follows.
- `connection/connection.c:326-339` and `engine/msg_interface/common.c:90-98` assert what two
  kinds of runs violate: `MigrationFaults.FaultsExactly` says which steps do, and
  `MigrationTrips.CanFaultIff` which clients can bring such a step about.
- `engine/internal/migration.c:105-126` posts the last hop of a migration, and checks that its
  caller owns the connection. `implementation::clean()` of `connection/migration.h`, which posts
  that hop, runs on the external thread while the app thread is the owner; through this function
  it would fail the check in every migration: `MigrationFaults.HopsRunOffTheOwner`.
- The list iterator of `typed_list.h:385-390` is meant to step like `foreach`; it takes the
  successor of the node it leaves and visits every node but the first twice.
- `align_forward` with an addition that overflows returns 0, and is then not monotone.
- The version updater can succeed and leave files that the checker rejects, when a template
  does not show the version: `VersionScripts.UpdateSatisfiesCheck` has the exact condition on
  the files before the run, and `VersionScripts.StaleTemplatesFailCheck` such files.
- The Cargo sorter drops dependencies that are neither strings nor tables.
- The updater creates a missing manifest as an empty file and then fails to read it.

An assertion of the source that fails sets a flag in the model, and the model goes on; results
about states after a failed assertion are results about a build without assertions, except
that the task which failed an assertion has no further effect when it is the `stop_graph` task.

The counted assertions are: that the running thread owns the connection, in the handling of
first messages and batches, in the cleaning on the app thread, in the notification, in the
engine's handling of commands, and in the closing of the protocol and of the connection; what
the connection is attached to, in `axis_connection_on_msgs`, `axis_connection_on_input`,
`axis_connection_needs_to_migrate`, the reset and the cleaning; the migration state, in
`axis_protocol_on_input`, `axis_protocol_on_inputs`, `axis_app_handle_in_msg` and
`axis_engine_handle_in_msgs_sync`; that the connection was in the orphan list when it is taken
out; and that a callback is set when the connection has closed. Not counted are null and
signature checks, thread checks of other objects, and the checks of the functions that post the
hops of the implementation protocol, which the repository declares but never calls.

## Model

| member | source | states |
|---|---|---|
| MigrationSafety.InitInv | core/src/axis_runtime/connection/connection.c:164-198 | a newly created connection satisfies the invariant of the migration |
| MigrationRuns.StepKeepsInv | core/include_internal/axis_runtime/connection/migration.h:41-157 | every step of any thread, the client or the closing app keeps the invariant: one token, phases, owner of events, order of closing, conservation of messages |
| MigrationRuns.InputKeeps | core/src/axis_runtime/protocol/protocol.c:259-297 | handling a first message keeps the invariant, and a task of the migration is under way afterwards if and only if the app answers such messages |
| MigrationRuns.InputsTaskKeeps | core/src/axis_runtime/protocol/protocol.c:299-324 | handling a batch keeps the invariant |
| MigrationRuns.CleanTaskKeeps | core/src/axis_runtime/app/migration.c:17-46 | the cleaning on the app thread keeps the invariant and passes the command on |
| MigrationRuns.OnCleanedTaskKeeps | core/src/axis_runtime/engine/internal/migration.c:48-103 | the end of the migration on the engine thread keeps the invariant, with the first command queued before the notification |
| MigrationRuns.LinkTaskKeeps | core/src/axis_runtime/engine/msg_interface/common.c:78-126 | the engine handles the first command on the owning thread, for a migrated connection, and the invariant is kept |
| MigrationRuns.CloseTaskKeeps | core/src/axis_runtime/app/close.c:60-90 | closing requests of the app and of the client keep the invariant |
| MigrationRuns.ProtocolClosedTaskKeeps | core/src/axis_runtime/connection/connection.c:146-162 | destroying the connection keeps the invariant |
| MigrationSafety.ProtocolClosedIsLast | core/src/axis_runtime/connection/connection.c:93-108 | when the closing of the protocol is reported, the owner runs it, a callback is set, and no other event, command or migration is under way |
| MigrationSafety.InputsReachRemote | core/src/axis_runtime/connection/connection.c:318-375 | a batch runs on the owner of a migrated connection that has its remote, unless the protocol is closing or the channel was a duplicate |
| MigrationRuns.RunKeepsInv | core/include_internal/axis_runtime/connection/connection.h:79-105 | the invariant holds after any sequence of steps |
| MigrationLaws.OneMigrationTask | core/include_internal/axis_runtime/connection/connection.h:125-131 | in every reachable state at most one task of a migration waits, over all three queues and at one position |
| MigrationLaws.MirrorFollows | core/include_internal/axis_runtime/connection/connection.h:95-101 | in every reachable state the mirror being DONE or INIT implies that the connection is in that state, after any number of resets |
| MigrationLaws.MigratedIsAttached | core/include_internal/axis_runtime/connection/connection.h:48-51 | from any reachable state, "DONE exactly when attached to an engine or a remote" holds after a step if and only if it held before and the step does not run a close_app command as the first message, with the protocol open |
| MigrationLaws.MigratedIsAttachedIff | core/include_internal/axis_runtime/connection/connection.h:48-51 | it holds after a whole run if and only if no step of the run was of that kind |
| MigrationLaws.MigratedAtTheApp | core/src/axis_runtime/app/msg_interface/common.c:200-218 | a run of three steps after which the connection is DONE and attached to the app |
| MigrationLaws.EventsRunAtOwner | core/include_internal/axis_runtime/connection/connection.h:196-208 | every event that the external thread posted to the attached loop runs on the thread that owns the connection by then |
| MigrationLaws.MessagesAreConserved | core/include_internal/axis_runtime/connection/migration.h:22-39 | at every reachable state the received messages are exactly those handled, then those under way, then those held back, in order |
| MigrationLaws.OneMessageUntilMigrated | core/include_internal/axis_runtime/connection/connection.h:90-93 | at most one message is under way until the implementation learns that the migration is over, and none before the first |
| MigrationLaws.MigrationStateHasOneWriter | core/include_internal/axis_runtime/connection/connection.h:57-65 | only a first message on the app thread or the end of a migration on the engine thread changes the migration state, the connection still being the app's, and never are both runnable |
| MigrationLaws.OrphansBelongToTheApp | core/include_internal/axis_runtime/connection/connection.h:187-194 | a connection in the orphan list belongs to the app thread and is attached to the app, so the closing app never touches one that an engine owns |
| MigrationLaws.ClosingAppReachesOrphans | core/src/axis_runtime/app/close.c:60-90 | while the app closes, every connection in its orphan list has been told to close or the task that tells it waits |
| MigrationLaws.DestroyedIsTheEnd | core/src/axis_runtime/connection/connection.c:72-108 | once a connection is destroyed no task that would touch it waits anywhere |
| MigrationLog.StepKeepsLog | core/src/axis_runtime/app/msg_interface/common.c:305-339 | the history of verdicts and the state of the connection keep determining each other |
| MigrationHistory.StepLater | core/src/axis_runtime/protocol/close.c:120-144 | no step takes anything back: closing, destruction, failures and the histories only grow, and no message that was handed over is held back again |
| MigrationLaws.WhatBecomesOfMessages | core/src/axis_runtime/app/msg_interface/common.c:63-198 | commands for unknown graphs are answered one by one; the first other message decides what every later message meets with, and which state the connection is in |
| MigrationLaws.FirstMessageOutcome | core/src/axis_runtime/app/msg_interface/common.c:305-339 | after a first message the implementation waits for a notification that never comes if and only if the protocol was closing or the message is not a command for an engine, for an unknown graph, or close_app |
| MigrationLaws.SilentFirstMessageFreezes | core/include_internal/axis_runtime/connection/connection.h:90-101 | after such a message, in every continuation, no further message is handled and the connection is never destroyed |
| MigrationFaults.FaultsExactly | core/src/axis_runtime/engine/msg_interface/common.c:80-98 | a step makes one of the counted assertions fail if and only if it runs a batch through a connection with an engine but no remote, or a stop_graph command whose connection has not migrated; the channel is then a duplicate, or the connection frozen by its first message |
| MigrationFaults.HopsRunOffTheOwner | core/src/axis_runtime/engine/internal/migration.c:105-126 | whenever a hop outside the app thread is about to run, the app thread owns the connection, so a function that checks the owner cannot be what the hop calls |
| MigrationCauses.FaultNeedsCause | core/src/axis_runtime/connection/connection.c:318-339 | a counted assertion has failed only if the client sent, after commands for unknown graphs, stop_graph for an existing graph, or a command over a second channel and then anything |
| MigrationTrips.CanFaultIff | core/src/axis_runtime/connection/connection.c:318-339 | for any sequence of messages, some run with exactly these messages makes a counted assertion fail if and only if after commands for unknown graphs comes stop_graph for an existing graph, or a command for an engine whose channel is found to be a second one and then anything |
| MigrationTrips.DuplicateChannelFaults | core/src/axis_runtime/connection/connection.c:318-339 | after any number of commands for unknown graphs, a run in which a duplicate channel trips the assertion |
| MigrationTrips.StopGraphFaults | core/src/axis_runtime/app/msg_interface/common.c:220-275 | after any number of commands for unknown graphs, a run in which stop_graph trips the assertion |
| MigrationScenarios.ConfigurationStays | core/src/axis_runtime/engine/internal/thread.c:102-106 | in every reachable state the engine has a loop of its own exactly as configured |
| MigrationScenarios.EngineThreadTakesOver | core/include_internal/axis_runtime/connection/migration.h:41-157 | with a loop of its own, and after any number of commands for unknown graphs, the command takes six hops over three threads to an engine thread that owns the connection, with the command queued before the notification |
| MigrationScenarios.EngineThreadTakesOverAtOnce | core/include_internal/axis_runtime/connection/migration.h:41-157 | the shortest such run, step by step |
| MigrationScenarios.FirstCommandGetsRemote | core/src/axis_runtime/engine/msg_interface/common.c:100-125 | for both arrangements of the loops, a command for an engine over a channel of its own, after any number of commands for unknown graphs, leads to a remote that is given the next message, on the right thread, with every verdict named |
| MigrationScenarios.LifeOfAConnection | core/src/axis_runtime/connection/connection.c:72-162 | the same connection goes on to be destroyed when its client leaves, with nothing left in any queue |
| MigrationScenarios.OrdinaryChannelIsServed | core/src/axis_runtime/engine/msg_interface/common.c:100-125 | in every run whose first message other than for unknown graphs goes to an engine over a channel of its own, no counted assertion fails, the channel is never taken for a second one, and every later message is given to the remote or dropped because the protocol closes |
| MigrationScenarios.FirstMessageMeets | core/src/axis_runtime/app/msg_interface/common.c:305-339 | in every reachable state, what handling a first message of each kind makes of the connection, and nothing else changes |
| MigrationScenarios.BatchMeets | core/src/axis_runtime/protocol/protocol.c:299-324 | in every reachable state a batch is dropped while the protocol closes, given to the remote if there is one, and lost otherwise, message by message |
| MigrationScenarios.WhatOthersDo | core/include_internal/axis_runtime/connection/connection.h:196-208 | in every reachable state exactly when the client can send or leave, the implementation can close and the app can be told to close, and that what they ask for goes to the end of the queue of the thread that owns the connection |
| MigrationScenarios.WhatIsHandedOver | core/include_internal/axis_runtime/connection/connection.h:79-105 | in every reachable state the first message is handed over alone and, after the migration, everything held back at once, to the thread that owns the connection |
| MigrationProgress.NextIsNearer | core/include_internal/axis_runtime/connection/migration.h:43-63 | what a task of the migration posts is strictly nearer to the end of the migration |
| MigrationProgress.EveryMigrationCompletes | core/include_internal/axis_runtime/connection/migration.h:41-62 | under every fair schedule a migration past its first message ends with the implementation protocol going on |
| MigrationProgress.EveryFirstMessageIsTaken | core/include_internal/axis_runtime/connection/connection.h:95-101 | under every fair schedule a waiting first message leads to the implementation going on, or to a state in which no notification will come |
| MigrationProgress.TakingTurnsIsFair | core/include_internal/axis_runtime/connection/migration.h:43-44 | fair schedules exist |
| MigrationProgress.FollowingIsValid | core/include_internal/axis_runtime/connection/migration.h:43-44 | every schedule has an infinite run that follows it |
| MigrationLiveness.EveryMessageIsHandled | core/include_internal/axis_runtime/connection/connection.h:79-105 | under every schedule that lets the threads and the implementation go on, each received message is handled, at its place, unless first the implementation waits for ever, or the client leaves, or the connection closes |
| MigrationLiveness.HandedOverIsHandled | core/src/axis_runtime/protocol/protocol.c:259-324 | under every fair schedule each message that was handed over is handled, unless the implementation waits for ever |
| MigrationLiveness.EveryClosingEnds | core/src/axis_runtime/connection/connection.c:93-162 | a connection whose protocol is closing is destroyed in the end, unless its first message froze it |
| MigrationLiveness.EveryLeftConnectionIsDestroyed | core/src/axis_runtime/protocol/close.c:120-144 | a connection whose client has left is destroyed in the end, without exception |
| MigrationLiveness.EverythingInTurnIsWilling | core/include_internal/axis_runtime/connection/migration.h:43-44 | such schedules exist |
| MigrationCode.System.constructor | core/src/axis_runtime/connection/connection.c:164-198 | the objects start in the initial state of the transition system, with the loop arrangement they were given |
| MigrationCode.System.PostTaskTail | core/src/axis_runtime/connection/migration.c:118-120 | a posted task goes to the end of one queue, and nothing else changes |
| MigrationLaws.AttachedLoopIsOwner | core/src/axis_runtime/connection/connection.c:444-474 | in every reachable state the attached loop is that of the thread that owns the connection |
| MigrationCode.System.UpgradeMigrationStateToDone | core/src/axis_runtime/connection/migration.c:126-155 | updates the objects as the transition system says |
| MigrationCode.System.MigrationStateResetWhenEngineNotFound | core/src/axis_runtime/connection/migration.c:157-170 | updates the objects as the transition system says |
| MigrationCode.System.DelOrphanConnection | core/src/axis_runtime/app/internal.c:86-108 | updates the objects as the transition system says |
| MigrationCode.System.DoConnectionMigrationOrPushToEngineQueue | core/src/axis_runtime/app/msg_interface/common.c:38-61 | migrates, takes over at once, or queues the command, as the transition system says |
| MigrationCode.System.EngineAppendToInMsgsQueue | core/src/axis_runtime/engine/msg_interface/common.c:184-200 | queues the command at the engine, as the transition system says |
| MigrationCode.System.AppCloseAsync | core/src/axis_runtime/app/close.c:92-116 | posts the closing of the app once |
| MigrationCode.System.AppHandleCloseAppCmd | core/src/axis_runtime/app/msg_interface/common.c:200-218 | declares the connection migrated and closes the app, as the transition system says |
| MigrationCode.System.AppHandleStopGraphCmd | core/src/axis_runtime/app/msg_interface/common.c:220-275 | hands the command to the engine to be stopped, if there is one |
| MigrationCode.System.AppHandleInMsg | core/src/axis_runtime/app/msg_interface/common.c:305-339 | every kind of command has the effect the transition system says |
| MigrationCode.System.ConnectionOnMsgs | core/src/axis_runtime/connection/connection.c:318-375 | the loop over a batch has the effect of its messages one after the other |
| MigrationCode.System.ProtocolOnInput | core/src/axis_runtime/protocol/protocol.c:259-297 | one message has the effect the transition system says |
| MigrationCode.System.ProtocolOnInputs | core/src/axis_runtime/protocol/protocol.c:299-324 | a batch has the effect the transition system says |
| MigrationCode.System.ProtocolCloseAsync | core/src/axis_runtime/protocol/close.c:120-144 | tells the implementation to close, once |
| MigrationCode.System.EngineLinkConnectionToRemote | core/src/axis_runtime/engine/msg_interface/common.c:78-126 | attaches the connection to its remote, or marks it as a duplicate |
| MigrationCode.System.ConnectionOnProtocolClosed | core/src/axis_runtime/connection/connection.c:93-162 | destroys the connection, as the transition system says |
| MigrationCode.System.AppCleanConnectionTask | core/src/axis_runtime/app/migration.c:17-46 | takes the connection out of the orphan list and passes the command on |
| MigrationCode.System.EngineOnConnectionCleanedTask | core/src/axis_runtime/engine/internal/migration.c:48-103 | makes the engine the owner and queues the first command before the notification |
| MigrationCode.System.ProtocolOnCleanedTask | core/src/axis_runtime/connection/migration.c:70-80 | passes the notification on to the implementation |
| MigrationCode.System.AppCloseTask | core/src/axis_runtime/app/close.c:60-90 | closes the protocol of a connection in the orphan list |
| MigrationCode.System.Execute | core/include_internal/axis_runtime/connection/migration.h:65-157 | every task updates the objects as the transition system says |
| MigrationCode.System.RunLoopOnce | core/include_internal/axis_runtime/connection/migration.h:43-63 | running the head of a queue in place is the step of the transition system |
| MigrationCode.System.HandOverMsgs | core/include_internal/axis_runtime/connection/connection.h:90-105 | handing messages over is the step of the transition system, one message alone before the migration |
| MigrationCode.System.ReceiveMsg | core/include_internal/axis_runtime/connection/migration.h:22-30 | a message of the client is held back at the end of the queue |
| MigrationCode.System.ClientLeaves | core/include_internal/axis_runtime/connection/connection.h:196-208 | asking for the closing is the step of the transition system |
| MigrationCode.System.CloseTheApp | core/src/axis_runtime/app/close.c:92-116 | asking the app to close is the step of the transition system |
| MigrationCode.System.DropMsgs | core/src/axis_runtime/protocol/protocol.c:299-307 | a batch that arrives while the protocol closes is dropped message by message |
| MigrationCode.System.ImplementationCloses | core/include_internal/axis_runtime/connection/connection.h:196-208 | reporting the closing is the step of the transition system |
| MigrationSimulation.Simulate | core/include_internal/axis_runtime/connection/migration.h:41-157 | the objects, driven in place through any sequence of steps, are in the state the transition system reaches |
| MigrationSimulation.LawsOfTheObjects | core/include_internal/axis_runtime/connection/connection.h:79-105 | objects in a reachable state have lost, doubled and reordered no message, run events on the owning thread only, let the app close its own connections only, keep the loop arrangement, and have failed an assertion only with a cause in the messages received |
| MigrationSimulation.SimulateSafely | core/include_internal/axis_runtime/connection/connection.h:79-105 | the same of the fields of the objects after any run of the code |
| Closing.ClosingIsSafe | core/include_internal/axis_runtime/app/close.h:18-53 | in any interleaving on any tree: closed implies closing, everything inside a closed resource is closed, each closes once, and destroy runs at most once and only when all are closed |
| Closing.StepKeepsInv | core/include_internal/axis_runtime/app/close.h:55-74 | every request and every delivery keeps the invariant behind it |
| Closing.SomeDeliveryEnabled | core/include_internal/axis_runtime/app/close.h:30-40 | inside a resource that is closing but not closed some delivery is pending |
| Closing.StepLowersMeasure | core/include_internal/axis_runtime/app/close.h:18-40 | every enabled step lowers a measure |
| Closing.RunsAreBounded | core/include_internal/axis_runtime/app/close.h:18-40 | a run is no longer than the measure of its start |
| Closing.ClosingCompletes | core/include_internal/axis_runtime/app/close.h:18-53 | at most 4n steps over n resources; at rest every resource that was closing is closed, and if the top was told, all are closed and destroy ran exactly once |
| Closing.DeliveriesEnd | core/include_internal/axis_runtime/app/close.h:18-40 | from every state the pending deliveries come to rest |
| Closing.RequestIsHeard | core/src/axis_runtime/connection/connection.c:127-143 | a closing request makes the resource it names close, whatever the state |
| Closing.RequestedIsClosed | core/src/axis_runtime/connection/connection.c:127-162 | at rest every resource named by a request among the steps is closed, with everything it contains, and so is every container that closes with its resources |
| Closing.ClosedApp | core/include_internal/axis_runtime/app/close.h:18-40 | at rest, after the top was asked to close, all is closed and 'destroy' has run once |
| Closing.BrokenStream | core/src/axis_runtime/engine/internal/remote_interface.c:141-150 | at rest, when only the connection of app, engine, remote and connection broke, exactly connection and remote are closed, and the engine unless it is in long running mode, and then the app unless it is |
| Closing.RestIsLeastSpread | core/src/axis_runtime/connection/connection.c:112-162 | at rest the closed resources are the least set that contains those named by the requests among the steps and is closed downwards and along cascades |
| Closing.OutcomeIsUnique | core/include_internal/axis_runtime/app/close.h:18-40 | two runs at rest whose steps contain the same requests have closed the same resources, however interleaved |
| Closing.Resources.MayClose | core/src/axis_runtime/engine/internal/close.c:155-205 | true if and only if all contained resources have reported |
| Closing.Resources.PerformClose | core/src/axis_runtime/remote/remote.c:80-92 | marks the resource closed and tells its container, or destroys at the top |
| Closing.Resources.OnResourceClose | core/src/axis_runtime/engine/internal/close.c:226-237 | closes the resource exactly when all contained ones have reported |
| Closing.Resources.CloseResource | core/src/axis_runtime/remote/remote.c:221-239 | notifies the contained resources once, and closes at once if there is none left |
| Closing.Resources.RequestClose | core/src/axis_runtime/app/close.c:60-116 | a closing request is the step of the flow, and the resource is closing afterwards |
| Closing.Resources.DeliverNotify | core/src/axis_runtime/engine/internal/close.c:28-87 | the delivery of a notification is the step of the flow |
| Closing.Resources.DeliverReport | core/src/axis_runtime/remote/remote.c:111-128 | the delivery of "I am closed" is the step of the flow, with the cascade upwards |
| TypedListNode.Node.Create | core/include/ten_utils/lib/typed_list_node.h:67-122 | a new node is detached and holds the value |
| TypedListNode.Node.Clone | core/include/ten_utils/lib/typed_list_node.h:140-154 | a fresh detached node with the copied value and the same callbacks |
| TypedListNode.Node.Destroy | core/include/ten_utils/lib/typed_list_node.h:156-179 | calls the destructor on the value once exactly if there is one, then frees the node |
| TypedListNode.Node.SetData | core/include/ten_utils/lib/typed_list_node.h:191-215 | calls the destructor on the old value exactly if there is one, and stores what the move or copy callback makes of the new one, or the new one |
| TypedList.List.ValidPassesCheckIntegrity | core/include/ten_utils/lib/typed_list.h:55-96 | the full structural invariant implies the run-time check |
| TypedList.List.PushFront | core/include/ten_utils/lib/typed_list.h:226-244 | the invariant is kept and the node is in front of the old ones |
| TypedList.List.PushListNodeBack | core/include/ten_utils/lib/typed_list.h:246-264 | the invariant is kept and the node is behind the old ones |
| TypedList.List.PushBack | core/include/ten_utils/lib/typed_list.h:266-275 | a fresh node with the item and the given callbacks is behind the old ones |
| TypedList.List.PopFront | core/include/ten_utils/lib/typed_list.h:289-311 | null exactly for the empty list; otherwise the first node, detached, and the rest stays |
| TypedList.List.PopBack | core/include/ten_utils/lib/typed_list.h:313-335 | null exactly for the empty list; otherwise the last node, detached, and the rest stays |
| TypedList.List.Swap | core/include/ten_utils/lib/typed_list.h:176-196 | the two lists exchange their nodes |
| TypedList.List.Concat | core/include/ten_utils/lib/typed_list.h:198-224 | the target's nodes follow the own ones and the target is empty, in all branches; a list joined to itself loses its nodes, which form a ring |
| TypedList.List.IteratorAt | core/include/ten_utils/lib/typed_list.h:355-395 | after i calls of iterator_next the iterator is at node ceil(i / 2) |
| TypedList.List.IteratorEndsAt | core/include/ten_utils/lib/typed_list.h:385-395 | it is at its end if and only if the list is empty or i is at least 2k - 1 for k nodes |
| TypedList.List.ForeachAt | core/include/ten_utils/lib/typed_list.h:17-31 | foreach is at node i in its i-th round, with both neighbours |
| TypedList.List.WalkByIterator | core/include/ten_utils/lib/typed_list.h:355-395 | the walk visits the first node once and all others twice |
| TypedList.List.WalkByForeach | core/include/ten_utils/lib/typed_list.h:17-31 | foreach visits every node once, in order |
| TypedList.WalkVisitsEachOnceIff | core/include/ten_utils/lib/typed_list.h:385-390 | the two walks agree if and only if there is at most one node |
| TypedList.List.Find | core/include/ten_utils/lib/typed_list.h:371-383 | the first match in list order, null if and only if there is none |
| TypedList.List.Clear | core/include/ten_utils/lib/typed_list.h:125-136 | the values of exactly the nodes with a destructor are destructed, in list order, every node is freed once in order, no freed node is read, and the list is empty and valid |
| TypedList.List.Copy | core/include/ten_utils/lib/typed_list.h:337-353 | the own nodes are followed by fresh ones with what the copy callback of each node of the target makes of its value, and with its callbacks, in order; the target is unchanged |
| TypedList.List.SelfCopySteps | core/include/ten_utils/lib/typed_list.h:337-353 | copying a list of two or more nodes onto itself has a further node to copy after any number of rounds |
| TypedListRuns.ChainsMirror | core/include/ten_utils/lib/typed_list.h:55-96 | the forward chain is the backward chain reversed |
| TypedListRuns.CheckIntegrityIsExactUpToOneNode | core/include/ten_utils/lib/typed_list.h:55-96 | up to one node the run-time check is equivalent to the full invariant |
| TypedListRuns.CheckIntegrityAcceptsBrokenList | core/include/ten_utils/lib/typed_list.h:55-96 | a broken list of three nodes that the run-time check accepts |
| TypedListRuns.RunAll | core/include/ten_utils/lib/typed_list.h:176-335 | any sequence of pushes, pops, swaps and concats on two lists refines the same operations on two sequences, and never fails the run-time check |
| TypedListRuns.RunConserves | core/include/ten_utils/lib/typed_list.h:176-335 | no such sequence loses or duplicates a value |
| TypedListRuns.DrainOrder | core/include/ten_utils/lib/typed_list.h:226-335 | values pushed at the back come out in order from the front and in reverse from the back |
| Align.MaskIsDown | core/include/ten_utils/lib/align.h:20-20 | the mask clears exactly the low bits |
| Align.DownIsDivision | core/include/ten_utils/lib/align.h:20-20 | clearing the low bits is division and multiplication by the power of two |
| Align.AlignForwardIsLeastMultiple | core/include/ten_utils/lib/align.h:18-21 | without overflow the result is the least multiple that is at least the address |
| Align.AlignForwardReachesAddrIff | core/include/ten_utils/lib/align.h:19-21 | the result reaches the address if and only if the addition does not overflow, and is 0 otherwise |
| Align.AlignForwardMonotoneIff | core/include/ten_utils/lib/align.h:19-21 | the exact condition under which order is kept |
| Align.AlignForwardIdempotent | core/include/ten_utils/lib/align.h:19-21 | aligning an aligned address changes nothing |
| Align.AlignForwardCompose | core/include/ten_utils/lib/align.h:19-21 | aligning twice, in either order, is aligning to the larger power, for all words |
| Align.AlignmentMustBePowerOfTwo | core/include/ten_utils/lib/align.h:19-21 | the alignments that keep their own value are exactly the powers of two, also where the addition overflows |
| CargoSort.SortSorts | tools/rust/cargo_toml_sort.py:34-36 | the result is sorted by folded name and has the same entries |
| CargoSort.SortIsStable | tools/rust/cargo_toml_sort.py:34-36 | entries with equal folded names keep their order |
| CargoSort.StableSortIsUnique | tools/rust/cargo_toml_sort.py:34-36 | two sorted rearrangements that keep the order of equal names are equal |
| CargoSort.LeIsLexicographic | tools/rust/cargo_toml_sort.py:34-36 | the order of names is the order of strings: a proper beginning first, otherwise the first difference decides |
| CargoSort.RewrittenIsTheStableSort | tools/rust/cargo_toml_sort.py:32-61 | the new table is the stable rearrangement of the inlined dependencies by folded name, and nothing else is |
| CargoSort.SectionsAreRewritten | tools/rust/cargo_toml_sort.py:24-61 | in each of the three named sections stands, in ascending order of folded names and under unique keys, for every dependency and nothing else what it becomes: a string a table with the field version, a table an inline table |
| CargoSort.MeaningIsKept | tools/rust/cargo_toml_sort.py:40-57 | every name means the same afterwards, and is an inline table |
| CargoSort.LostExactly | tools/rust/cargo_toml_sort.py:40-57 | a dependency is lost if and only if it is neither a string nor a table |
| CargoSort.NothingLostIff | tools/rust/cargo_toml_sort.py:40-57 | as many dependencies as before if and only if all are strings or tables |
| CargoSort.Idempotent | tools/rust/cargo_toml_sort.py:26-61 | a second run changes nothing |
| CargoSort.OtherSectionsUntouched | tools/rust/cargo_toml_sort.py:26-31 | all other sections and the order of sections are untouched, and the result is a valid document |
| CargoSort.NewTable | tools/rust/cargo_toml_sort.py:38-57 | the loop builds the inlined table entry by entry |
| CargoSort.TomlDocument.SortAndInlineDependencies | tools/rust/cargo_toml_sort.py:26-61 | the document is rewritten in place, the three sections and nothing else |
| Manifests.VersionIsSet | tools/version/common.py:125-153 | setting a version leaves type, name and dependencies alone, and is the identity exactly if the version was there |
| Manifests.DependenciesAreSet | tools/version/common.py:167-201 | exactly the named packages get the version; everything else, and every place, stays; the identity exactly if nothing was to do |
| Manifests.FollowingKeepsVersions | tools/version/common.py:125-201 | a version once set is not undone by any later edit |
| VersionRuns.StepAchieves | tools/version/common.py:91-201 | a step that succeeds achieves what it is for |
| VersionRuns.DoneIsQuiet | tools/version/common.py:91-201 | where nothing is left to do nothing is written |
| VersionRuns.RunPreserves | tools/version/update_version_in_ten_framework.py:135-316 | any run, even one cut short by an exception, leaves every manifest the same up to versions |
| VersionRuns.RunAchieves | tools/version/update_version_in_ten_framework.py:135-316 | after a successful run every step is still achieved |
| VersionScripts.CheckManifestsMeans | tools/version/check_version_in_ten_framework.py:54-108 | the check passes if and only if all system manifests have the version |
| VersionScripts.CheckPassesIffNothingToSet | tools/version/check_version_in_ten_framework.py:54-108 | the check passes if and only if the updater would change nothing |
| VersionScripts.UpdateSatisfiesCheck | tools/version/check_version_in_ten_framework.py:54-126 | after a successful run the system packages pass; the whole check passes if and only if, before the run, each rendered file showed the version or had a template that does |
| VersionScripts.StaleTemplatesFailCheck | tools/version/check_version_in_ten_framework.py:111-126 | files with which, whatever the version, the updater succeeds and the check reports a mismatch |
| VersionSuccess.RunSucceedsIff | tools/version/update_version_in_ten_framework.py:135-356 | the updater succeeds if and only if each rendered file shows the version or has a template, every system and core manifest names its type and name, and every other visited manifest can be read and, where dependencies are set, gone through |
| VersionScripts.VisitedEndRight | tools/version/update_version_in_ten_framework.py:254-316 | in every visited manifest a dependency ends with the version if it is an updated package and with its old version otherwise, at its place |
| VersionVisits.DependencyManifestsIff | tools/version/update_version_in_ten_framework.py:257-304 | dependencies are updated in exactly the manifests of the bindings, the manifests and templates two levels below packages, and the manifests of the tests except one |
| VersionVisits.CoreIff | tools/version/update_version_in_ten_framework.py:195-222 | the core manifests are exactly the existing ones one level below the three core directories |
| VersionVisits.UpdatedPkgsIff | tools/version/update_version_in_ten_framework.py:178-189 | the updated packages are exactly those named by type and name in the system and core manifests |
| VersionVisits.DependenciesEndRight | tools/version/update_version_in_ten_framework.py:254-316 | after a successful run, in each of those files, every dependency that names a system or core package has the version, every other one the version it had, and all other fields and all places are as before |
| VersionVisits.VersionsEndRight | tools/version/update_version_in_ten_framework.py:135-251 | after a successful run exactly the system manifests, the core manifests and templates, and the test manifests that name a core package have the version set, and every other manifest has the version it had |
| VersionVisits.RenderedEndRight | tools/version/common.py:51-88 | after a successful run each of the two rendered files is what it was if it showed the version, and otherwise what its template renders to |
| VersionVisits.CheckMeans | tools/version/check_version_in_ten_framework.py:14-126 | the check passes if and only if both rendered files contain the version and the four system manifests have it as their field |
| VersionVisits.SucceedsIff | tools/version/update_version_in_ten_framework.py:69-316 | the exact condition for success in terms of the repository's paths and of the fields of the manifests |
| VersionVisits.OthersAreUntouched | tools/version/update_version_in_ten_framework.py:135-316 | no other file is created, removed or changed, even when the run fails |
| VersionVisits.OtherFieldsStay | tools/version/common.py:91-201 | no field of a manifest other than version and dependencies changes, even when the run fails |
| VersionScripts.RunPreservesTheRest | tools/version/update_version_in_ten_framework.py:135-316 | everything but versions and the two rendered files is as before, also after a failure |
| VersionScripts.SecondRunIsQuiet | tools/version/update_version_in_ten_framework.py:319-356 | a second run with the same version and date changes no file |
| VersionCode.Repository.UpdateVersionInManifestJsonFile | tools/version/common.py:125-153 | the file is rewritten exactly if its version differs |
| VersionCode.Repository.LoadManifest | tools/version/common.py:27-38 | a missing file is created empty; the content is returned exactly if it can be read |
| VersionCode.Repository.GetPkgInfoFromManifestFile | tools/version/update_version_in_ten_framework.py:24-27 | succeeds exactly if type and name are present, and returns them |
| VersionCode.Repository.UpdateAndCollect | tools/version/update_version_in_ten_framework.py:181-187 | the loop is the run of its steps; the packages are those the manifests named before |
| VersionCode.Repository.UpdateVersionInManifestJsonFileForPkgs | tools/version/common.py:91-116 | the same, for the packages of a list |
| VersionCode.Repository.SetDependencyVersions | tools/version/common.py:182-188 | the loop sets the named dependencies, and its flag is true exactly if one changed |
| VersionCode.Repository.UpdateDependencyVersionInManifestJsonFile | tools/version/common.py:167-201 | the file is rewritten exactly if a dependency changed, and fails where Python raises |
| VersionCode.Repository.UpdateVersionFromTemplate | tools/version/common.py:51-88 | the file is rendered exactly if it is missing or does not show the version |
| VersionCode.Repository.CollectManifestFiles | tools/version/update_version_in_ten_framework.py:30-66 | the manifests that exist one level below a directory, in order |
| VersionCode.Repository.CollectAndUpdateVersionOfSystemPackages | tools/version/update_version_in_ten_framework.py:135-189 | the loop is the run of its steps, and returns the packages |
| VersionCode.Repository.CollectAndUpdateVersionOfCorePackages | tools/version/update_version_in_ten_framework.py:192-251 | the loops are the run of their steps, and return the packages |
| VersionCode.Repository.UpdateDependenciesVersion | tools/version/update_version_in_ten_framework.py:254-316 | the loop is the run of its steps |
| VersionCode.Repository.UpdateVersions | tools/version/update_version_in_ten_framework.py:319-356 | the script is the run of all steps, phase by phase |
| VersionCode.Repository.CheckVersionOfSystemPackages | tools/version/check_version_in_ten_framework.py:54-108 | the loop returns the verdict of the check |
| VersionCode.Repository.CheckVariousVersions | tools/version/check_version_in_ten_framework.py:111-126 | the checks in order, with the first mismatch deciding |

## Left out

- Migration: one connection and one engine; several connections do not share state in this protocol except through the app.
- Migration: the closing of engines and remotes, which would close a migrated connection, is part of `Closing.dfy` only.
- Migration: the integrated protocol (`protocol_integrated.c`), which has no thread of its own; the hops of the implementation protocol follow the pseudo-code of `migration.h`, as the asynchronous implementation is not in the repository.
- Migration: the event `is_cleaned` on which the engine thread blocks with a time limit; in the model the task that ends the migration comes after the cleaning by the order of the hops.
- Migration: the results sent back to the client, and messages from other engines.
- MigrationCode.System.ConnectionOnProtocolClosed: a connection with a remote is destroyed in the step that reports the closing of its protocol, where the source leaves that to the closing of the remote (`remote/remote.c:49-52` and `:112-128`); a remote, and what it does between, is part of `Closing.dfy` only.
- MigrationProgress.EveryFirstMessageIsTaken: says nothing about how long a schedule takes; the queues are unbounded and so is the wait.
- Closing.Resources.MayClose: reads the reports a resource has received, where the source reads the `is_closed` flags and the lists of the contained resources; that a report and the flag are set together is how both are written.
- Closing: whether a container closes with its resources is fixed for each; an app with several engines, which closes by itself only with the last of them (`app/close.c:175-194`), is covered by its requests only.
- Closing: orphan connections and weak remotes are destroyed early, before the top is closed; timers and extension contexts count as contained resources without a flow of their own.
- Typed list: `construct`/`in_place` variants, creation and destruction of the list object itself, and signatures; copying without a copy callback calls a null pointer and is excluded.
- Typed list: failure of allocation.
- Align: what the function returns for an alignment that is no power of two and another address than the alignment itself.
- Cargo sorter: parsing and printing of TOML, comments and white space; `str.lower` is a parameter, so the results hold of any folding.
- Version scripts: JSON and template libraries are parameters, assumed to read back what they wrote; the layout of directories does not change during a run; Python's equality of numbers across types is not modelled when package names are compared, because names and types are strings.
- Version scripts: git, the date, the log, the command line, and the second copy of the scripts for the other framework name.
