/**
  Migration of a connection from the app thread to the engine thread, with an implementation
  protocol that has a thread of its own (core/src/axis_runtime/connection/migration.c and the
  functions around it; core/include_internal/axis_runtime/connection/migration.h for the
  implementation protocol's side).

  One connection, three threads, one first-in-first-out task queue per thread. A state is a
  value and a step is a function, so that runs can be reasoned about; MigrationCode.dfy has
  the same steps as code that updates the objects in place.
 */
module Migration {

  datatype Thread = AppThread | EngineThread | ExternalThread

  datatype MigrationState = INIT | FIRST_MSG | DONE

  datatype AttachTo = APP | ENGINE | REMOTE

  // What the app finds out about a command: the branch taken by axis_app_handle_in_msg().
  datatype Route =
    | ToEngine(duplicate: bool) // the engine exists or is created; duplicate: see HandleInMsgs
    | EngineNotFound            // no engine for the destination graph
    | CloseApp
    | ToApp                     // the destination is the app itself
    | StopGraph(found: bool)    // found: the engine to be stopped exists
    | StartGraphRejected        // the start_graph command fails its check

  datatype Msg = Cmd(id: nat, route: Route) | NonCmd(id: nat)

  // What became of a message that reached the runtime.
  datatype Verdict =
    | QueuedInEngine
    | GivenToRemote
    | GraphNotFound
    | ClosedApp
    | IgnoredByApp
    | SentToStop
    | NothingToStop
    | Rejected
    | DroppedNoRemote
    | DroppedClosing

  datatype Entry = Entry(msg: Msg, verdict: Verdict)

  datatype Task =
    | OnInput(msg: Msg)           // axis_protocol_on_input
    | OnInputs(msgs: seq<Msg>)    // axis_protocol_on_inputs
    | ImplMigrate(cmd: Msg)       // implementation::migrate
    | OnMigrated(cmd: Msg)        // protocol::on_migrated
    | Clean(cmd: Msg)             // axis_app_clean_connection_task
    | ImplClean(cmd: Msg)         // implementation::clean
    | OnCleaned(cmd: Msg)         // axis_engine_on_connection_cleaned_task
    | NotifyCleaned(reset: bool)  // axis_protocol_on_cleaned_task
    | ImplOnCleaned(reset: bool)  // implementation::on_cleaned
    | HandleInMsgs(duplicate: bool) // axis_engine_handle_in_msgs_task, first command of the connection
    | HandleStopGraph             // axis_engine_handle_in_msgs_task, stop_graph without a migration
    | AppClose                    // axis_app_close_task
    | CloseProtocol               // the implementation asks for the closing, ex: the client left
    | ImplClose                   // protocol->close(): the implementation shall close
    | ProtocolClosed              // axis_protocol_on_close: the implementation has closed

  // The callback stored in axis_connection_t::on_closed.
  datatype OnClosed = NoCallback | ByApp | ByEngine | ByRemote

  // Everything except the task queues. `arrived` and `log` are the history of the messages.
  datatype Core = Core(
    ownLoop: bool,             // axis_engine_t::has_own_loop, fixed by the app's configuration
    migration: MigrationState, // axis_connection_t::migration_state
    attach: AttachTo,          // axis_connection_t::attach_to
    owner: Thread,             // the belonging thread of the connection and its protocol
    orphan: bool,              // the connection is in axis_app_t::orphan_connections
    onClosed: OnClosed,
    duplicate: bool,           // axis_connection_t::duplicate
    protocolClosing: bool,     // axis_protocol_t::is_closing
    destroyed: bool,           // axis_connection_destroy has run
    appClosing: bool,          // the app was told to close
    mirror: MigrationState,    // the copy held by the implementation protocol
    pending: seq<Msg>,         // messages held back by the implementation protocol
    hungUp: bool,              // the implementation protocol has asked for the closing
    closeAsked: bool,          // the implementation protocol was told to close
    gone: bool,                // the implementation protocol has closed
    arrived: seq<Msg>,         // all messages received from the client so far
    log: seq<Entry>,           // all messages that reached the runtime so far, in order
    fault: bool)               // an assertion of the source failed

  datatype State = State(core: Core, appQ: seq<Task>, engineQ: seq<Task>, externalQ: seq<Task>)

  function Init(ownLoop: bool): State {
    State(Core(ownLoop, INIT, APP, AppThread, true, ByApp, false, false, false, false,
               INIT, [], false, false, false, [], [], false), [], [], [])
  }

  // ---------- Queues ----------

  function Queue(s: State, th: Thread): seq<Task> {
    match th
    case AppThread => s.appQ
    case EngineThread => s.engineQ
    case ExternalThread => s.externalQ
  }

  function WithQueue(s: State, th: Thread, q: seq<Task>): State {
    match th
    case AppThread => s.(appQ := q)
    case EngineThread => s.(engineQ := q)
    case ExternalThread => s.(externalQ := q)
  }

  datatype Posting = Posting(thread: Thread, task: Task)

  // A task under execution: the core so far, and what was posted so far.
  datatype Effect = Effect(core: Core, posts: seq<Posting>)

  // axis_runloop_post_task_tail
  function Post(e: Effect, th: Thread, t: Task): Effect {
    e.(posts := e.posts + [Posting(th, t)])
  }

  function Deliver(s: State, posts: seq<Posting>): State
    decreases |posts|
  {
    if posts == [] then s
    else
      var p := posts[0];
      Deliver(WithQueue(s, p.thread, Queue(s, p.thread) + [p.task]), posts[1..])
  }

  // The thread whose loop the engine uses.
  function EngineLoop(c: Core): Thread {
    if c.ownLoop then EngineThread else AppThread
  }

  // axis_connection_get_attached_runloop
  function AttachedLoop(c: Core): Thread {
    if c.attach == APP then AppThread else EngineLoop(c)
  }

  /**
    An assertion of the source. These are counted:
    the check of the belonging thread of the connection by every task that RunTask checks;
    the attached target in axis_connection_on_msgs and axis_connection_on_input, in
    axis_connection_needs_to_migrate, in the reset of the migration and in the cleaning;
    the migration state in axis_protocol_on_input, axis_protocol_on_inputs,
    axis_app_handle_in_msg and axis_engine_handle_in_msgs_sync;
    the success of removing the connection from the orphan list;
    the presence of the callback when the connection has closed.
    Not counted are null and signature checks, thread checks of other objects, and those of
    the functions that post the hops of the implementation protocol, which the repository
    declares but does not call.
   */
  function Assert(e: Effect, condition: bool): Effect {
    if condition then e else e.(core := e.core.(fault := true))
  }

  // ---------- The runtime's side ----------

  function Log(e: Effect, msg: Msg, verdict: Verdict): Effect {
    e.(core := e.core.(log := e.core.log + [Entry(msg, verdict)]))
  }

  // axis_connection_upgrade_migration_state_to_done
  function UpgradeToDone(e: Effect, engine: bool): Effect {
    var c := if engine then e.core.(attach := ENGINE, onClosed := ByEngine) else e.core;
    Post(e.(core := c.(migration := DONE)), AttachedLoop(c), NotifyCleaned(false))
  }

  // axis_connection_migration_state_reset_when_engine_not_found
  function ResetMigration(e: Effect): Effect {
    var e1 := Assert(e, e.core.attach == APP);
    Post(e1.(core := e1.core.(migration := INIT)), AttachedLoop(e.core), NotifyCleaned(true))
  }

  // axis_app_del_orphan_connection
  function DelOrphan(e: Effect): Effect {
    var e1 := Assert(e, e.core.orphan);
    e1.(core := e1.core.(orphan := false, onClosed := NoCallback))
  }

  predicate IsDuplicate(cmd: Msg) {
    cmd.Cmd? && cmd.route.ToEngine? && cmd.route.duplicate
  }

  // axis_engine_append_to_in_msgs_queue
  function AppendToEngine(e: Effect, cmd: Msg): Effect {
    Post(Log(e, cmd, QueuedInEngine), EngineLoop(e.core), HandleInMsgs(IsDuplicate(cmd)))
  }

  // axis_app_do_connection_migration_or_push_to_engine_queue, with
  // axis_connection_needs_to_migrate
  function MigrateOrPush(e: Effect, cmd: Msg): Effect {
    if e.core.migration == FIRST_MSG then
      if e.core.ownLoop then Post(e, ExternalThread, ImplMigrate(cmd))
      else AppendToEngine(UpgradeToDone(DelOrphan(Assert(e, e.core.attach == APP)), true), cmd)
    else
      AppendToEngine(e, cmd)
  }

  // axis_app_close
  function RequestAppClose(e: Effect): Effect {
    if e.core.appClosing then e
    else Post(e.(core := e.core.(appClosing := true)), AppThread, AppClose)
  }

  // axis_app_handle_in_msg, for a command that comes through the connection
  function AppHandleInMsg(e: Effect, msg: Msg): Effect
    requires msg.Cmd?
  {
    var e1 := Assert(e, e.core.migration == FIRST_MSG || e.core.migration == DONE);
    match msg.route
    case ToEngine(_) => MigrateOrPush(e1, msg)
    case EngineNotFound => Log(ResetMigration(e1), msg, GraphNotFound)
    case CloseApp => Log(RequestAppClose(UpgradeToDone(e1, false)), msg, ClosedApp)
    case ToApp => Log(e1, msg, IgnoredByApp)
    case StopGraph(found) =>
      if found then Post(Log(e1, msg, SentToStop), EngineLoop(e1.core), HandleStopGraph) else Log(e1, msg, NothingToStop)
    case StartGraphRejected => Log(e1, msg, Rejected)
  }

  // axis_connection_on_msgs, one message
  function OnMsg(e: Effect, msg: Msg): Effect {
    var e1 := Assert(e, e.core.attach == APP || e.core.attach == REMOTE);
    if e.core.attach == REMOTE then Log(e1, msg, GivenToRemote)
    else if msg.NonCmd? || e.core.attach == ENGINE then Log(e1, msg, DroppedNoRemote)
    else AppHandleInMsg(e1, msg)
  }

  function OnMsgs(e: Effect, msgs: seq<Msg>): Effect
    decreases |msgs|
  {
    if msgs == [] then e else OnMsgs(OnMsg(e, msgs[0]), msgs[1..])
  }

  function DropAll(e: Effect, msgs: seq<Msg>): Effect
    decreases |msgs|
  {
    if msgs == [] then e else DropAll(Log(e, msgs[0], DroppedClosing), msgs[1..])
  }

  // axis_protocol_close
  function ProtocolClose(e: Effect): Effect {
    if e.core.protocolClosing then e
    else Post(e.(core := e.core.(protocolClosing := true)), ExternalThread, ImplClose)
  }

  // axis_protocol_on_input
  function HandleInput(e: Effect, msg: Msg): Effect {
    if e.core.protocolClosing then Log(e, msg, DroppedClosing)
    else
      var e1 := Assert(e, e.core.migration == INIT || e.core.migration == DONE);
      var e2 := if e1.core.migration == INIT then e1.(core := e1.core.(migration := FIRST_MSG)) else e1;
      OnMsg(e2, msg)
  }

  // axis_protocol_on_inputs
  function HandleInputs(e: Effect, msgs: seq<Msg>): Effect {
    if e.core.protocolClosing then DropAll(e, msgs)
    else OnMsgs(Assert(e, e.core.migration == DONE), msgs)
  }

  // The first command creates the remote, unless its channel turns out to be a duplicate.
  function LinkToRemote(e: Effect, duplicate: bool): Effect {
    var e1 := Assert(e, e.core.migration == DONE);
    if duplicate then e1.(core := e1.core.(duplicate := true))
    else if e1.core.attach != REMOTE then e1.(core := e1.core.(attach := REMOTE, onClosed := ByRemote))
    else e1
  }

  // axis_connection_do_close, reached through axis_connection_on_protocol_closed
  function ConnectionClosed(e: Effect): Effect {
    var e1 := Assert(e, e.core.onClosed != NoCallback);
    e1.(core := e1.core.(destroyed := true, orphan := false, onClosed := NoCallback))
  }

  // Execution of one task by a thread. Where the source checks the belonging thread of the
  // connection, so does this function.
  function RunTask(c: Core, th: Thread, task: Task): Effect {
    var e := Effect(c, []);
    var checked := Assert(e, c.owner == th);
    match task
    case OnInput(msg) => HandleInput(checked, msg)
    case OnInputs(msgs) => HandleInputs(checked, msgs)
    case ImplMigrate(cmd) => Post(e, EngineThread, OnMigrated(cmd))
    case OnMigrated(cmd) => Post(e, AppThread, Clean(cmd))
    case Clean(cmd) => Post(DelOrphan(Assert(checked, c.attach == APP)), ExternalThread, ImplClean(cmd))
    case ImplClean(cmd) => Post(e, EngineThread, OnCleaned(cmd))
    case OnCleaned(cmd) => UpgradeToDone(AppendToEngine(e.(core := c.(owner := th)), cmd), true)
    case NotifyCleaned(reset) => Post(checked, ExternalThread, ImplOnCleaned(reset))
    case ImplOnCleaned(reset) => e.(core := c.(mirror := if reset then INIT else DONE))
    case HandleInMsgs(duplicate) => LinkToRemote(checked, duplicate)
    case HandleStopGraph => Assert(checked, c.migration == DONE)
    case AppClose => if c.orphan then ProtocolClose(checked) else e
    case CloseProtocol => ProtocolClose(checked)
    case ImplClose => e.(core := c.(closeAsked := true))
    case ProtocolClosed => ConnectionClosed(checked)
  }

  // ---------- The steps ----------

  datatype Label =
    | Arrive(msg: Msg)   // the client sends a message
    | Feed               // the implementation hands messages over, as its mirror allows
    | HangUp             // the client leaves
    | FinishClose        // the implementation closes after it was told to
    | AskAppClose        // the app is told to close by someone else
    | Run(thread: Thread)

  predicate MayUseLoop(c: Core) {
    c.mirror == INIT || c.mirror == DONE
  }

  predicate Enabled(s: State, l: Label) {
    var c := s.core;
    match l
    case Arrive(_) => !c.hungUp && !c.gone
    case Feed => c.pending != [] && !c.hungUp && !c.gone && MayUseLoop(c)
    case HangUp => !c.hungUp && !c.gone && MayUseLoop(c)
    case FinishClose => c.closeAsked && !c.gone && MayUseLoop(c)
    case AskAppClose => !c.appClosing
    case Run(th) => Queue(s, th) != []
  }

  // What the step does besides taking the head of the queue of a running thread.
  function EffectOf(s: State, l: Label): Effect
    requires Enabled(s, l)
  {
    var c := s.core;
    var e := Effect(c, []);
    match l
    case Arrive(msg) => e.(core := c.(arrived := c.arrived + [msg], pending := c.pending + [msg]))
    case Feed =>
      if c.mirror == INIT then
        Post(e.(core := c.(mirror := FIRST_MSG, pending := c.pending[1..])), AttachedLoop(c), OnInput(c.pending[0]))
      else
        Post(e.(core := c.(pending := [])), AttachedLoop(c), OnInputs(c.pending))
    case HangUp => Post(e.(core := c.(hungUp := true)), AttachedLoop(c), CloseProtocol)
    case FinishClose => Post(e.(core := c.(gone := true)), AttachedLoop(c), ProtocolClosed)
    case AskAppClose => RequestAppClose(e)
    case Run(th) => RunTask(c, th, Queue(s, th)[0])
  }

  function Popped(s: State, l: Label): State
    requires Enabled(s, l)
  {
    if l.Run? then WithQueue(s, l.thread, Queue(s, l.thread)[1..]) else s
  }

  // A step that is not enabled changes nothing.
  function Next(s: State, l: Label): State {
    if Enabled(s, l) then
      var e := EffectOf(s, l);
      Deliver(Popped(s, l).(core := e.core), e.posts)
    else s
  }

  function RunAll(s: State, labels: seq<Label>): State
    decreases |labels|
  {
    if labels == [] then s else RunAll(Next(s, labels[0]), labels[1..])
  }
}
