/**
  The same steps as code that updates the objects in place. Each method is named after the
  function of the source it stands for, and is proved to do what Migration.dfy says.
 */
module MigrationCode {
  import opened Migration
  import opened MigrationTasks
  import M = Migration

  class Runloop {
    var tasks: seq<Task>

    constructor ()
      ensures tasks == []
    {
      tasks := [];
    }
  }

  class Connection {
    var migrationState: MigrationState
    var attachTo: AttachTo
    var belongingThread: Thread
    var onClosed: OnClosed
    var duplicate: bool
    var destroyed: bool

    constructor ()
      ensures migrationState == INIT && attachTo == APP && belongingThread == AppThread
      ensures onClosed == ByApp && !duplicate && !destroyed
    {
      migrationState, attachTo, belongingThread, onClosed := INIT, APP, AppThread, ByApp;
      duplicate, destroyed := false, false;
    }
  }

  class Protocol {
    var isClosing: bool

    constructor ()
      ensures !isClosing
    {
      isClosing := false;
    }
  }

  class App {
    const engineHasOwnLoop: bool
    var orphanConnections: set<Connection>
    var closing: bool

    constructor (engineHasOwnLoop: bool, connection: Connection)
      ensures this.engineHasOwnLoop == engineHasOwnLoop && orphanConnections == {connection} && !closing
    {
      this.engineHasOwnLoop := engineHasOwnLoop;
      orphanConnections, closing := {connection}, false;
    }
  }

  // The implementation protocol, with its mirror of the migration state.
  class Implementation {
    var mirror: MigrationState
    var inMsgs: seq<Msg>
    var hungUp: bool
    var closeAsked: bool
    var closed: bool

    constructor ()
      ensures mirror == INIT && inMsgs == [] && !hungUp && !closeAsked && !closed
    {
      mirror, inMsgs, hungUp, closeAsked, closed := INIT, [], false, false, false;
    }
  }

  // What has been observed: the messages, what became of them, and failed assertions.
  class Record {
    var arrived: seq<Msg>
    var log: seq<Entry>
    var fault: bool

    constructor ()
      ensures arrived == [] && log == [] && !fault
    {
      arrived, log, fault := [], [], false;
    }
  }

  lemma {:induction false} DeliverPost(s: State, posts: seq<Posting>, p: Posting)
    ensures var d := Deliver(s, posts);
            Deliver(s, posts + [p]) == WithQueue(d, p.thread, Queue(d, p.thread) + [p.task])
    decreases |posts|
  {
    if posts == [] {
      assert [] + [p] == [p] && [p][1..] == [];
    } else {
      var q := posts[0];
      assert (posts + [p])[1..] == posts[1..] + [p];
      DeliverPost(WithQueue(s, q.thread, Queue(s, q.thread) + [q.task]), posts[1..], p);
    }
  }

  lemma {:induction false} DeliverWithCore(s: State, c: Core, posts: seq<Posting>)
    ensures Deliver(s.(core := c), posts) == Deliver(s, posts).(core := c)
    decreases |posts|
  {
    if posts != [] {
      var p := posts[0];
      DeliverWithCore(WithQueue(s, p.thread, Queue(s, p.thread) + [p.task]), c, posts[1..]);
    }
  }

  class System {
    const app: App
    const connection: Connection
    const protocol: Protocol
    const implementation: Implementation
    const record: Record
    const appLoop: Runloop
    const engineLoop: Runloop
    const externalLoop: Runloop

    // What the task under execution has done so far, and the queues before it.
    ghost var began: State
    ghost var effect: Effect

    ghost function Parts(): set<object> {
      {this, app, connection, protocol, implementation, record, appLoop, engineLoop, externalLoop}
    }

    ghost function Fields(): Core
      reads Parts()
    {
      Core(app.engineHasOwnLoop, connection.migrationState, connection.attachTo, connection.belongingThread,
           connection in app.orphanConnections, connection.onClosed, connection.duplicate, protocol.isClosing,
           connection.destroyed, app.closing, implementation.mirror, implementation.inMsgs, implementation.hungUp,
           implementation.closeAsked, implementation.closed, record.arrived, record.log, record.fault)
    }

    // The state of the specification.
    ghost function Now(): State
      reads Parts()
    {
      State(Fields(), appLoop.tasks, engineLoop.tasks, externalLoop.tasks)
    }

    ghost predicate Distinct() {
      appLoop != engineLoop && appLoop != externalLoop && engineLoop != externalLoop
    }

    // The objects hold what c says.
    ghost predicate Holds(c: Core)
      reads Parts()
    {
      HoldsConnection(c) && HoldsRest(c) && HoldsMsgs(c)
    }

    ghost predicate HoldsConnection(c: Core)
      reads Parts()
    {
      && connection.migrationState == c.migration && connection.attachTo == c.attach
      && connection.belongingThread == c.owner && (connection in app.orphanConnections) == c.orphan
      && connection.onClosed == c.onClosed && connection.duplicate == c.duplicate && connection.destroyed == c.destroyed
    }

    ghost predicate HoldsRest(c: Core)
      reads Parts()
    {
      && app.engineHasOwnLoop == c.ownLoop && protocol.isClosing == c.protocolClosing && app.closing == c.appClosing
      && implementation.mirror == c.mirror && implementation.hungUp == c.hungUp
      && implementation.closeAsked == c.closeAsked && implementation.closed == c.gone && record.fault == c.fault
    }

    ghost predicate HoldsMsgs(c: Core)
      reads Parts()
    {
      implementation.inMsgs == c.pending && record.arrived == c.arrived && record.log == c.log
    }

    ghost predicate Valid()
      reads Parts()
    {
      && Distinct() && Holds(effect.core)
      && appLoop.tasks == Deliver(began, effect.posts).appQ
      && engineLoop.tasks == Deliver(began, effect.posts).engineQ
      && externalLoop.tasks == Deliver(began, effect.posts).externalQ
    }

    constructor (engineHasOwnLoop: bool)
      ensures Distinct() && Now() == Init(engineHasOwnLoop) && fresh(Parts())
      ensures app.engineHasOwnLoop == engineHasOwnLoop
    {
      appLoop := new Runloop();
      engineLoop := new Runloop();
      externalLoop := new Runloop();
      protocol := new Protocol();
      implementation := new Implementation();
      record := new Record();
      var c := new Connection();
      connection := c;
      app := new App(engineHasOwnLoop, c);
      began, effect := Init(engineHasOwnLoop), Effect(Init(engineHasOwnLoop).core, []);
      new;
      assert fresh(Parts());
      assert Holds(Init(engineHasOwnLoop).core);
    }

    function LoopOf(th: Thread): Runloop {
      match th
      case AppThread => appLoop
      case EngineThread => engineLoop
      case ExternalThread => externalLoop
    }

    method PostTaskTail(th: Thread, t: Task)
      requires Valid()
      modifies Parts()
      ensures Valid() && began == old(began) && effect == Post(old(effect), th, t)
    {
      DeliverPost(began, effect.posts, Posting(th, t));
      var loop := LoopOf(th);
      loop.tasks := loop.tasks + [t];
      effect := Post(effect, th, t);
    }

    // An assertion of the source.
    method Check(condition: bool)
      requires Valid()
      modifies Parts()
      ensures Valid() && began == old(began) && effect == Assert(old(effect), condition)
    {
      if !condition {
        record.fault := true;
      }
      effect := Assert(effect, condition);
    }

    method Note(msg: Msg, verdict: Verdict)
      requires Valid()
      modifies Parts()
      ensures Valid() && began == old(began) && effect == Log(old(effect), msg, verdict)
    {
      record.log := record.log + [Entry(msg, verdict)];
      effect := Log(effect, msg, verdict);
    }

    method EngineGetAttachedRunloop() returns (th: Thread)
      ensures th == EngineLoop(Fields())
    {
      th := if app.engineHasOwnLoop then EngineThread else AppThread;
    }

    method GetAttachedRunloop() returns (th: Thread)
      ensures th == AttachedLoop(Fields())
    {
      if connection.attachTo == APP {
        th := AppThread;
      } else {
        th := EngineGetAttachedRunloop();
      }
    }

    method AttachToEngine()
      requires Valid()
      modifies Parts()
      ensures Valid() && began == old(began)
      ensures effect == old(effect).(core := old(effect).core.(attach := ENGINE, onClosed := ByEngine))
    {
      connection.attachTo, connection.onClosed := ENGINE, ByEngine;
      effect := effect.(core := effect.core.(attach := ENGINE, onClosed := ByEngine));
    }

    method SetMigrationState(state: MigrationState)
      requires Valid()
      modifies Parts()
      ensures Valid() && began == old(began)
      ensures effect == old(effect).(core := old(effect).core.(migration := state))
    {
      connection.migrationState := state;
      effect := effect.(core := effect.core.(migration := state));
    }

    method SetBelongingThread(th: Thread)
      requires Valid()
      modifies Parts()
      ensures Valid() && began == old(began)
      ensures effect == old(effect).(core := old(effect).core.(owner := th))
    {
      connection.belongingThread := th;
      effect := effect.(core := effect.core.(owner := th));
    }

    method MarkAsDone(engine: bool)
      requires Valid()
      modifies Parts()
      ensures Valid() && began == old(began) && effect == Marked(old(effect), engine)
    {
      if engine {
        AttachToEngine();
        SetMigrationState(DONE);
      } else {
        SetMigrationState(DONE);
      }
    }

    method PostToAttachedLoop(t: Task)
      requires Valid()
      modifies Parts()
      ensures Valid() && began == old(began) && effect == Post(old(effect), AttachedLoop(old(effect).core), t)
    {
      LoopOfFields(effect.core);
      var th := GetAttachedRunloop();
      PostTaskTail(th, t);
    }

    lemma LoopOfFields(c: Core)
      requires Holds(c)
      ensures AttachedLoop(Fields()) == AttachedLoop(c) && EngineLoop(Fields()) == EngineLoop(c)
    {
    }

    method UpgradeMigrationStateToDone(engine: bool)
      requires Valid()
      modifies Parts()
      ensures Valid() && began == old(began) && effect == UpgradeToDone(old(effect), engine)
    {
      UpgradeIs(effect, engine);
      MarkAsDone(engine);
      PostToAttachedLoop(NotifyCleaned(false));
    }

    method MigrationStateResetWhenEngineNotFound()
      requires Valid()
      modifies Parts()
      ensures Valid() && began == old(began) && effect == ResetMigration(old(effect))
    {
      ResetIs(effect);
      Unmark();
      PostToAttachedLoop(NotifyCleaned(true));
    }

    method Unmark()
      requires Valid()
      modifies Parts()
      ensures Valid() && began == old(began) && effect == Unmarked(old(effect))
    {
      Check(connection.attachTo == APP);
      SetMigrationState(INIT);
    }

    method RemoveOrphan()
      requires Valid()
      modifies Parts()
      ensures Valid() && began == old(began)
      ensures effect == old(effect).(core := old(effect).core.(orphan := false, onClosed := NoCallback))
    {
      app.orphanConnections := app.orphanConnections - {connection};
      connection.onClosed := NoCallback;
      effect := effect.(core := effect.core.(orphan := false, onClosed := NoCallback));
    }

    method DelOrphanConnection()
      requires Valid()
      modifies Parts()
      ensures Valid() && began == old(began) && effect == DelOrphan(old(effect))
    {
      Check(connection in app.orphanConnections);
      RemoveOrphan();
    }

    method EngineAppendToInMsgsQueue(cmd: Msg)
      requires Valid()
      modifies Parts()
      ensures Valid() && began == old(began) && effect == AppendToEngine(old(effect), cmd)
    {
      Note(cmd, QueuedInEngine);
      var th := EngineGetAttachedRunloop();
      PostTaskTail(th, HandleInMsgs(IsDuplicate(cmd)));
    }

    method DoConnectionMigrationOrPushToEngineQueue(cmd: Msg)
      requires Valid()
      modifies Parts()
      ensures Valid() && began == old(began) && effect == MigrateOrPush(old(effect), cmd)
    {
      if connection.migrationState == FIRST_MSG {
        if app.engineHasOwnLoop {
          PostTaskTail(ExternalThread, ImplMigrate(cmd));
          return;
        }
        Check(connection.attachTo == APP);
        DelOrphanConnection();
        UpgradeMigrationStateToDone(true);
      }
      EngineAppendToInMsgsQueue(cmd);
    }

    method AppCloseAsync()
      requires Valid()
      modifies Parts()
      ensures Valid() && began == old(began) && effect == RequestAppClose(old(effect))
    {
      if app.closing {
        return;
      }
      app.closing := true;
      effect := effect.(core := effect.core.(appClosing := true));
      PostTaskTail(AppThread, AppClose);
    }

    method AppHandleCloseAppCmd(msg: Msg)
      requires Valid()
      modifies Parts()
      ensures Valid() && began == old(began)
      ensures effect == Log(RequestAppClose(UpgradeToDone(old(effect), false)), msg, ClosedApp)
    {
      UpgradeMigrationStateToDone(false);
      AppCloseAsync();
      Note(msg, ClosedApp);
    }

    method AppHandleStopGraphCmd(msg: Msg, found: bool)
      requires Valid()
      modifies Parts()
      ensures Valid() && began == old(began)
      ensures effect == if found then Post(Log(old(effect), msg, SentToStop), EngineLoop(old(effect).core), HandleStopGraph)
                        else Log(old(effect), msg, NothingToStop)
    {
      if found {
        Note(msg, SentToStop);
        var th := EngineGetAttachedRunloop();
        PostTaskTail(th, HandleStopGraph);
      } else {
        Note(msg, NothingToStop);
      }
    }

    method AppHandleInMsg(msg: Msg)
      requires Valid() && msg.Cmd?
      modifies Parts()
      ensures Valid() && began == old(began) && effect == M.AppHandleInMsg(old(effect), msg)
    {
      ghost var before := effect;
      Check(connection.migrationState == FIRST_MSG || connection.migrationState == DONE);
      assert effect == Reacting(before);
      match msg.route {
        case ToEngine(_) =>
          DoConnectionMigrationOrPushToEngineQueue(msg);
        case EngineNotFound =>
          MigrationStateResetWhenEngineNotFound();
          Note(msg, GraphNotFound);
        case CloseApp =>
          AppHandleCloseAppCmd(msg);
        case ToApp =>
          Note(msg, IgnoredByApp);
        case StopGraph(found) =>
          AppHandleStopGraphCmd(msg, found);
        case StartGraphRejected =>
          Note(msg, Rejected);
      }
      RouteIs(before, msg);
    }

    method ConnectionOnMsg(msg: Msg)
      requires Valid()
      modifies Parts()
      ensures Valid() && began == old(began) && effect == OnMsg(old(effect), msg)
    {
      OnMsgIs(effect, msg);
      var attachTo := connection.attachTo;
      Check(attachTo == APP || attachTo == REMOTE);
      if attachTo == REMOTE {
        Note(msg, GivenToRemote);
      } else if msg.NonCmd? || attachTo == ENGINE {
        Note(msg, DroppedNoRemote);
      } else {
        AppHandleInMsg(msg);
      }
    }

    method ConnectionOnMsgs(msgs: seq<Msg>)
      requires Valid()
      modifies Parts()
      ensures Valid() && began == old(began) && effect == OnMsgs(old(effect), msgs)
    {
      for i := 0 to |msgs|
        invariant Valid() && began == old(began)
        invariant OnMsgs(effect, msgs[i..]) == OnMsgs(old(effect), msgs)
      {
        assert msgs[i..][1..] == msgs[i + 1..];
        ConnectionOnMsg(msgs[i]);
      }
      assert msgs[|msgs|..] == [];
    }

    method DropMsgs(msgs: seq<Msg>)
      requires Valid()
      modifies Parts()
      ensures Valid() && began == old(began) && effect == DropAll(old(effect), msgs)
    {
      for i := 0 to |msgs|
        invariant Valid() && began == old(began)
        invariant DropAll(effect, msgs[i..]) == DropAll(old(effect), msgs)
      {
        assert msgs[i..][1..] == msgs[i + 1..];
        Note(msgs[i], DroppedClosing);
      }
      assert msgs[|msgs|..] == [];
    }

    method ProtocolCloseAsync()
      requires Valid()
      modifies Parts()
      ensures Valid() && began == old(began) && effect == ProtocolClose(old(effect))
    {
      if protocol.isClosing {
        return;
      }
      protocol.isClosing := true;
      effect := effect.(core := effect.core.(protocolClosing := true));
      PostTaskTail(ExternalThread, ImplClose);
    }

    method AcceptInput()
      requires Valid()
      modifies Parts()
      ensures Valid() && began == old(began) && effect == Accepting(old(effect))
    {
      if connection.migrationState == INIT {
        SetMigrationState(FIRST_MSG);
      } else {
        Check(connection.migrationState == DONE);
      }
    }

    method ProtocolOnInput(msg: Msg)
      requires Valid()
      modifies Parts()
      ensures Valid() && began == old(began) && effect == HandleInput(old(effect), msg)
    {
      InputIs(effect, msg);
      if protocol.isClosing {
        Note(msg, DroppedClosing);
      } else {
        AcceptInput();
        ConnectionOnMsg(msg);
      }
    }

    method ProtocolOnInputs(msgs: seq<Msg>)
      requires Valid()
      modifies Parts()
      ensures Valid() && began == old(began) && effect == HandleInputs(old(effect), msgs)
    {
      if protocol.isClosing {
        DropMsgs(msgs);
        return;
      }
      Check(connection.migrationState == DONE);
      ConnectionOnMsgs(msgs);
    }

    method EngineLinkConnectionToRemote(duplicate: bool)
      requires Valid()
      modifies Parts()
      ensures Valid() && began == old(began) && effect == LinkToRemote(old(effect), duplicate)
    {
      Check(connection.migrationState == DONE);
      if duplicate {
        SetDuplicate();
      } else if connection.attachTo != REMOTE {
        AttachToRemote();
      }
    }

    method SetDuplicate()
      requires Valid()
      modifies Parts()
      ensures Valid() && began == old(began)
      ensures effect == old(effect).(core := old(effect).core.(duplicate := true))
    {
      connection.duplicate := true;
      effect := effect.(core := effect.core.(duplicate := true));
    }

    method AttachToRemote()
      requires Valid()
      modifies Parts()
      ensures Valid() && began == old(began)
      ensures effect == old(effect).(core := old(effect).core.(attach := REMOTE, onClosed := ByRemote))
    {
      connection.attachTo, connection.onClosed := REMOTE, ByRemote;
      effect := effect.(core := effect.core.(attach := REMOTE, onClosed := ByRemote));
    }

    method ConnectionOnProtocolClosed()
      requires Valid()
      modifies Parts()
      ensures Valid() && began == old(began) && effect == ConnectionClosed(old(effect))
    {
      ClosingIs(effect);
      Check(connection.onClosed != NoCallback);
      ConnectionDestroy();
    }

    method ConnectionDestroy()
      requires Valid()
      modifies Parts()
      ensures Valid() && began == old(began)
      ensures effect == old(effect).(core := old(effect).core.(destroyed := true, orphan := false, onClosed := NoCallback))
    {
      app.orphanConnections := app.orphanConnections - {connection};
      connection.destroyed, connection.onClosed := true, NoCallback;
      effect := effect.(core := effect.core.(destroyed := true, orphan := false, onClosed := NoCallback));
    }

    // ---------- The tasks ----------

    method ProtocolOnInputTask(th: Thread, msg: Msg)
      requires Valid() && effect.posts == []
      modifies Parts()
      ensures Valid() && began == old(began) && effect == RunTask(old(effect.core), th, OnInput(msg))
    {
      Check(connection.belongingThread == th);
      ProtocolOnInput(msg);
    }

    method ProtocolOnInputsTask(th: Thread, msgs: seq<Msg>)
      requires Valid() && effect.posts == []
      modifies Parts()
      ensures Valid() && began == old(began) && effect == RunTask(old(effect.core), th, OnInputs(msgs))
    {
      Check(connection.belongingThread == th);
      ProtocolOnInputs(msgs);
    }

    method AppCleanConnectionTask(th: Thread, cmd: Msg)
      requires Valid() && effect.posts == []
      modifies Parts()
      ensures Valid() && began == old(began) && effect == RunTask(old(effect.core), th, Clean(cmd))
    {
      CleanIs(effect.core, th, cmd);
      Check(connection.belongingThread == th);
      Check(connection.attachTo == APP);
      DelOrphanConnection();
      PostTaskTail(ExternalThread, ImplClean(cmd));
    }

    method EngineOnConnectionCleanedTask(th: Thread, cmd: Msg)
      requires Valid() && effect.posts == []
      modifies Parts()
      ensures Valid() && began == old(began) && effect == RunTask(old(effect.core), th, OnCleaned(cmd))
    {
      OnCleanedIs(effect.core, th, cmd);
      SetBelongingThread(th);
      EngineAppendToInMsgsQueue(cmd);
      UpgradeMigrationStateToDone(true);
    }

    method ProtocolOnCleanedTask(th: Thread, reset: bool)
      requires Valid() && effect.posts == []
      modifies Parts()
      ensures Valid() && began == old(began) && effect == RunTask(old(effect.core), th, NotifyCleaned(reset))
    {
      Check(connection.belongingThread == th);
      PostTaskTail(ExternalThread, ImplOnCleaned(reset));
    }

    method EngineHandleInMsgsTask(th: Thread, duplicate: bool)
      requires Valid() && effect.posts == []
      modifies Parts()
      ensures Valid() && began == old(began) && effect == RunTask(old(effect.core), th, HandleInMsgs(duplicate))
    {
      Check(connection.belongingThread == th);
      EngineLinkConnectionToRemote(duplicate);
    }

    method EngineHandleStopGraphTask(th: Thread)
      requires Valid() && effect.posts == []
      modifies Parts()
      ensures Valid() && began == old(began) && effect == RunTask(old(effect.core), th, HandleStopGraph)
    {
      Check(connection.belongingThread == th);
      Check(connection.migrationState == DONE);
    }

    method AppCloseTask(th: Thread)
      requires Valid() && effect.posts == []
      modifies Parts()
      ensures Valid() && began == old(began) && effect == RunTask(old(effect.core), th, AppClose)
    {
      if connection in app.orphanConnections {
        Check(connection.belongingThread == th);
        ProtocolCloseAsync();
      }
    }

    method ProtocolCloseTask(th: Thread)
      requires Valid() && effect.posts == []
      modifies Parts()
      ensures Valid() && began == old(began) && effect == RunTask(old(effect.core), th, CloseProtocol)
    {
      Check(connection.belongingThread == th);
      ProtocolCloseAsync();
    }

    method ProtocolOnCloseTask(th: Thread)
      requires Valid() && effect.posts == []
      modifies Parts()
      ensures Valid() && began == old(began) && effect == RunTask(old(effect.core), th, ProtocolClosed)
    {
      Check(connection.belongingThread == th);
      ConnectionOnProtocolClosed();
    }

    // The tasks of the implementation protocol, and the hops that only pass the command on.
    method ImplementationTask(th: Thread, task: Task)
      requires Valid() && effect.posts == []
      requires task.ImplMigrate? || task.OnMigrated? || task.ImplClean? || task.ImplOnCleaned? || task.ImplClose?
      modifies Parts()
      ensures Valid() && began == old(began) && effect == RunTask(old(effect.core), th, task)
    {
      ghost var c := effect.core;
      if task.ImplOnCleaned? {
        RunsImplOnCleaned(c, th, task.reset);
        SetMirror(if task.reset then INIT else DONE);
      } else if task.ImplClose? {
        RunsImplClose(c, th);
        implementation.closeAsked := true;
        effect := effect.(core := c.(closeAsked := true));
      } else {
        RunsHop(c, th, task.cmd);
        if task.ImplMigrate? {
          PostTaskTail(EngineThread, OnMigrated(task.cmd));
        } else if task.OnMigrated? {
          PostTaskTail(AppThread, Clean(task.cmd));
        } else {
          PostTaskTail(EngineThread, OnCleaned(task.cmd));
        }
      }
    }

    method SetMirror(mirror: MigrationState)
      requires Valid()
      modifies Parts()
      ensures Valid() && began == old(began)
      ensures effect == old(effect).(core := old(effect).core.(mirror := mirror))
    {
      implementation.mirror := mirror;
      effect := effect.(core := effect.core.(mirror := mirror));
    }

    method Execute(th: Thread, task: Task)
      requires Valid() && effect.posts == []
      modifies Parts()
      ensures Valid() && began == old(began) && effect == RunTask(old(effect.core), th, task)
    {
      match task {
        case OnInput(msg) => ProtocolOnInputTask(th, msg);
        case OnInputs(msgs) => ProtocolOnInputsTask(th, msgs);
        case Clean(cmd) => AppCleanConnectionTask(th, cmd);
        case OnCleaned(cmd) => EngineOnConnectionCleanedTask(th, cmd);
        case NotifyCleaned(reset) => ProtocolOnCleanedTask(th, reset);
        case HandleInMsgs(duplicate) => EngineHandleInMsgsTask(th, duplicate);
        case HandleStopGraph => EngineHandleStopGraphTask(th);
        case AppClose => AppCloseTask(th);
        case CloseProtocol => ProtocolCloseTask(th);
        case ProtocolClosed => ProtocolOnCloseTask(th);
        case _ => ImplementationTask(th, task);
      }
    }

    lemma FieldsHold()
      ensures Holds(Fields())
    {
    }

    ghost method Begin()
      requires Distinct()
      modifies this`began, this`effect
      ensures Valid() && Now() == old(Now()) == began && effect == Effect(Fields(), [])
    {
      began, effect := Now(), Effect(Fields(), []);
      FieldsHold();
    }

    lemma Finished()
      requires Valid()
      ensures Now() == Deliver(began.(core := effect.core), effect.posts)
    {
      FieldsHold();
      DeliverWithCore(began, effect.core, effect.posts);
    }

    // ---------- The steps ----------

    method RunLoopOnce(th: Thread)
      requires Distinct()
      modifies Parts()
      ensures Now() == Next(old(Now()), Run(th))
    {
      var loop := LoopOf(th);
      if loop.tasks == [] {
        return;
      }
      var task := loop.tasks[0];
      loop.tasks := loop.tasks[1..];
      Begin();
      assert began == Popped(old(Now()), Run(th));
      Execute(th, task);
      Finished();
    }

    // The client sends a message to the implementation protocol.
    method ReceiveMsg(msg: Msg)
      requires Distinct()
      modifies Parts()
      ensures Now() == Next(old(Now()), Arrive(msg))
    {
      if implementation.hungUp || implementation.closed {
        return;
      }
      record.arrived := record.arrived + [msg];
      implementation.inMsgs := implementation.inMsgs + [msg];
    }

    // One message alone before the migration, all of them after it.
    method HandOverMsgs()
      requires Distinct()
      modifies Parts()
      ensures Now() == Next(old(Now()), Feed)
    {
      if implementation.inMsgs == [] || implementation.hungUp || implementation.closed {
        return;
      }
      if implementation.mirror == INIT {
        HandOverFirst();
      } else if implementation.mirror == DONE {
        HandOverAll();
      }
    }

    method HandOverFirst()
      requires Distinct() && Enabled(Now(), Feed) && implementation.mirror == INIT
      modifies Parts()
      ensures Now() == Next(old(Now()), Feed)
    {
      FeedFirstIs(Now());
      NextIs(Now(), Feed);
      Begin();
      var th := GetAttachedRunloop();
      var msgs := implementation.inMsgs;
      TakeFirst();
      PostTaskTail(th, OnInput(msgs[0]));
      Finished();
    }

    method HandOverAll()
      requires Distinct() && Enabled(Now(), Feed) && implementation.mirror == DONE
      modifies Parts()
      ensures Now() == Next(old(Now()), Feed)
    {
      FeedAllIs(Now());
      NextIs(Now(), Feed);
      Begin();
      var th := GetAttachedRunloop();
      var msgs := implementation.inMsgs;
      SetInMsgs([]);
      PostTaskTail(th, OnInputs(msgs));
      Finished();
    }

    method TakeFirst()
      requires Valid() && implementation.inMsgs != []
      modifies Parts()
      ensures Valid() && began == old(began)
      ensures effect == old(effect).(core := old(effect).core.(mirror := FIRST_MSG, pending := old(effect).core.pending[1..]))
    {
      SetInMsgs(implementation.inMsgs[1..]);
      SetMirror(FIRST_MSG);
    }

    method SetInMsgs(msgs: seq<Msg>)
      requires Valid()
      modifies Parts()
      ensures Valid() && began == old(began)
      ensures effect == old(effect).(core := old(effect).core.(pending := msgs))
    {
      implementation.inMsgs := msgs;
      effect := effect.(core := effect.core.(pending := msgs));
    }

    method ClientLeaves()
      requires Distinct()
      modifies Parts()
      ensures Now() == Next(old(Now()), HangUp)
    {
      if implementation.hungUp || implementation.closed || implementation.mirror == FIRST_MSG {
        return;
      }
      OutsideIs(Now(), HangUp);
      NextIs(Now(), HangUp);
      Begin();
      LoopOfFields(effect.core);
      var th := GetAttachedRunloop();
      SetHungUp();
      PostTaskTail(th, CloseProtocol);
      Finished();
    }

    method SetHungUp()
      requires Valid()
      modifies Parts()
      ensures Valid() && began == old(began)
      ensures effect == old(effect).(core := old(effect).core.(hungUp := true))
    {
      implementation.hungUp := true;
      effect := effect.(core := effect.core.(hungUp := true));
    }

    method ImplementationCloses()
      requires Distinct()
      modifies Parts()
      ensures Now() == Next(old(Now()), FinishClose)
    {
      if !implementation.closeAsked || implementation.closed || implementation.mirror == FIRST_MSG {
        return;
      }
      OutsideIs(Now(), FinishClose);
      NextIs(Now(), FinishClose);
      Begin();
      LoopOfFields(effect.core);
      var th := GetAttachedRunloop();
      SetClosed();
      PostTaskTail(th, ProtocolClosed);
      Finished();
    }

    method SetClosed()
      requires Valid()
      modifies Parts()
      ensures Valid() && began == old(began)
      ensures effect == old(effect).(core := old(effect).core.(gone := true))
    {
      implementation.closed := true;
      effect := effect.(core := effect.core.(gone := true));
    }

    method CloseTheApp()
      requires Distinct()
      modifies Parts()
      ensures Now() == Next(old(Now()), AskAppClose)
    {
      Begin();
      AppCloseAsync();
      Finished();
    }
  }
}
