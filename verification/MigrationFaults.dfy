/**
  Which assertions of the source can fail in the migration, and exactly when.
 */
module MigrationFaults {
  import opened Migration
  import opened MigrationViews
  import opened MigrationSafety
  import opened MigrationTasks
  import opened MigrationRuns
  import opened MigrationLog
  import opened MigrationLaws

  // The first message finds the connection at the app, in the orphan list and not migrated.
  lemma FirstMessageKeepsFault(c: Core, msg: Msg)
    requires c.owner == AppThread && c.attach == APP && c.migration == INIT && c.orphan
    ensures RunTask(c, AppThread, OnInput(msg)).core.fault == c.fault
  {
    var e := Effect(c, []);
    assert RunTask(c, AppThread, OnInput(msg)) == HandleInput(e, msg);
    if !c.protocolClosing {
      var e1 := Effect(c.(migration := FIRST_MSG), []);
      assert HandleInput(e, msg) == OnMsg(e1, msg);
      if msg.Cmd? {
        assert OnMsg(e1, msg) == AppHandleInMsg(e1, msg);
        RouteKeepsFault(e1, msg);
      }
    }
  }

  lemma RouteKeepsFault(e: Effect, msg: Msg)
    requires e.core.attach == APP && e.core.migration == FIRST_MSG && e.core.orphan && msg.Cmd?
    ensures AppHandleInMsg(e, msg).core.fault == e.core.fault
  {
    if msg.route.ToEngine? {
      MigratingKeepsFault(e, msg);
    } else if msg.route.EngineNotFound? {
      ResetKeepsFault(e, msg);
    } else if msg.route.CloseApp? {
      ClosingKeepsFault(e, msg);
    } else if msg.route.StopGraph? {
      assert AppHandleInMsg(e, msg).core.fault == e.core.fault;
    }
  }

  lemma MigratingKeepsFault(e: Effect, cmd: Msg)
    requires e.core.attach == APP && e.core.migration == FIRST_MSG && e.core.orphan && cmd.Cmd? && cmd.route.ToEngine?
    ensures AppHandleInMsg(e, cmd).core.fault == e.core.fault
  {
    assert UpgradeToDone(DelOrphan(e), true).core.fault == e.core.fault;
    assert AppHandleInMsg(e, cmd) == MigrateOrPush(e, cmd);
  }

  lemma ResetKeepsFault(e: Effect, cmd: Msg)
    requires e.core.attach == APP && e.core.migration == FIRST_MSG && cmd.Cmd? && cmd.route.EngineNotFound?
    ensures AppHandleInMsg(e, cmd).core.fault == e.core.fault
  {
    assert ResetMigration(e).core.fault == e.core.fault;
    assert AppHandleInMsg(e, cmd) == Log(ResetMigration(e), cmd, GraphNotFound);
  }

  lemma ClosingKeepsFault(e: Effect, cmd: Msg)
    requires e.core.migration == FIRST_MSG && cmd.Cmd? && cmd.route.CloseApp?
    ensures AppHandleInMsg(e, cmd).core.fault == e.core.fault
  {
    assert UpgradeToDone(e, false).core.fault == e.core.fault;
    assert AppHandleInMsg(e, cmd) == Log(RequestAppClose(UpgradeToDone(e, false)), cmd, ClosedApp);
  }

  lemma CloseKeepsFault(c: Core, th: Thread, t: Task)
    requires t.CloseProtocol? || t.AppClose?
    requires t.CloseProtocol? || c.orphan ==> c.owner == th
    ensures RunTask(c, th, t).core.fault == c.fault
  {
    if t.AppClose? && !c.orphan {
      RunsAppClose(c, th);
    } else {
      RunsClose(c, th, t);
    }
  }

  lemma OnCleanedKeepsFault(c: Core, th: Thread, cmd: Msg)
    ensures RunTask(c, th, OnCleaned(cmd)).core.fault == c.fault
  {
    var e := AppendToEngine(Effect(c.(owner := th), []), cmd);
    assert RunTask(c, th, OnCleaned(cmd)) == UpgradeToDone(e, true);
  }

  lemma CleanKeepsFault(c: Core, cmd: Msg)
    requires c.owner == AppThread && c.attach == APP && c.orphan
    ensures RunTask(c, AppThread, Clean(cmd)).core.fault == c.fault
  {
    assert RunTask(c, AppThread, Clean(cmd)) == Post(DelOrphan(Effect(c, [])), ExternalThread, ImplClean(cmd));
  }

  // A batch trips the assertion of axis_connection_on_msgs.
  predicate TripsOn(c: Core, msgs: seq<Msg>) {
    msgs != [] && !c.protocolClosing && c.attach == ENGINE
  }

  lemma BatchFault(y: Sight, th: Thread, msgs: seq<Msg>)
    requires Control(Before(y, th, OnInputs(msgs))) && AllCoherent(y)
    ensures RunTask(y.core, th, OnInputs(msgs)).core.fault <==> y.core.fault || TripsOn(y.core, msgs)
  {
    InputsReachRemote(y, th, msgs);
    var e := Effect(y.core, []);
    if y.core.protocolClosing {
      assert RunTask(y.core, th, OnInputs(msgs)) == DropAll(e, msgs);
      DropAllEffect(e, msgs);
    } else {
      assert RunTask(y.core, th, OnInputs(msgs)) == OnMsgs(e, msgs);
      OnMsgsEffect(e, msgs);
    }
  }

  lemma TokenKeepsFault(y: Sight, th: Thread, t: Task)
    requires Control(Before(y, th, t)) && AllCoherent(y) && IsToken(t)
    ensures RunTask(y.core, th, t).core.fault == y.core.fault
  {
    HeadToken(y, th, t);
    if t.OnInput? {
      FirstMessageKeepsFault(y.core, t.msg);
    } else if t.Clean? {
      CleanKeepsFault(y.core, t.cmd);
    } else if t.OnCleaned? {
      OnCleanedKeepsFault(y.core, th, t.cmd);
    } else if t.NotifyCleaned? {
      RunsNotify(y.core, th, t.reset);
    } else if t.ImplOnCleaned? {
      RunsImplOnCleaned(y.core, th, t.reset);
    } else {
      RunsHop(y.core, th, t.cmd);
    }
  }

  lemma TaskFault(y: Sight, th: Thread, t: Task)
    requires Control(Before(y, th, t)) && AllCoherent(y)
    ensures RunTask(y.core, th, t).core.fault
            <==> y.core.fault || t.HandleStopGraph? || (t.OnInputs? && TripsOn(y.core, t.msgs))
  {
    if t.OnInputs? {
      BatchFault(y, th, t.msgs);
    } else if IsToken(t) {
      TokenKeepsFault(y, th, t);
    } else if t.HandleStopGraph? {
      StopsMeanStalled(y, th);
    } else if t.HandleInMsgs? {
      LinkRunsAtOwner(y, th, t.duplicate);
      RunsLink(y.core, th, t.duplicate);
    } else if t.ProtocolClosed? {
      ProtocolClosedIsLast(y, th);
      RunsClosed(y.core, th);
    } else if t.AppClose? || t.CloseProtocol? {
      if t.CloseProtocol? || y.core.orphan {
        CloseTaskRunsAtOwner(y, th, t);
      }
      CloseKeepsFault(y.core, th, t);
    }
  }

  // The batch at the head of a queue reaches a connection that an engine has and no remote.
  predicate BatchWithoutRemote(s: State, th: Thread) {
    var q := Queue(s, th);
    q != [] && q[0].OnInputs? && TripsOn(s.core, q[0].msgs)
  }

  // The engine gets to a stop_graph command whose connection has not migrated.
  predicate StopWithoutMigration(s: State, th: Thread) {
    Queue(s, th) != [] && Queue(s, th)[0].HandleStopGraph?
  }

  lemma RunFault(s: State, th: Thread)
    requires Inv(s) && Queue(s, th) != []
    ensures Next(s, Run(th)).core.fault <==> s.core.fault || BatchWithoutRemote(s, th) || StopWithoutMigration(s, th)
  {
    NextCore(s, Run(th));
    RunningSees(s, th);
    TaskFault(See(Popped(s, Run(th))), th, Queue(s, th)[0]);
  }

  lemma OutsideFault(s: State, l: Label)
    requires !l.Run?
    ensures Next(s, l).core.fault == s.core.fault
  {
    NextCore(s, l);
    if Enabled(s, l) {
      match l
      case Arrive(_) =>
      case Feed =>
        if s.core.mirror == INIT {
          FeedFirstIs(s);
        } else {
          FeedAllIs(s);
        }
      case HangUp => OutsideIs(s, l);
      case FinishClose => OutsideIs(s, l);
      case AskAppClose => OutsideIs(s, l);
    }
  }

  lemma BatchIsDuplicate(s: State, th: Thread)
    requires Inv(s) && BatchWithoutRemote(s, th)
    ensures s.core.duplicate
  {
    SeeBeforeInputs(s, th);
  }

  lemma StopIsStalled(s: State, th: Thread)
    requires Inv(s) && StopWithoutMigration(s, th)
    ensures s.core.migration != DONE && TokenOf(See(s)) == NoToken && s.core.mirror == FIRST_MSG
  {
    RunningSees(s, th);
    StopsMeanStalled(See(Popped(s, Run(th))), th);
  }

  // None of the counted assertions (see Assert in Migration.dfy) fails in any run, with two
  // exceptions: a batch that reaches a connection whose channel was a duplicate, and
  // stop_graph as the first message. Both fail always.
  lemma FaultsExactly(ownLoop: bool, labels: seq<Label>, l: Label)
    ensures var s := Reached(ownLoop, labels);
            && (Next(s, l).core.fault
                <==> s.core.fault || (l.Run? && (BatchWithoutRemote(s, l.thread) || StopWithoutMigration(s, l.thread))))
            && (l.Run? && BatchWithoutRemote(s, l.thread) ==> s.core.duplicate)
            && (l.Run? && StopWithoutMigration(s, l.thread) ==> StageOf(s.core.log) == Frozen && s.core.migration != DONE)
  {
    var s := Reached(ownLoop, labels);
    ReachedKeepsInv(ownLoop, labels);
    if !l.Run? {
      OutsideFault(s, l);
    } else if Queue(s, l.thread) != [] {
      RunFault(s, l.thread);
      if BatchWithoutRemote(s, l.thread) {
        BatchIsDuplicate(s, l.thread);
      }
      if StopWithoutMigration(s, l.thread) {
        StopIsStalled(s, l.thread);
      }
    }
  }

  // The hops between the threads run while the connection still belongs to the app thread.
  // A function that checks the thread of the connection, as
  // axis_engine_on_connection_cleaned_async does, can never be what such a hop calls.
  lemma HopsRunOffTheOwner(ownLoop: bool, labels: seq<Label>, th: Thread)
    requires var q := Queue(Reached(ownLoop, labels), th); q != [] && IsHop(q[0]) && !q[0].Clean?
    ensures Reached(ownLoop, labels).core.owner == AppThread && th != AppThread
  {
    var s := Reached(ownLoop, labels);
    ReachedKeepsInv(ownLoop, labels);
    TokenWaits(s, th, 0, Queue(s, th)[0]);
  }
}
