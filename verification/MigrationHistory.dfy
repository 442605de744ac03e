/**
  What no step takes back: the history, and the flags of the closing.
 */
module MigrationHistory {
  import opened Migration
  import opened MigrationTasks
  import opened MigrationViews
  import opened MigrationSafety
  import opened MigrationRuns
  import opened MigrationLog
  import opened MigrationLaws

  predicate FlagsLater(c: Core, d: Core) {
    && c.ownLoop == d.ownLoop
    && (c.protocolClosing ==> d.protocolClosing) && (c.closeAsked ==> d.closeAsked) && (c.hungUp ==> d.hungUp)
    && (c.gone ==> d.gone) && (c.destroyed ==> d.destroyed) && (c.appClosing ==> d.appClosing)
    && (c.fault ==> d.fault) && (c.duplicate ==> d.duplicate)
  }

  // The messages handed over are a prefix of those received, and only grow.
  predicate Later(c: Core, d: Core) {
    && FlagsLater(c, d) && c.log <= d.log && c.arrived <= d.arrived
    && |c.arrived| - |c.pending| <= |d.arrived| - |d.pending|
  }

  // ---------- What the runtime does with messages ----------

  predicate Handled(c: Core, d: Core) {
    && FlagsLater(c, d) && c.duplicate == d.duplicate && c.mirror == d.mirror
    && c.protocolClosing == d.protocolClosing && c.hungUp == d.hungUp
  }

  lemma AssertHandles(e: Effect, condition: bool)
    ensures Handled(e.core, Assert(e, condition).core)
  {
    if condition {
    }
  }

  lemma UpgradeHandles(e: Effect, engine: bool)
    ensures Handled(e.core, UpgradeToDone(e, engine).core)
  {
    if engine {
    }
  }

  lemma ResetHandles(e: Effect)
    ensures Handled(e.core, ResetMigration(e).core)
  {
    AssertHandles(e, e.core.attach == APP);
  }

  lemma DelOrphanHandles(e: Effect)
    ensures Handled(e.core, DelOrphan(e).core)
  {
    AssertHandles(e, e.core.orphan);
  }

  lemma AppendHandles(e: Effect, cmd: Msg)
    ensures Handled(e.core, AppendToEngine(e, cmd).core)
  {
  }

  lemma MigrateHandles(e: Effect, cmd: Msg)
    ensures Handled(e.core, MigrateOrPush(e, cmd).core)
  {
    if e.core.migration == FIRST_MSG {
      if !e.core.ownLoop {
        var e1 := Assert(e, e.core.attach == APP);
        var e2 := DelOrphan(e1);
        var e3 := UpgradeToDone(e2, true);
        AssertHandles(e, e.core.attach == APP);
        DelOrphanHandles(e1);
        UpgradeHandles(e2, true);
        AppendHandles(e3, cmd);
      }
    } else {
      AppendHandles(e, cmd);
    }
  }

  lemma CloseAppHandles(e: Effect, msg: Msg)
    ensures Handled(e.core, Log(RequestAppClose(UpgradeToDone(e, false)), msg, ClosedApp).core)
  {
    var e1 := UpgradeToDone(e, false);
    var e2 := RequestAppClose(e1);
    UpgradeHandles(e, false);
    assert Handled(e1.core, e2.core) by {
      if e1.core.appClosing {
      }
    }
  }

  lemma EngineRouteHandles(e: Effect, msg: Msg)
    requires msg.Cmd? && msg.route.ToEngine? && e.core.migration == FIRST_MSG
    ensures Handled(e.core, AppHandleInMsg(e, msg).core)
  {
    MigrateHandles(e, msg);
    assert AppHandleInMsg(e, msg) == MigrateOrPush(e, msg);
  }

  lemma UnknownRouteHandles(e: Effect, msg: Msg)
    requires msg.Cmd? && msg.route.EngineNotFound? && e.core.migration == FIRST_MSG
    ensures Handled(e.core, AppHandleInMsg(e, msg).core)
  {
    ResetHandles(e);
    assert AppHandleInMsg(e, msg) == Log(ResetMigration(e), msg, GraphNotFound);
  }

  lemma CloseAppRouteHandles(e: Effect, msg: Msg)
    requires msg.Cmd? && msg.route.CloseApp? && e.core.migration == FIRST_MSG
    ensures Handled(e.core, AppHandleInMsg(e, msg).core)
  {
    CloseAppHandles(e, msg);
    assert AppHandleInMsg(e, msg) == Log(RequestAppClose(UpgradeToDone(e, false)), msg, ClosedApp);
  }

  lemma RouteHandles(e: Effect, msg: Msg)
    requires msg.Cmd? && e.core.migration == FIRST_MSG
    ensures Handled(e.core, AppHandleInMsg(e, msg).core)
  {
    if msg.route.ToEngine? {
      EngineRouteHandles(e, msg);
    } else if msg.route.EngineNotFound? {
      UnknownRouteHandles(e, msg);
    } else if msg.route.CloseApp? {
      CloseAppRouteHandles(e, msg);
    } else {
      SilentRoute(e, msg);
    }
  }

  // ---------- One task ----------

  lemma InputFlags(c: Core, msg: Msg)
    requires c.owner == AppThread && c.attach == APP && c.migration == INIT
    ensures Handled(c, RunTask(c, AppThread, OnInput(msg)).core)
  {
    var e := Effect(c, []);
    assert RunTask(c, AppThread, OnInput(msg)) == HandleInput(e, msg);
    if !c.protocolClosing {
      assert HandleInput(e, msg) == OnMsg(Effect(c.(migration := FIRST_MSG), []), msg);
      MsgFlags(Effect(c.(migration := FIRST_MSG), []), msg);
    }
  }

  lemma MsgFlags(e: Effect, msg: Msg)
    requires e.core.attach == APP && e.core.migration == FIRST_MSG
    ensures Handled(e.core, OnMsg(e, msg).core)
  {
    OnMsgIs(e, msg);
    if msg.Cmd? {
      RouteHandles(e, msg);
    }
  }

  lemma InputBooks(c: Core, msg: Msg)
    requires c.owner == AppThread && c.attach == APP && c.migration == INIT && c.orphan
    ensures var d := RunTask(c, AppThread, OnInput(msg)).core;
            c.log <= d.log && d.arrived == c.arrived && d.pending == c.pending
  {
    InputEffect(c, msg);
  }

  lemma BatchFlags(c: Core, th: Thread, msgs: seq<Msg>)
    requires c.owner == th && c.migration == DONE && (c.protocolClosing || c.attach != APP)
    ensures Handled(c, RunTask(c, th, OnInputs(msgs)).core)
  {
    if c.protocolClosing {
      assert RunTask(c, th, OnInputs(msgs)) == DropAll(Effect(c, []), msgs);
      DropAllEffect(Effect(c, []), msgs);
    } else {
      assert RunTask(c, th, OnInputs(msgs)) == OnMsgs(Effect(c, []), msgs);
      OnMsgsEffect(Effect(c, []), msgs);
    }
  }

  // A batch is handled as a whole.
  lemma BatchBooks(c: Core, th: Thread, msgs: seq<Msg>)
    requires c.owner == th && c.migration == DONE && (c.protocolClosing || c.attach != APP)
    ensures var d := RunTask(c, th, OnInputs(msgs)).core;
            c.log <= d.log && |d.log| == |c.log| + |msgs| && d.arrived == c.arrived && d.pending == c.pending
  {
    if c.protocolClosing {
      assert RunTask(c, th, OnInputs(msgs)) == DropAll(Effect(c, []), msgs);
      DropAllEffect(Effect(c, []), msgs);
    } else {
      assert RunTask(c, th, OnInputs(msgs)) == OnMsgs(Effect(c, []), msgs);
      OnMsgsEffect(Effect(c, []), msgs);
    }
  }

  // Tasks other than messages: the log grows by the first command at most.
  lemma OnCleanedLater(c: Core, th: Thread, cmd: Msg)
    ensures Later(c, RunTask(c, th, OnCleaned(cmd)).core)
  {
    var d := AppendToEngine(Effect(c.(owner := th), []), cmd);
    assert RunTask(c, th, OnCleaned(cmd)) == UpgradeToDone(d, true);
    assert UpgradeToDone(d, true).core.log == c.log + [Entry(cmd, QueuedInEngine)];
  }

  lemma CleanLater(c: Core, th: Thread, cmd: Msg)
    requires c.owner == th && c.attach == APP && c.orphan
    ensures Later(c, RunTask(c, th, Clean(cmd)).core)
  {
    assert RunTask(c, th, Clean(cmd)) == Post(DelOrphan(Effect(c, [])), ExternalThread, ImplClean(cmd));
  }

  lemma LinkLater(c: Core, th: Thread, duplicate: bool)
    requires c.owner == th && c.migration == DONE
    ensures Later(c, RunTask(c, th, HandleInMsgs(duplicate)).core)
  {
    RunsLink(c, th, duplicate);
  }

  lemma CloseLater(c: Core, th: Thread, t: Task)
    requires t.CloseProtocol? || t.AppClose?
    requires t.CloseProtocol? || c.orphan ==> c.owner == th
    ensures Later(c, RunTask(c, th, t).core)
  {
    if t.AppClose? && !c.orphan {
      RunsAppClose(c, th);
    } else {
      RunsClose(c, th, t);
      if c.protocolClosing {
      }
    }
  }

  lemma OwnLater(c: Core, th: Thread, t: Task)
    requires t.ImplOnCleaned? || t.ImplClose? || (t.ProtocolClosed? && c.owner == th && c.onClosed != NoCallback)
             || (t.HandleStopGraph? && c.migration != DONE) || (t.NotifyCleaned? && c.owner == th)
    ensures Later(c, RunTask(c, th, t).core)
  {
    if t.ImplOnCleaned? {
      RunsImplOnCleaned(c, th, t.reset);
    } else if t.ImplClose? {
      RunsImplClose(c, th);
    } else if t.ProtocolClosed? {
      RunsClosed(c, th);
    } else if t.HandleStopGraph? {
      RunsStop(c, th);
    } else {
      RunsNotify(c, th, t.reset);
    }
  }

  lemma TokenLater(y: Sight, th: Thread, t: Task)
    requires Control(Before(y, th, t)) && AllCoherent(y) && IsToken(t)
    ensures Later(y.core, RunTask(y.core, th, t).core)
  {
    HeadToken(y, th, t);
    if t.OnInput? {
      InputFlags(y.core, t.msg);
      InputBooks(y.core, t.msg);
    } else if t.OnCleaned? {
      OnCleanedLater(y.core, th, t.cmd);
    } else if t.Clean? {
      CleanLater(y.core, th, t.cmd);
    } else if t.NotifyCleaned? || t.ImplOnCleaned? {
      OwnLater(y.core, th, t);
    } else {
      RunsHop(y.core, th, t.cmd);
    }
  }

  lemma OtherLater(y: Sight, th: Thread, t: Task)
    requires Control(Before(y, th, t)) && AllCoherent(y) && !IsToken(t)
    ensures Later(y.core, RunTask(y.core, th, t).core)
  {
    if t.OnInputs? {
      InputsReachRemote(y, th, t.msgs);
      BatchFlags(y.core, th, t.msgs);
      BatchBooks(y.core, th, t.msgs);
    } else if t.HandleInMsgs? {
      LinkRunsAtOwner(y, th, t.duplicate);
      LinkLater(y.core, th, t.duplicate);
    } else if t.CloseProtocol? || t.AppClose? {
      if t.CloseProtocol? || y.core.orphan {
        CloseTaskRunsAtOwner(y, th, t);
      }
      CloseLater(y.core, th, t);
    } else if t.ProtocolClosed? {
      ProtocolClosedIsLast(y, th);
      OwnLater(y.core, th, t);
    } else if t.HandleStopGraph? {
      StopsMeanStalled(y, th);
      OwnLater(y.core, th, t);
    } else {
      OwnLater(y.core, th, t);
    }
  }

  // ---------- Every step ----------

  lemma FeedLater(s: State)
    requires Enabled(s, Feed)
    ensures Later(s.core, EffectOf(s, Feed).core)
  {
    if s.core.mirror == INIT {
      FeedFirstIs(s);
    } else {
      FeedAllIs(s);
    }
  }

  lemma EventLater(s: State, l: Label)
    requires Enabled(s, l) && (l.HangUp? || l.FinishClose? || l.AskAppClose?)
    ensures Later(s.core, EffectOf(s, l).core)
  {
    OutsideIs(s, l);
    if l.HangUp? {
    } else if l.FinishClose? {
    } else {
    }
  }

  // No step takes anything back.
  lemma StepLater(s: State, l: Label)
    requires Inv(s)
    ensures Later(s.core, Next(s, l).core)
  {
    NextCore(s, l);
    if !Enabled(s, l) {
    } else if l.Run? {
      var th := l.thread;
      var t := Queue(s, th)[0];
      RunningSees(s, th);
      if IsToken(t) {
        TokenLater(See(Popped(s, l)), th, t);
      } else {
        OtherLater(See(Popped(s, l)), th, t);
      }
    } else if l.Feed? {
      FeedLater(s);
    } else if !l.Arrive? {
      EventLater(s, l);
    }
  }
}
