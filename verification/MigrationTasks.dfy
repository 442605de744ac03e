/**
  What each task comes to, task by task.
 */
module MigrationTasks {
  import opened Migration

  // The core after a check of the belonging thread.
  function Checked(c: Core, th: Thread): Core {
    if c.owner == th then c else c.(fault := true)
  }

  // The core after the first command has created the remote, or was found to be a duplicate.
  function Linked(c: Core, duplicate: bool): Core {
    var create := !duplicate && c.attach != REMOTE;
    c.(fault := c.fault || c.migration != DONE,
       duplicate := c.duplicate || duplicate,
       attach := if create then REMOTE else c.attach,
       onClosed := if create then ByRemote else c.onClosed)
  }

  function Destroyed(c: Core): Core {
    c.(fault := c.fault || c.onClosed == NoCallback, destroyed := true, orphan := false, onClosed := NoCallback)
  }

  lemma RunsLink(c: Core, th: Thread, duplicate: bool)
    ensures RunTask(c, th, HandleInMsgs(duplicate)) == Effect(Linked(Checked(c, th), duplicate), [])
  {
    var e := Effect(Checked(c, th), []);
    assert RunTask(c, th, HandleInMsgs(duplicate)) == LinkToRemote(e, duplicate);
    LinkToRemoteIs(e, duplicate);
  }

  lemma LinkToRemoteIs(e: Effect, duplicate: bool)
    ensures LinkToRemote(e, duplicate) == e.(core := Linked(e.core, duplicate))
  {
  }

  lemma RunsNotify(c: Core, th: Thread, reset: bool)
    ensures RunTask(c, th, NotifyCleaned(reset)) == Post(Effect(Checked(c, th), []), ExternalThread, ImplOnCleaned(reset))
  {
  }

  lemma RunsStop(c: Core, th: Thread)
    ensures RunTask(c, th, HandleStopGraph)
         == Effect(if c.owner == th && c.migration == DONE then c else c.(fault := true), [])
  {
  }

  lemma RunsImplOnCleaned(c: Core, th: Thread, reset: bool)
    ensures RunTask(c, th, ImplOnCleaned(reset)) == Effect(c.(mirror := if reset then INIT else DONE), [])
  {
  }

  lemma RunsImplClose(c: Core, th: Thread)
    ensures RunTask(c, th, ImplClose) == Effect(c.(closeAsked := true), [])
  {
  }

  lemma RunsClosed(c: Core, th: Thread)
    ensures RunTask(c, th, ProtocolClosed) == Effect(Destroyed(Checked(c, th)), [])
  {
    var e := Effect(Checked(c, th), []);
    assert RunTask(c, th, ProtocolClosed) == ConnectionClosed(e);
    ConnectionClosedIs(e);
  }

  lemma ConnectionClosedIs(e: Effect)
    ensures ConnectionClosed(e) == e.(core := Destroyed(e.core))
  {
  }

  lemma RunsProtocolClose(c: Core, th: Thread, t: Task)
    requires t.CloseProtocol? || (t.AppClose? && c.orphan)
    ensures RunTask(c, th, t) == ProtocolClose(Effect(Checked(c, th), []))
  {
  }

  lemma RunsClose(c: Core, th: Thread, t: Task)
    requires t.CloseProtocol? || (t.AppClose? && c.orphan)
    ensures var c1 := Checked(c, th);
            RunTask(c, th, t) == if c1.protocolClosing then Effect(c1, [])
                                 else Post(Effect(c1.(protocolClosing := true), []), ExternalThread, ImplClose)
  {
    RunsProtocolClose(c, th, t);
  }

  lemma RunsAppClose(c: Core, th: Thread)
    requires !c.orphan
    ensures RunTask(c, th, AppClose) == Effect(c, [])
  {
  }

  // The hops that only pass the command on.
  lemma RunsHop(c: Core, th: Thread, cmd: Msg)
    ensures RunTask(c, th, ImplMigrate(cmd)) == Post(Effect(c, []), EngineThread, OnMigrated(cmd))
    ensures RunTask(c, th, OnMigrated(cmd)) == Post(Effect(c, []), AppThread, Clean(cmd))
    ensures RunTask(c, th, ImplClean(cmd)) == Post(Effect(c, []), EngineThread, OnCleaned(cmd))
  {
  }

  // The state of the migration when a message is accepted.
  function Accepting(e: Effect): Effect {
    if e.core.migration == INIT then e.(core := e.core.(migration := FIRST_MSG)) else Assert(e, e.core.migration == DONE)
  }

  lemma InputIs(e: Effect, msg: Msg)
    ensures HandleInput(e, msg)
         == if e.core.protocolClosing then Log(e, msg, DroppedClosing) else OnMsg(Accepting(e), msg)
  {
  }

  lemma FeedFirstIs(s: State)
    requires Enabled(s, Feed) && s.core.mirror == INIT
    ensures var c := s.core;
            EffectOf(s, Feed)
            == Post(Effect(c.(mirror := FIRST_MSG, pending := c.pending[1..]), []), AttachedLoop(c), OnInput(c.pending[0]))
  {
  }

  lemma FeedAllIs(s: State)
    requires Enabled(s, Feed) && s.core.mirror == DONE
    ensures var c := s.core;
            EffectOf(s, Feed) == Post(Effect(c.(pending := []), []), AttachedLoop(c), OnInputs(c.pending))
  {
  }

  lemma NextIs(s: State, l: Label)
    requires Enabled(s, l)
    ensures Next(s, l) == Deliver(Popped(s, l).(core := EffectOf(s, l).core), EffectOf(s, l).posts)
  {
  }

  lemma ClosingIs(e: Effect)
    ensures var e1 := Assert(e, e.core.onClosed != NoCallback);
            ConnectionClosed(e) == e1.(core := e1.core.(destroyed := true, orphan := false, onClosed := NoCallback))
  {
  }

  lemma OutsideIs(s: State, l: Label)
    requires Enabled(s, l) && (l.HangUp? || l.FinishClose? || l.AskAppClose?)
    ensures var c := s.core;
            && (l.HangUp? ==> EffectOf(s, l) == Post(Effect(c.(hungUp := true), []), AttachedLoop(c), CloseProtocol))
            && (l.FinishClose? ==> EffectOf(s, l) == Post(Effect(c.(gone := true), []), AttachedLoop(c), ProtocolClosed))
            && (l.AskAppClose? ==> EffectOf(s, l) == Post(Effect(c.(appClosing := true), []), AppThread, AppClose))
  {
  }

  // The connection declared migrated, and taken over by the engine if there is one.
  function Marked(e: Effect, engine: bool): Effect {
    if engine then e.(core := e.core.(attach := ENGINE, onClosed := ByEngine, migration := DONE))
    else e.(core := e.core.(migration := DONE))
  }

  lemma UpgradeIs(e: Effect, engine: bool)
    ensures UpgradeToDone(e, engine)
         == Post(Marked(e, engine), AttachedLoop(Marked(e, engine).core), NotifyCleaned(false))
  {
    if engine {
    }
  }

  // The connection as it was before its first message.
  function Unmarked(e: Effect): Effect {
    var e1 := Assert(e, e.core.attach == APP);
    e1.(core := e1.core.(migration := INIT))
  }

  lemma ResetIs(e: Effect)
    ensures ResetMigration(e) == Post(Unmarked(e), AttachedLoop(Unmarked(e).core), NotifyCleaned(true))
  {
    if e.core.attach == APP {
    }
  }

  lemma CleanIs(c: Core, th: Thread, cmd: Msg)
    ensures var e := Assert(Assert(Effect(c, []), c.owner == th), c.attach == APP);
            RunTask(c, th, Clean(cmd)) == Post(DelOrphan(e), ExternalThread, ImplClean(cmd))
  {
  }

  lemma OnCleanedIs(c: Core, th: Thread, cmd: Msg)
    ensures RunTask(c, th, OnCleaned(cmd)) == UpgradeToDone(AppendToEngine(Effect(c.(owner := th), []), cmd), true)
  {
  }

  lemma OnMsgIs(e: Effect, msg: Msg)
    ensures var e1 := Assert(e, e.core.attach == APP || e.core.attach == REMOTE);
            OnMsg(e, msg) == if e.core.attach == REMOTE then Log(e1, msg, GivenToRemote)
                             else if msg.NonCmd? || e.core.attach == ENGINE then Log(e1, msg, DroppedNoRemote)
                             else AppHandleInMsg(e1, msg)
  {
  }

  // The app has checked the migration state and reacts to the command.
  function Reacting(e: Effect): Effect {
    Assert(e, e.core.migration == FIRST_MSG || e.core.migration == DONE)
  }

  lemma RouteIs(e: Effect, msg: Msg)
    requires msg.Cmd?
    ensures var r := AppHandleInMsg(e, msg);
            && (msg.route.ToEngine? ==> r == MigrateOrPush(Reacting(e), msg))
            && (msg.route.EngineNotFound? ==> r == Log(ResetMigration(Reacting(e)), msg, GraphNotFound))
            && (msg.route.CloseApp? ==> r == Log(RequestAppClose(UpgradeToDone(Reacting(e), false)), msg, ClosedApp))
            && (msg.route.ToApp? ==> r == Log(Reacting(e), msg, IgnoredByApp))
            && (msg.route.StartGraphRejected? ==> r == Log(Reacting(e), msg, Rejected))
            && (msg.route == StopGraph(false) ==> r == Log(Reacting(e), msg, NothingToStop))
            && (msg.route == StopGraph(true) ==>
                  r == Post(Log(Reacting(e), msg, SentToStop), EngineLoop(Reacting(e).core), HandleStopGraph))
  {
  }

  // The connection before its first message, with the protocol open.
  predicate Unused(c: Core) {
    c.owner == AppThread && c.attach == APP && c.migration == INIT && c.orphan && !c.protocolClosing
  }

  lemma FirstCommandIs(c: Core, msg: Msg)
    requires Unused(c) && msg.Cmd?
    ensures RunTask(c, AppThread, OnInput(msg)) == AppHandleInMsg(Effect(c.(migration := FIRST_MSG), []), msg)
  {
    InputIs(Effect(c, []), msg);
    OnMsgIs(Effect(c.(migration := FIRST_MSG), []), msg);
  }

  lemma FirstCloseAppIs(c: Core, msg: Msg)
    requires Unused(c) && msg.Cmd? && msg.route.CloseApp?
    ensures RunTask(c, AppThread, OnInput(msg))
         == Effect(c.(migration := DONE, appClosing := true, log := c.log + [Entry(msg, ClosedApp)]),
                   [Posting(AppThread, NotifyCleaned(false))]
                   + if c.appClosing then [] else [Posting(AppThread, AppClose)])
  {
    var e := Effect(c.(migration := FIRST_MSG), []);
    FirstCommandIs(c, msg);
    RouteIs(e, msg);
    UpgradeIs(e, false);
  }

  lemma FirstNotFoundIs(c: Core, msg: Msg)
    requires Unused(c) && msg.Cmd? && msg.route.EngineNotFound?
    ensures RunTask(c, AppThread, OnInput(msg))
         == Effect(c.(log := c.log + [Entry(msg, GraphNotFound)]), [Posting(AppThread, NotifyCleaned(true))])
  {
    var e := Effect(c.(migration := FIRST_MSG), []);
    FirstCommandIs(c, msg);
    RouteIs(e, msg);
    ResetIs(e);
  }

  lemma FirstMigrationIs(c: Core, msg: Msg)
    requires Unused(c) && msg.Cmd? && msg.route.ToEngine? && c.ownLoop
    ensures RunTask(c, AppThread, OnInput(msg))
         == Effect(c.(migration := FIRST_MSG), [Posting(ExternalThread, ImplMigrate(msg))])
  {
    FirstCommandIs(c, msg);
    RouteIs(Effect(c.(migration := FIRST_MSG), []), msg);
  }

  lemma FirstTakeOverIs(c: Core, msg: Msg)
    requires Unused(c) && msg.Cmd? && msg.route.ToEngine? && !c.ownLoop
    ensures RunTask(c, AppThread, OnInput(msg))
         == Effect(c.(migration := DONE, attach := ENGINE, onClosed := ByEngine, orphan := false,
                      log := c.log + [Entry(msg, QueuedInEngine)]),
                   [Posting(AppThread, NotifyCleaned(false)), Posting(AppThread, HandleInMsgs(IsDuplicate(msg)))])
  {
    var e := Effect(c.(migration := FIRST_MSG), []);
    FirstCommandIs(c, msg);
    RouteIs(e, msg);
    UpgradeIs(DelOrphan(e), true);
  }

  lemma FirstSilentIs(c: Core, msg: Msg)
    requires Unused(c) && msg.Cmd?
    requires msg.route.ToApp? || msg.route.StartGraphRejected? || msg.route == StopGraph(false)
    ensures var verdict := if msg.route.ToApp? then IgnoredByApp else if msg.route.StopGraph? then NothingToStop else Rejected;
            RunTask(c, AppThread, OnInput(msg))
            == Effect(c.(migration := FIRST_MSG, log := c.log + [Entry(msg, verdict)]), [])
  {
    FirstCommandIs(c, msg);
    RouteIs(Effect(c.(migration := FIRST_MSG), []), msg);
  }

  lemma FirstStopIs(c: Core, msg: Msg)
    requires Unused(c) && msg.Cmd? && msg.route == StopGraph(true)
    ensures RunTask(c, AppThread, OnInput(msg))
         == Effect(c.(migration := FIRST_MSG, log := c.log + [Entry(msg, SentToStop)]),
                   [Posting(EngineLoop(c), HandleStopGraph)])
  {
    FirstCommandIs(c, msg);
    RouteIs(Effect(c.(migration := FIRST_MSG), []), msg);
  }
}
