/**
  Every step of the migration keeps the invariant, and so does every run.
 */
module MigrationRuns {
  import opened Migration
  import opened MigrationViews
  import opened MigrationSafety
  import opened MigrationTasks

  // ---------- One task ----------

  // The app reacts to this first message in a way that lets the implementation protocol go on.
  predicate WakesUp(c: Core, msg: Msg) {
    !c.protocolClosing && msg.Cmd? && (msg.route.ToEngine? || msg.route.EngineNotFound? || msg.route.CloseApp?)
  }

  // Taking the head of a queue and running it keeps the control part of the invariant.
  lemma InputKeeps(y: Sight, th: Thread, msg: Msg)
    requires Control(Before(y, th, OnInput(msg))) && AllCoherent(y)
    ensures var z := After(y, RunTask(y.core, th, OnInput(msg)));
            && Control(z) && (TokenOf(z).TokenAt? <==> WakesUp(y.core, msg))
            && (TokenOf(z) == NoToken ==> z.core.mirror == FIRST_MSG)
  {
    HeadToken(y, th, OnInput(msg));
    var c := y.core;
    assert c.owner == th == AppThread && c.attach == APP && c.migration == INIT && c.orphan;
    var e := RunTask(c, th, OnInput(msg));
    if c.protocolClosing {
      AfterNone(y, e.core);
      SilentInputKeeps(y, msg, e.core, DroppedClosing);
    } else if msg.NonCmd? {
      AfterNone(y, e.core);
      SilentInputKeeps(y, msg, e.core, DroppedNoRemote);
    } else if WakesUp(c, msg) {
      CommandKeeps(y, msg);
    } else {
      SilentCommandKeeps(y, msg);
    }
  }

  lemma CommandKeeps(y: Sight, msg: Msg)
    requires Control(Before(y, AppThread, OnInput(msg))) && AllCoherent(y) && WakesUp(y.core, msg)
    ensures var z := After(y, RunTask(y.core, AppThread, OnInput(msg)));
            Control(z) && TokenOf(z).TokenAt?
  {
    HeadToken(y, AppThread, OnInput(msg));
    if msg.route.CloseApp? {
      CloseAppKeeps(y, msg);
    } else if msg.route.EngineNotFound? {
      NotFoundKeeps(y, msg);
    } else if y.core.ownLoop {
      MigrateKeeps(y, msg);
    } else {
      TakeOverKeeps(y, msg);
    }
  }

  lemma CloseAppKeeps(y: Sight, msg: Msg)
    requires Control(Before(y, AppThread, OnInput(msg))) && AllCoherent(y)
    requires Unused(y.core) && msg.Cmd? && msg.route.CloseApp?
    ensures var z := After(y, RunTask(y.core, AppThread, OnInput(msg)));
            Control(z) && TokenOf(z).TokenAt?
  {
    var c := RunTask(y.core, AppThread, OnInput(msg)).core;
    ClosingApp(y, msg);
    CloseAppInputKeeps(y, msg, c);
  }

  lemma ClosingApp(y: Sight, msg: Msg)
    requires Unused(y.core) && msg.Cmd? && msg.route.CloseApp?
    ensures var e := RunTask(y.core, AppThread, OnInput(msg));
            && After(y, e) == AppClosedSight(y, e.core)
            && e.core == y.core.(migration := DONE, appClosing := true, log := y.core.log + [Entry(msg, ClosedApp)])
  {
    var c := RunTask(y.core, AppThread, OnInput(msg)).core;
    FirstCloseAppIs(y.core, msg);
    AfterOne(y, c, AppThread, NotifyCleaned(false));
    AfterTwo(y, c, AppThread, NotifyCleaned(false), AppThread, AppClose);
  }

  lemma NotFoundKeeps(y: Sight, msg: Msg)
    requires Control(Before(y, AppThread, OnInput(msg))) && AllCoherent(y)
    requires Unused(y.core) && msg.Cmd? && msg.route.EngineNotFound?
    ensures var z := After(y, RunTask(y.core, AppThread, OnInput(msg)));
            Control(z) && TokenOf(z).TokenAt?
  {
    var c := RunTask(y.core, AppThread, OnInput(msg)).core;
    FirstNotFoundIs(y.core, msg);
    AfterOne(y, c, AppThread, NotifyCleaned(true));
    NotFoundInputKeeps(y, msg, c);
  }

  lemma MigrateKeeps(y: Sight, msg: Msg)
    requires Control(Before(y, AppThread, OnInput(msg))) && AllCoherent(y)
    requires Unused(y.core) && IsMigratable(msg) && y.core.ownLoop
    ensures var z := After(y, RunTask(y.core, AppThread, OnInput(msg)));
            Control(z) && TokenOf(z).TokenAt?
  {
    var c := RunTask(y.core, AppThread, OnInput(msg)).core;
    FirstMigrationIs(y.core, msg);
    AfterOne(y, c, ExternalThread, ImplMigrate(msg));
    MigrateInputKeeps(y, msg, c);
  }

  lemma TakeOverKeeps(y: Sight, msg: Msg)
    requires Control(Before(y, AppThread, OnInput(msg))) && AllCoherent(y)
    requires Unused(y.core) && IsMigratable(msg) && !y.core.ownLoop
    ensures var z := After(y, RunTask(y.core, AppThread, OnInput(msg)));
            Control(z) && TokenOf(z).TokenAt?
  {
    var c := RunTask(y.core, AppThread, OnInput(msg)).core;
    FirstTakeOverIs(y.core, msg);
    AfterTwo(y, c, AppThread, NotifyCleaned(false), AppThread, HandleInMsgs(IsDuplicate(msg)));
    TakenOverInputKeeps(y, msg, c);
  }

  lemma SilentCommandKeeps(y: Sight, msg: Msg)
    requires Control(Before(y, AppThread, OnInput(msg))) && AllCoherent(y)
    requires !y.core.protocolClosing && msg.Cmd? && !WakesUp(y.core, msg)
    ensures var z := After(y, RunTask(y.core, AppThread, OnInput(msg)));
            Control(z) && TokenOf(z) == NoToken && z.core.mirror == FIRST_MSG
  {
    HeadToken(y, AppThread, OnInput(msg));
    var c := RunTask(y.core, AppThread, OnInput(msg)).core;
    if msg.route == StopGraph(true) {
      FirstStopIs(y.core, msg);
      AfterOne(y, c, EngineLoop(y.core), HandleStopGraph);
      StopInputKeeps(y, msg, c);
    } else {
      FirstSilentIs(y.core, msg);
      AfterNone(y, c);
      SilentInputKeeps(y, msg, c, if msg.route.ToApp? then IgnoredByApp
                                  else if msg.route.StopGraph? then NothingToStop else Rejected);
    }
  }

  lemma HopTaskKeeps(y: Sight, th: Thread, t: Task)
    requires Control(Before(y, th, t)) && AllCoherent(y) && (t.ImplMigrate? || t.OnMigrated? || t.ImplClean?)
    ensures var z := After(y, RunTask(y.core, th, t));
            Control(z) && TokenOf(z).TokenAt?
  {
    var th' := if t.OnMigrated? then AppThread else EngineThread;
    var t' := if t.ImplMigrate? then OnMigrated(t.cmd) else if t.OnMigrated? then Clean(t.cmd) else OnCleaned(t.cmd);
    AfterOne(y, y.core, th', t');
    HopKeeps(y, th, t, y.core, th', t');
  }

  lemma CleanTaskKeeps(y: Sight, th: Thread, cmd: Msg)
    requires Control(Before(y, th, Clean(cmd))) && AllCoherent(y)
    ensures var z := After(y, RunTask(y.core, th, Clean(cmd)));
            Control(z) && TokenOf(z).TokenAt?
  {
    HeadToken(y, th, Clean(cmd));
    var e := RunTask(y.core, th, Clean(cmd));
    AfterOne(y, e.core, ExternalThread, ImplClean(cmd));
    HopKeeps(y, th, Clean(cmd), e.core, ExternalThread, ImplClean(cmd));
  }

  lemma OnCleanedTaskKeeps(y: Sight, th: Thread, cmd: Msg)
    requires Control(Before(y, th, OnCleaned(cmd))) && AllCoherent(y)
    ensures var z := After(y, RunTask(y.core, th, OnCleaned(cmd)));
            Control(z) && TokenOf(z).TokenAt?
  {
    HeadToken(y, th, OnCleaned(cmd));
    TakeOver(y, cmd);
    OnCleanedKeeps(y, cmd, RunTask(y.core, EngineThread, OnCleaned(cmd)).core);
  }

  lemma TakeOver(y: Sight, cmd: Msg)
    requires y.core.ownLoop
    ensures var e := RunTask(y.core, EngineThread, OnCleaned(cmd));
            && IsTakenOver(y.core, cmd, e.core) && After(y, e) == CleanedSight(y, cmd, e.core)
            && e.posts == [Posting(EngineThread, HandleInMsgs(IsDuplicate(cmd))), Posting(EngineThread, NotifyCleaned(false))]
  {
    var c := RunTask(y.core, EngineThread, OnCleaned(cmd)).core;
    TakeOverIs(y.core, cmd);
    AfterTwo(y, c, EngineThread, HandleInMsgs(IsDuplicate(cmd)), EngineThread, NotifyCleaned(false));
    assert WithView(y.(core := c), EngineThread, y.engine) == y.(core := c);
  }

  lemma TakeOverIs(c: Core, cmd: Msg)
    requires c.ownLoop
    ensures var e := RunTask(c, EngineThread, OnCleaned(cmd));
            && IsTakenOver(c, cmd, e.core)
            && e.posts == [Posting(EngineThread, HandleInMsgs(IsDuplicate(cmd))), Posting(EngineThread, NotifyCleaned(false))]
  {
    OnCleanedIs(c, EngineThread, cmd);
    UpgradeIs(AppendToEngine(Effect(c.(owner := EngineThread), []), cmd), true);
  }

  lemma NotifyTaskKeeps(y: Sight, th: Thread, reset: bool)
    requires Control(Before(y, th, NotifyCleaned(reset))) && AllCoherent(y)
    ensures var z := After(y, RunTask(y.core, th, NotifyCleaned(reset)));
            Control(z) && TokenOf(z).TokenAt?
  {
    HeadToken(y, th, NotifyCleaned(reset));
    RunsNotify(y.core, th, reset);
    AfterOne(y, y.core, ExternalThread, ImplOnCleaned(reset));
    NotifyCleanedKeeps(y, th, reset);
  }

  lemma ImplOnCleanedTaskKeeps(y: Sight, th: Thread, reset: bool)
    requires Control(Before(y, th, ImplOnCleaned(reset))) && AllCoherent(y)
    ensures Control(After(y, RunTask(y.core, th, ImplOnCleaned(reset))))
  {
    HeadToken(y, th, ImplOnCleaned(reset));
    RunsImplOnCleaned(y.core, th, reset);
    var c := y.core.(mirror := if reset then INIT else DONE);
    AfterNone(y, c);
    ImplOnCleanedKeeps(y, reset, c);
  }

  lemma InputsTaskKeeps(y: Sight, th: Thread, msgs: seq<Msg>)
    requires Control(Before(y, th, OnInputs(msgs))) && AllCoherent(y)
    ensures Control(After(y, RunTask(y.core, th, OnInputs(msgs))))
  {
    InputsReachRemote(y, th, msgs);
    var c := y.core;
    var e := RunTask(c, th, OnInputs(msgs));
    AfterNone(y, e.core);
    if c.protocolClosing {
      DropAllEffect(Effect(c, []), msgs);
      InputsKeep(y, th, msgs, e.core, DroppedClosing);
    } else {
      OnMsgsEffect(Effect(c, []), msgs);
      InputsKeep(y, th, msgs, e.core, if c.attach == REMOTE then GivenToRemote else DroppedNoRemote);
    }
  }

  lemma LinkRunsAtOwner(y: Sight, th: Thread, duplicate: bool)
    requires Control(Before(y, th, HandleInMsgs(duplicate)))
    ensures y.core.owner == th && y.core.migration == DONE && y.core.attach != APP
  {
    LinksMeanSettled(y, th, duplicate);
    LinksAtOwner(y, th, duplicate);
  }

  lemma LinksAtOwner(y: Sight, th: Thread, duplicate: bool)
    requires Settled(Before(y, th, HandleInMsgs(duplicate))) && Queues(Before(y, th, HandleInMsgs(duplicate)))
    requires y.core.attach != APP
    ensures y.core.owner == th && y.core.migration == DONE
  {
    var x := Before(y, th, HandleInMsgs(duplicate));
    assert At(x, th).links && At(x, th).placed && x.core == y.core;
  }

  lemma LinkTaskKeeps(y: Sight, th: Thread, duplicate: bool)
    requires Control(Before(y, th, HandleInMsgs(duplicate))) && AllCoherent(y)
    ensures Control(After(y, RunTask(y.core, th, HandleInMsgs(duplicate))))
  {
    LinkRunsAtOwner(y, th, duplicate);
    RunsLink(y.core, th, duplicate);
    AfterNone(y, Linked(y.core, duplicate));
    LinkKeeps(y, th, duplicate, Linked(y.core, duplicate));
  }

  // The owner checks what it runs.
  lemma CloseTaskRunsAtOwner(y: Sight, th: Thread, t: Task)
    requires Control(Before(y, th, t)) && AllCoherent(y)
    requires t.CloseProtocol? || (t.AppClose? && y.core.orphan)
    ensures y.core.owner == th
  {
    TokenStays(y, th, t);
    assert t.CloseProtocol? ==> At(Before(y, th, t), th).events != [];
  }

  lemma CloseTaskKeeps(y: Sight, th: Thread, t: Task)
    requires Control(Before(y, th, t)) && AllCoherent(y) && (t.AppClose? || t.CloseProtocol?)
    ensures Control(After(y, RunTask(y.core, th, t)))
  {
    if t.AppClose? && !y.core.orphan {
      ClosingAlreadyKeeps(y, th, t);
      RunsAppClose(y.core, th);
      AfterNone(y, y.core);
    } else {
      CloseTaskRunsAtOwner(y, th, t);
      CloseEffect(y, th, t);
      if y.core.protocolClosing {
        ClosingAlreadyKeeps(y, th, t);
      } else {
        ProtocolCloseKeeps(y, th, t, y.core.(protocolClosing := true));
      }
    }
  }

  lemma CloseEffect(y: Sight, th: Thread, t: Task)
    requires t.CloseProtocol? || (t.AppClose? && y.core.orphan)
    requires y.core.owner == th
    ensures After(y, RunTask(y.core, th, t))
         == if y.core.protocolClosing then y
            else WithView(y.(core := y.core.(protocolClosing := true)), ExternalThread,
                          AtEnd(ExternalThread, y.external, ImplClose))
  {
    RunsClose(y.core, th, t);
    AfterNone(y, y.core);
    AfterOne(y, y.core.(protocolClosing := true), ExternalThread, ImplClose);
  }

  lemma StopGraphTaskKeeps(y: Sight, th: Thread)
    requires Control(Before(y, th, HandleStopGraph)) && AllCoherent(y)
    ensures After(y, RunTask(y.core, th, HandleStopGraph)) == y.(core := y.core.(fault := true))
    ensures Control(After(y, RunTask(y.core, th, HandleStopGraph)))
  {
    StopsMeanStalled(y, th);
    RunsStop(y.core, th);
    AfterNone(y, y.core.(fault := true));
    StopTaskKeeps(y, th, y.core.(fault := true));
  }

  lemma ImplCloseTaskKeeps(y: Sight, th: Thread)
    requires Control(Before(y, th, ImplClose)) && AllCoherent(y)
    ensures Control(After(y, RunTask(y.core, th, ImplClose)))
  {
    RunsImplClose(y.core, th);
    AfterNone(y, y.core.(closeAsked := true));
    ImplCloseKeeps(y, th, y.core.(closeAsked := true));
  }

  lemma ProtocolClosedTaskKeeps(y: Sight, th: Thread)
    requires Control(Before(y, th, ProtocolClosed)) && AllCoherent(y)
    ensures Control(After(y, RunTask(y.core, th, ProtocolClosed)))
  {
    ProtocolClosedIsLast(y, th);
    RunsClosed(y.core, th);
    AfterNone(y, Destroyed(y.core));
    ProtocolClosedKeeps(y, th, Destroyed(y.core));
  }

  lemma TokenTaskKeeps(y: Sight, th: Thread, t: Task)
    requires Control(Before(y, th, t)) && AllCoherent(y) && IsToken(t)
    ensures Control(After(y, RunTask(y.core, th, t)))
  {
    if t.OnInput? {
      InputKeeps(y, th, t.msg);
    } else if t.Clean? {
      CleanTaskKeeps(y, th, t.cmd);
    } else if t.OnCleaned? {
      OnCleanedTaskKeeps(y, th, t.cmd);
    } else if t.NotifyCleaned? {
      NotifyTaskKeeps(y, th, t.reset);
    } else if t.ImplOnCleaned? {
      ImplOnCleanedTaskKeeps(y, th, t.reset);
    } else {
      HopTaskKeeps(y, th, t);
    }
  }

  // Only the first message and the final notification may end an attempt.
  lemma TokenGoesOn(y: Sight, th: Thread, t: Task)
    requires Control(Before(y, th, t)) && AllCoherent(y) && IsToken(t) && !t.OnInput?
    ensures var z := After(y, RunTask(y.core, th, t));
            if t.ImplOnCleaned? then z.core.mirror != FIRST_MSG else TokenOf(z).TokenAt?
  {
    if t.Clean? {
      CleanTaskKeeps(y, th, t.cmd);
    } else if t.OnCleaned? {
      OnCleanedTaskKeeps(y, th, t.cmd);
    } else if t.NotifyCleaned? {
      NotifyTaskKeeps(y, th, t.reset);
    } else if t.ImplOnCleaned? {
      RunsImplOnCleaned(y.core, th, t.reset);
      AfterNone(y, y.core.(mirror := if t.reset then INIT else DONE));
    } else {
      HopTaskKeeps(y, th, t);
    }
  }

  lemma OtherTaskKeeps(y: Sight, th: Thread, t: Task)
    requires Control(Before(y, th, t)) && AllCoherent(y) && !IsToken(t)
    ensures Control(After(y, RunTask(y.core, th, t)))
  {
    if t.OnInputs? {
      InputsTaskKeeps(y, th, t.msgs);
    } else if t.HandleInMsgs? {
      LinkTaskKeeps(y, th, t.duplicate);
    } else if t.HandleStopGraph? {
      StopGraphTaskKeeps(y, th);
    } else if t.ImplClose? {
      ImplCloseTaskKeeps(y, th);
    } else if t.ProtocolClosed? {
      ProtocolClosedTaskKeeps(y, th);
    } else {
      CloseTaskKeeps(y, th, t);
    }
  }

  lemma TaskKeeps(y: Sight, th: Thread, t: Task)
    requires Control(Before(y, th, t)) && AllCoherent(y)
    ensures Control(After(y, RunTask(y.core, th, t)))
  {
    if IsToken(t) {
      TokenTaskKeeps(y, th, t);
    } else {
      OtherTaskKeeps(y, th, t);
    }
  }

  // ---------- Conservation of messages ----------

  function Takes(posts: seq<Posting>): seq<Msg>
    decreases |posts|
  {
    if posts == [] then [] else Carried(posts[0].task) + Takes(posts[1..])
  }

  lemma {:induction false} PostingNothing(x: Sight, posts: seq<Posting>)
    requires Takes(posts) == []
    ensures Flight(Posted(x, posts)) == Flight(x) && Posted(x, posts).core == x.core
    decreases |posts|
  {
    if posts != [] {
      var p := posts[0];
      var v := At(x, p.thread);
      assert Carried(p.task) == [] && v.flight + [] == v.flight;
      PostingNothing(WithView(x, p.thread, AtEnd(p.thread, v, p.task)), posts[1..]);
    }
  }

  lemma TakesOfFew(p: Posting, p': Posting)
    ensures Takes([p]) == Carried(p.task) && Takes([p, p']) == Carried(p.task) + Carried(p'.task)
  {
    assert [p] + [p'] == [p, p'];
    assert [p][1..] == [];
    assert ([p] + [p'])[1..] == [p'] && [p'][1..] == [];
  }

  // The task just taken from its queue carries msgs.
  predicate Owes(y: Sight, msgs: seq<Msg>) {
    y.core.arrived == Msgs(y.core.log) + ((msgs + Flight(y)) + y.core.pending)
  }

  // Running a task whose messages end up in the log.
  lemma LoggingConserves(y: Sight, e: Effect, msgs: seq<Msg>)
    requires Owes(y, msgs)
    requires Msgs(e.core.log) == Msgs(y.core.log) + msgs && Takes(e.posts) == []
    requires e.core.arrived == y.core.arrived && e.core.pending == y.core.pending
    ensures Conserved(After(y, e))
  {
    PostingNothing(y.(core := e.core), e.posts);
    Reassociate(Msgs(y.core.log), msgs, Flight(y), y.core.pending);
  }

  lemma Reassociate(m: seq<Msg>, a: seq<Msg>, f: seq<Msg>, b: seq<Msg>)
    ensures (m + a) + (f + b) == m + ((a + f) + b)
  {
  }

  // Running a task that posts the only message under way to the next thread.
  lemma PassingConserves(y: Sight, c: Core, msg: Msg, th: Thread, t: Task)
    requires Owes(y, [msg])
    requires c.log == y.core.log && Carried(t) == [msg] && Flight(y) == []
    requires c.arrived == y.core.arrived && c.pending == y.core.pending
    ensures Conserved(After(y, Post(Effect(c, []), th, t)))
  {
    AfterOne(y, c, th, t);
    assert [msg] + Flight(y) == [msg];
    assert Flight(WithView(y.(core := c), th, AtEnd(th, At(y, th), t))) == [msg];
  }

  // What one message becomes when it is the first of the connection: the runtime is done with
  // it, or it is passed on to the implementation protocol for a migration.
  predicate Consumed(c: Core, e: Effect, msg: Msg) {
    && e.core.arrived == c.arrived && e.core.pending == c.pending
    && Takes(e.posts) == [] && exists v :: e.core.log == c.log + [Entry(msg, v)]
  }

  predicate PassedOn(c: Core, e: Effect, msg: Msg) {
    && e.core.arrived == c.arrived && e.core.pending == c.pending
    && e == Post(Effect(e.core, []), ExternalThread, ImplMigrate(msg)) && e.core.log == c.log
  }

  lemma InputEffect(c: Core, msg: Msg)
    requires c.owner == AppThread && c.attach == APP && c.migration == INIT && c.orphan
    ensures var e := RunTask(c, AppThread, OnInput(msg));
            Consumed(c, e, msg) || PassedOn(c, e, msg)
  {
    if c.protocolClosing || msg.NonCmd? {
      var v := if c.protocolClosing then DroppedClosing else DroppedNoRemote;
      assert RunTask(c, AppThread, OnInput(msg)).core.log == c.log + [Entry(msg, v)];
    } else if msg.route.ToEngine? && c.ownLoop {
      FirstMigrationIs(c, msg);
    } else {
      CommandEffect(c, msg);
    }
  }

  lemma CommandEffect(c: Core, msg: Msg)
    requires Unused(c) && msg.Cmd? && !(msg.route.ToEngine? && c.ownLoop)
    ensures Consumed(c, RunTask(c, AppThread, OnInput(msg)), msg)
  {
    if msg.route.ToEngine? {
      TakeOverEffect(c, msg);
    } else if msg.route.EngineNotFound? {
      NotFoundEffect(c, msg);
    } else if msg.route.CloseApp? {
      CloseAppEffect(c, msg);
    } else if msg.route == StopGraph(true) {
      StopEffect(c, msg);
    } else {
      SilentEffect(c, msg);
    }
  }

  lemma TakeOverEffect(c: Core, msg: Msg)
    requires Unused(c) && IsMigratable(msg) && !c.ownLoop
    ensures Consumed(c, RunTask(c, AppThread, OnInput(msg)), msg)
  {
    FirstTakeOverIs(c, msg);
    IsConsumed(c, RunTask(c, AppThread, OnInput(msg)), msg, QueuedInEngine);
  }

  lemma NotFoundEffect(c: Core, msg: Msg)
    requires Unused(c) && msg.Cmd? && msg.route.EngineNotFound?
    ensures Consumed(c, RunTask(c, AppThread, OnInput(msg)), msg)
  {
    FirstNotFoundIs(c, msg);
    IsConsumed(c, RunTask(c, AppThread, OnInput(msg)), msg, GraphNotFound);
  }

  lemma CloseAppEffect(c: Core, msg: Msg)
    requires Unused(c) && msg.Cmd? && msg.route.CloseApp?
    ensures Consumed(c, RunTask(c, AppThread, OnInput(msg)), msg)
  {
    FirstCloseAppIs(c, msg);
    IsConsumed(c, RunTask(c, AppThread, OnInput(msg)), msg, ClosedApp);
  }

  lemma StopEffect(c: Core, msg: Msg)
    requires Unused(c) && msg.Cmd? && msg.route == StopGraph(true)
    ensures Consumed(c, RunTask(c, AppThread, OnInput(msg)), msg)
  {
    FirstStopIs(c, msg);
    IsConsumed(c, RunTask(c, AppThread, OnInput(msg)), msg, SentToStop);
  }

  lemma SilentEffect(c: Core, msg: Msg)
    requires Unused(c) && msg.Cmd?
    requires msg.route.ToApp? || msg.route.StartGraphRejected? || msg.route == StopGraph(false)
    ensures Consumed(c, RunTask(c, AppThread, OnInput(msg)), msg)
  {
    FirstSilentIs(c, msg);
    IsConsumed(c, RunTask(c, AppThread, OnInput(msg)), msg,
               if msg.route.ToApp? then IgnoredByApp else if msg.route.StopGraph? then NothingToStop else Rejected);
  }

  lemma IsConsumed(c: Core, e: Effect, msg: Msg, v: Verdict)
    requires e.core.arrived == c.arrived && e.core.pending == c.pending && e.core.log == c.log + [Entry(msg, v)]
    requires |e.posts| <= 2 && forall p <- e.posts :: Carried(p.task) == []
    ensures Consumed(c, e, msg)
  {
    if |e.posts| == 2 {
      TakesOfFew(e.posts[0], e.posts[1]);
      assert e.posts == [e.posts[0], e.posts[1]];
    } else if |e.posts| == 1 {
      TakesOfFew(e.posts[0], e.posts[0]);
      assert e.posts == [e.posts[0]];
    }
  }

  // One task carries messages at a time, except for batches, which share one queue.
  lemma FlightOfHead(y: Sight, th: Thread, t: Task)
    requires Control(Before(y, th, t)) && AllCoherent(y)
    ensures Flight(Before(y, th, t)) == Carried(t) + Flight(y)
    ensures IsToken(t) ==> Flight(y) == []
  {
    if IsToken(t) {
      HeadToken(y, th, t);
      FlightOfFirst(y, th, t);
    } else if t.OnInputs? {
      FlightOfBatch(y, th, t.msgs);
    } else {
      OtherTasksDoNotCount(th, At(y, th), t);
      assert [] + Flight(y) == Flight(y);
    }
  }

  lemma FlightOfFirst(y: Sight, th: Thread, t: Task)
    requires y.app.flight == [] && (th == ExternalThread ==> y.engine.flight == [])
    ensures Flight(Before(y, th, t)) == Carried(t) + Flight(y)
  {
    var a, b, c := y.app.flight, y.engine.flight, y.external.flight;
    match th
    case AppThread =>
      Associative(Carried(t), a, b);
      Associative(Carried(t), a + b, c);
    case EngineThread =>
      NothingAdded(b);
      NothingAdded(Carried(t) + b);
      Associative(Carried(t), b, c);
    case ExternalThread =>
      NothingAdded(c);
      NothingAdded(Carried(t) + c);
  }

  lemma FlightOfBatch(y: Sight, th: Thread, msgs: seq<Msg>)
    requires Control(Before(y, th, OnInputs(msgs))) && AllCoherent(y)
    ensures Flight(Before(y, th, OnInputs(msgs))) == msgs + Flight(y)
  {
    var x := Before(y, th, OnInputs(msgs));
    TokenStays(y, th, OnInputs(msgs));
    assert At(x, th).batches && At(x, th).events != [];
    assert TokenOf(x) == NoToken;
    assert th == EngineThread ==> y.app.flight == [];
  }

  lemma HeadOwes(y: Sight, th: Thread, t: Task)
    requires Control(Before(y, th, t)) && AllCoherent(y) && Conserved(Before(y, th, t))
    ensures Owes(y, Carried(t)) && (IsToken(t) ==> Flight(y) == [])
  {
    FlightOfHead(y, th, t);
    assert Before(y, th, t).core == y.core;
  }

  lemma InputConserves(y: Sight, e: Effect, msg: Msg)
    requires Owes(y, [msg]) && Flight(y) == [] && (Consumed(y.core, e, msg) || PassedOn(y.core, e, msg))
    ensures Conserved(After(y, e))
  {
    if PassedOn(y.core, e, msg) {
      PassingConserves(y, e.core, msg, ExternalThread, ImplMigrate(msg));
    } else {
      var v :| e.core.log == y.core.log + [Entry(msg, v)];
      LogGrows(y.core.log, Entry(msg, v));
      LoggingConserves(y, e, [msg]);
    }
  }

  lemma InputsConserve(y: Sight, th: Thread, msgs: seq<Msg>)
    requires Owes(y, msgs) && y.core.owner == th && y.core.migration == DONE
    requires y.core.protocolClosing || y.core.attach != APP
    ensures Conserved(After(y, RunTask(y.core, th, OnInputs(msgs))))
  {
    var e := RunTask(y.core, th, OnInputs(msgs));
    if y.core.protocolClosing {
      assert e == DropAll(Effect(y.core, []), msgs);
      ClosedBatchEffect(Effect(y.core, []), msgs);
    } else {
      assert e == OnMsgs(Effect(y.core, []), msgs);
      OpenBatchEffect(Effect(y.core, []), msgs);
    }
    LoggingConserves(y, e, msgs);
  }

  lemma ClosedBatchEffect(e: Effect, msgs: seq<Msg>)
    ensures var e' := DropAll(e, msgs);
            && e'.posts == e.posts && e'.core.arrived == e.core.arrived && e'.core.pending == e.core.pending
            && Msgs(e'.core.log) == Msgs(e.core.log) + msgs
  {
    DropAllEffect(e, msgs);
    LogGrowsBy(e.core.log, msgs, DroppedClosing);
  }

  lemma OpenBatchEffect(e: Effect, msgs: seq<Msg>)
    requires e.core.attach != APP
    ensures var e' := OnMsgs(e, msgs);
            && e'.posts == e.posts && e'.core.arrived == e.core.arrived && e'.core.pending == e.core.pending
            && Msgs(e'.core.log) == Msgs(e.core.log) + msgs
  {
    OnMsgsEffect(e, msgs);
    LogGrowsBy(e.core.log, msgs, if e.core.attach == REMOTE then GivenToRemote else DroppedNoRemote);
  }

  lemma OnCleanedConserves(y: Sight, cmd: Msg)
    requires Owes(y, [cmd]) && y.core.ownLoop
    ensures Conserved(After(y, RunTask(y.core, EngineThread, OnCleaned(cmd))))
  {
    TakeOver(y, cmd);
    LogGrows(y.core.log, Entry(cmd, QueuedInEngine));
    TakesOfFew(Posting(EngineThread, HandleInMsgs(IsDuplicate(cmd))), Posting(EngineThread, NotifyCleaned(false)));
    LoggingConserves(y, RunTask(y.core, EngineThread, OnCleaned(cmd)), [cmd]);
  }

  lemma HopConserves(y: Sight, th: Thread, t: Task)
    requires IsHop(t) && !t.OnCleaned? && Owes(y, [t.cmd]) && Flight(y) == []
    ensures Conserved(After(y, RunTask(y.core, th, t)))
  {
    var e := RunTask(y.core, th, t);
    if t.Clean? {
      CleanIs(y.core, th, t.cmd);
    } else {
      RunsHop(y.core, th, t.cmd);
    }
    var p := e.posts[0];
    PassingConserves(y, e.core, t.cmd, p.thread, p.task);
  }

  // The remaining tasks neither take nor bring messages.
  lemma QuietConserves(y: Sight, e: Effect)
    requires Owes(y, []) && IsQuiet(y.core, e)
    ensures Conserved(After(y, e))
  {
    assert Msgs(y.core.log) + [] == Msgs(y.core.log);
    LoggingConserves(y, e, []);
  }

  predicate IsQuiet(c: Core, e: Effect) {
    e.core.arrived == c.arrived && e.core.log == c.log && e.core.pending == c.pending && Takes(e.posts) == []
  }

  predicate SameMsgs(c: Core, d: Core) {
    c.arrived == d.arrived && c.log == d.log && c.pending == d.pending
  }

  lemma QuietCore(c: Core, d: Core, e: Effect)
    requires SameMsgs(c, d) && e == Effect(d, [])
    ensures IsQuiet(c, e)
  {
  }

  lemma QuietPost(c: Core, d: Core, th: Thread, t: Task, e: Effect)
    requires SameMsgs(c, d) && Carried(t) == [] && e == Post(Effect(d, []), th, t)
    ensures IsQuiet(c, e)
  {
    TakesOfFew(Posting(th, t), Posting(th, t));
    assert e.posts == [Posting(th, t)];
  }

  lemma CloseTaskIsQuiet(c: Core, th: Thread)
    ensures IsQuiet(c, RunTask(c, th, CloseProtocol))
  {
    RunsProtocolClose(c, th, CloseProtocol);
    ProtocolCloseIsQuiet(c, th, RunTask(c, th, CloseProtocol));
  }

  lemma AppCloseIsQuiet(c: Core, th: Thread)
    ensures IsQuiet(c, RunTask(c, th, AppClose))
  {
    if c.orphan {
      RunsProtocolClose(c, th, AppClose);
      ProtocolCloseIsQuiet(c, th, RunTask(c, th, AppClose));
    } else {
      RunsAppClose(c, th);
      QuietCore(c, c, RunTask(c, th, AppClose));
    }
  }

  lemma ProtocolCloseIsQuiet(c: Core, th: Thread, e: Effect)
    requires e == ProtocolClose(Effect(Checked(c, th), []))
    ensures IsQuiet(c, e)
  {
    CheckedMsgs(c, th);
    CloseOrNot(c, Checked(c, th), e);
  }

  lemma CheckedMsgs(c: Core, th: Thread)
    ensures SameMsgs(c, Checked(c, th))
  {
    if c.owner == th {
      assert Checked(c, th) == c;
    } else {
      assert Checked(c, th) == c.(fault := true);
    }
  }

  lemma CloseOrNot(c: Core, d: Core, e: Effect)
    requires SameMsgs(c, d) && e == ProtocolClose(Effect(d, []))
    ensures IsQuiet(c, e)
  {
    if d.protocolClosing {
      QuietCore(c, d, e);
    } else {
      QuietPost(c, d.(protocolClosing := true), ExternalThread, ImplClose, e);
    }
  }

  lemma LinkIsQuiet(c: Core, th: Thread, duplicate: bool)
    ensures IsQuiet(c, RunTask(c, th, HandleInMsgs(duplicate)))
  {
    var d := Checked(c, th);
    RunsLink(c, th, duplicate);
    CheckedMsgs(c, th);
    assert SameMsgs(d, Linked(d, duplicate));
    QuietCore(c, Linked(d, duplicate), RunTask(c, th, HandleInMsgs(duplicate)));
  }

  lemma ClosedIsQuiet(c: Core, th: Thread)
    ensures IsQuiet(c, RunTask(c, th, ProtocolClosed))
  {
    var d := Checked(c, th);
    RunsClosed(c, th);
    CheckedMsgs(c, th);
    assert SameMsgs(d, Destroyed(d));
    QuietCore(c, Destroyed(d), RunTask(c, th, ProtocolClosed));
  }

  lemma StopIsQuiet(c: Core, th: Thread)
    ensures IsQuiet(c, RunTask(c, th, HandleStopGraph))
  {
    RunsStop(c, th);
    if c.owner == th && c.migration == DONE {
      QuietCore(c, c, RunTask(c, th, HandleStopGraph));
    } else {
      QuietCore(c, c.(fault := true), RunTask(c, th, HandleStopGraph));
    }
  }

  lemma NotifyIsQuiet(c: Core, th: Thread, reset: bool)
    ensures IsQuiet(c, RunTask(c, th, NotifyCleaned(reset)))
  {
    RunsNotify(c, th, reset);
    CheckedMsgs(c, th);
    QuietPost(c, Checked(c, th), ExternalThread, ImplOnCleaned(reset), RunTask(c, th, NotifyCleaned(reset)));
  }

  lemma ImplIsQuiet(c: Core, th: Thread, t: Task)
    requires t.ImplOnCleaned? || t.ImplClose?
    ensures IsQuiet(c, RunTask(c, th, t))
  {
    if t.ImplClose? {
      RunsImplClose(c, th);
      QuietCore(c, c.(closeAsked := true), RunTask(c, th, t));
    } else {
      RunsImplOnCleaned(c, th, t.reset);
      QuietCore(c, c.(mirror := if t.reset then INIT else DONE), RunTask(c, th, t));
    }
  }

  lemma OtherTaskIsQuiet(c: Core, th: Thread, t: Task)
    requires Carried(t) == [] && !t.OnInputs?
    ensures IsQuiet(c, RunTask(c, th, t))
  {
    match t
    case CloseProtocol => CloseTaskIsQuiet(c, th);
    case AppClose => AppCloseIsQuiet(c, th);
    case ImplOnCleaned(_) => ImplIsQuiet(c, th, t);
    case ImplClose => ImplIsQuiet(c, th, t);
    case ProtocolClosed => ClosedIsQuiet(c, th);
    case HandleStopGraph => StopIsQuiet(c, th);
    case HandleInMsgs(duplicate) => LinkIsQuiet(c, th, duplicate);
    case NotifyCleaned(reset) => NotifyIsQuiet(c, th, reset);
  }

  lemma TokenConserves(y: Sight, th: Thread, t: Task)
    requires Control(Before(y, th, t)) && AllCoherent(y) && Conserved(Before(y, th, t))
    requires t.OnInput? || IsHop(t)
    ensures Conserved(After(y, RunTask(y.core, th, t)))
  {
    HeadOwes(y, th, t);
    HeadToken(y, th, t);
    if t.OnInput? {
      InputEffect(y.core, t.msg);
      InputConserves(y, RunTask(y.core, AppThread, t), t.msg);
    } else if t.OnCleaned? {
      OnCleanedConserves(y, t.cmd);
    } else {
      HopConserves(y, th, t);
    }
  }

  lemma TaskConserves(y: Sight, th: Thread, t: Task)
    requires Control(Before(y, th, t)) && AllCoherent(y) && Conserved(Before(y, th, t))
    ensures Conserved(After(y, RunTask(y.core, th, t)))
  {
    if t.OnInput? || IsHop(t) {
      TokenConserves(y, th, t);
    } else if t.OnInputs? {
      HeadOwes(y, th, t);
      InputsReachRemote(y, th, t.msgs);
      InputsConserve(y, th, t.msgs);
    } else {
      HeadOwes(y, th, t);
      OtherTaskIsQuiet(y.core, th, t);
      QuietConserves(y, RunTask(y.core, th, t));
    }
  }

  // ---------- Every step ----------

  // The task that hands messages over, and the implementation protocol afterwards.
  function Fed(c: Core): (Core, Task)
    requires c.pending != []
  {
    if c.mirror == INIT then (c.(mirror := FIRST_MSG, pending := c.pending[1..]), OnInput(c.pending[0]))
    else (c.(pending := []), OnInputs(c.pending))
  }

  lemma FedConserves(x: Sight, c: Core, th: Thread, t: Task)
    requires Conserved(x) && c.arrived == x.core.arrived && c.log == x.core.log
    requires x.core.pending == Carried(t) + c.pending
    requires x.external.flight == [] && (th == AppThread ==> x.engine.flight == []) && th != ExternalThread
    ensures Conserved(After(x, Post(Effect(c, []), th, t)))
  {
    AfterOne(x, c, th, t);
    FlightGrows(x, c, th, t);
    Regroup(Msgs(c.log), Flight(x), Carried(t), c.pending);
  }

  lemma Regroup(m: seq<Msg>, f: seq<Msg>, a: seq<Msg>, b: seq<Msg>)
    ensures m + (f + (a + b)) == m + ((f + a) + b)
  {
    assert f + (a + b) == (f + a) + b;
  }

  // While the implementation protocol may use the attached loop, only that loop has messages.
  lemma LastInFlight(x: Sight)
    requires Control(x) && AllCoherent(x) && MayUseLoop(x.core)
    ensures x.external.flight == [] && (AttachedLoop(x.core) == AppThread ==> x.engine.flight == [])
    ensures AttachedLoop(x.core) != ExternalThread
  {
    assert TokenOf(x) == NoToken;
  }

  lemma FlightGrows(x: Sight, c: Core, th: Thread, t: Task)
    requires x.external.flight == [] && (th == AppThread ==> x.engine.flight == []) && th != ExternalThread
    ensures Flight(WithView(x.(core := c), th, AtEnd(th, At(x, th), t))) == Flight(x) + Carried(t)
  {
  }

  lemma FeedKeeps(x: Sight)
    requires Control(x) && AllCoherent(x)
    requires x.core.pending != [] && !x.core.gone && MayUseLoop(x.core)
    ensures var (c, t) := Fed(x.core);
            Control(After(x, Post(Effect(c, []), AttachedLoop(x.core), t)))
  {
    var (c, t) := Fed(x.core);
    AfterOne(x, c, AttachedLoop(x.core), t);
    if x.core.mirror == INIT {
      FeedFirstKeeps(x, c, x.core.pending[0]);
    } else {
      EventKeeps(x, c, t);
    }
  }

  // A request to close, from the client's side or from the app's.
  lemma EventStepKeeps(x: Sight, c: Core, th: Thread, t: Task)
    requires Control(x) && AllCoherent(x) && Conserved(x)
    requires c.log == x.core.log && c.arrived == x.core.arrived && c.pending == x.core.pending
    requires
      || (t.AppClose? && th == AppThread && !x.core.appClosing && c == x.core.(appClosing := true))
      || (th == AttachedLoop(x.core) && MayUseLoop(x.core) && !x.core.gone && !t.OnInputs? && IsLateEvent(x.core, c, t))
    ensures Control(After(x, Post(Effect(c, []), th, t))) && Conserved(After(x, Post(Effect(c, []), th, t)))
  {
    AfterOne(x, c, th, t);
    if t.AppClose? {
      AskAppCloseKeeps(x, c);
    } else {
      EventKeeps(x, c, t);
    }
    EventConserves(x, c, th, t);
  }

  lemma EventConserves(x: Sight, c: Core, th: Thread, t: Task)
    requires Conserved(x) && Carried(t) == []
    requires c.log == x.core.log && c.arrived == x.core.arrived && c.pending == x.core.pending
    ensures Conserved(After(x, Post(Effect(c, []), th, t)))
  {
    AfterOne(x, c, th, t);
    assert Flight(WithView(x.(core := c), th, AtEnd(th, At(x, th), t))) == Flight(x);
  }

  lemma ArriveConserves(x: Sight, msg: Msg)
    requires Conserved(x)
    ensures Conserved(x.(core := x.core.(arrived := x.core.arrived + [msg], pending := x.core.pending + [msg])))
  {
    var m, f := Msgs(x.core.log), Flight(x);
    assert m + (f + x.core.pending) + [msg] == m + (f + (x.core.pending + [msg]));
  }

  lemma SightsAreCoherent(s: State)
    ensures AllCoherent(See(s))
  {
    ViewsAreCoherent(AppThread, s.appQ);
    ViewsAreCoherent(EngineThread, s.engineQ);
    ViewsAreCoherent(ExternalThread, s.externalQ);
  }

  lemma RunningSees(s: State, th: Thread)
    requires Queue(s, th) != []
    ensures var y, t := See(Popped(s, Run(th))), Queue(s, th)[0];
            && See(s) == Before(y, th, t) && AllCoherent(y)
            && See(Next(s, Run(th))) == After(y, RunTask(y.core, th, t))
  {
    SeeNext(s, Run(th));
    SeeRunning(s, th);
  }

  lemma RunningKeepsInv(s: State, th: Thread)
    requires Inv(s) && Queue(s, th) != []
    ensures Inv(Next(s, Run(th)))
  {
    RunningSees(s, th);
    TaskKeeps(See(Popped(s, Run(th))), th, Queue(s, th)[0]);
    TaskConserves(See(Popped(s, Run(th))), th, Queue(s, th)[0]);
  }

  lemma FeedKeepsInv(s: State)
    requires Inv(s) && Enabled(s, Feed)
    ensures Inv(Next(s, Feed))
  {
    SeeNext(s, Feed);
    SightsAreCoherent(s);
    FeedEffect(s);
    FeedKeeps(See(s));
    FeedConserves(See(s));
  }

  lemma FeedEffect(s: State)
    requires Enabled(s, Feed)
    ensures EffectOf(s, Feed) == Post(Effect(Fed(s.core).0, []), AttachedLoop(s.core), Fed(s.core).1)
  {
  }

  lemma FeedConserves(x: Sight)
    requires Control(x) && AllCoherent(x) && Conserved(x) && x.core.pending != [] && MayUseLoop(x.core)
    ensures Conserved(After(x, Post(Effect(Fed(x.core).0, []), AttachedLoop(x.core), Fed(x.core).1)))
  {
    LastInFlight(x);
    FedCarries(x.core);
    FedConserves(x, Fed(x.core).0, AttachedLoop(x.core), Fed(x.core).1);
  }

  lemma FedCarries(c: Core)
    requires c.pending != []
    ensures c.pending == Carried(Fed(c).1) + Fed(c).0.pending && Fed(c).0.arrived == c.arrived && Fed(c).0.log == c.log
  {
    if c.mirror == INIT {
      assert Fed(c).1 == OnInput(c.pending[0]);
      assert [c.pending[0]] + c.pending[1..] == c.pending;
    } else {
      assert Fed(c).1 == OnInputs(c.pending) && c.pending + [] == c.pending;
    }
  }

  lemma OutsideKeepsInv(s: State, l: Label)
    requires Inv(s) && Enabled(s, l) && (l.HangUp? || l.FinishClose? || l.AskAppClose?)
    ensures Inv(Next(s, l))
  {
    var x, c := See(s), s.core;
    SeeNext(s, l);
    SightsAreCoherent(s);
    match l
    case HangUp => EventStepKeeps(x, c.(hungUp := true), AttachedLoop(c), CloseProtocol);
    case FinishClose => EventStepKeeps(x, c.(gone := true), AttachedLoop(c), ProtocolClosed);
    case AskAppClose => EventStepKeeps(x, c.(appClosing := true), AppThread, AppClose);
  }

  // What any thread or the environment may do next keeps the invariant.
  lemma StepKeepsInv(s: State, l: Label)
    requires Inv(s)
    ensures Inv(Next(s, l))
  {
    if !Enabled(s, l) {
    } else if l.Run? {
      RunningKeepsInv(s, l.thread);
    } else if l.Arrive? {
      SeeNext(s, l);
      var e := EffectOf(s, l);
      AfterNone(See(s), e.core);
      ArriveKeeps(See(s), e.core, l.msg);
      ArriveConserves(See(s), l.msg);
    } else if l.Feed? {
      FeedKeepsInv(s);
    } else {
      OutsideKeepsInv(s, l);
    }
  }

  lemma {:induction false} RunKeepsInv(s: State, labels: seq<Label>)
    requires Inv(s)
    ensures Inv(RunAll(s, labels))
    decreases |labels|
  {
    if labels != [] {
      StepKeepsInv(s, labels[0]);
      RunKeepsInv(Next(s, labels[0]), labels[1..]);
    }
  }
}
