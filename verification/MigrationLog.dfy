/**
  What the log of a connection tells about it: which messages follow which, and what each of
  them met with.
 */
module MigrationLog {
  import opened Migration
  import opened MigrationViews
  import opened MigrationSafety
  import opened MigrationTasks
  import opened MigrationRuns

  // Where a log has led the connection.
  datatype Stage =
    | Fresh    // nothing but commands for graphs that were not found
    | Taken    // an engine got the first command
    | Tripped  // the same, and then a batch found no remote
    | Declared // the first command was close_app
    | Frozen   // the first message was consumed without any notification being sent
    | Broken   // any other log

  // A verdict after which nobody tells the implementation protocol to go on.
  predicate IsSilent(e: Entry) {
    || e.verdict == DroppedClosing
    || (e.verdict == DroppedNoRemote && e.msg.NonCmd?)
    || (e.verdict == IgnoredByApp && e.msg.Cmd? && e.msg.route.ToApp?)
    || ((e.verdict == SentToStop || e.verdict == NothingToStop) && e.msg.Cmd?
        && e.msg.route == StopGraph(e.verdict == SentToStop))
    || (e.verdict == Rejected && e.msg.Cmd? && e.msg.route.StartGraphRejected?)
  }

  // The stage the first message leads to.
  function StageFrom(e: Entry): Stage {
    if e.verdict == GraphNotFound && e.msg.Cmd? && e.msg.route.EngineNotFound? then Fresh
    else if e.verdict == QueuedInEngine && IsMigratable(e.msg) then Taken
    else if e.verdict == ClosedApp && e.msg.Cmd? && e.msg.route.CloseApp? then Declared
    else if IsSilent(e) then Frozen
    else Broken
  }

  function StageAfter(stage: Stage, e: Entry): Stage {
    if stage == Fresh then StageFrom(e)
    else if e.verdict == DroppedClosing && (stage == Taken || stage == Tripped || stage == Declared) then stage
    else if e.verdict == GivenToRemote && (stage == Taken || stage == Tripped) then stage
    else if e.verdict == DroppedNoRemote && (stage == Taken || stage == Tripped) then Tripped
    else Broken
  }

  function StageUpTo(log: seq<Entry>, n: nat): Stage
    requires n <= |log|
  {
    if n == 0 then Fresh else StageAfter(StageUpTo(log, n - 1), log[n - 1])
  }

  function StageOf(log: seq<Entry>): Stage {
    StageUpTo(log, |log|)
  }

  lemma {:induction false} SameStageUpTo(log: seq<Entry>, e: Entry, n: nat)
    requires n <= |log|
    ensures StageUpTo(log + [e], n) == StageUpTo(log, n)
  {
    if n > 0 {
      SameStageUpTo(log, e, n - 1);
    }
  }

  lemma StageGrows(log: seq<Entry>, e: Entry)
    ensures StageOf(log + [e]) == StageAfter(StageOf(log), e)
  {
    SameStageUpTo(log, e, |log|);
  }

  // A batch of messages that all meet with the same.
  lemma {:induction false} StageGrowsBy(log: seq<Entry>, msgs: seq<Msg>, verdict: Verdict)
    requires verdict == DroppedClosing || verdict == GivenToRemote || verdict == DroppedNoRemote
    requires StageOf(log) == Taken || StageOf(log) == Tripped || (StageOf(log) == Declared && verdict == DroppedClosing)
    ensures StageOf(log + Entries(msgs, verdict))
         == if verdict == DroppedNoRemote && msgs != [] then Tripped else StageOf(log)
  {
    if msgs == [] {
      assert log + Entries(msgs, verdict) == log;
    } else {
      var last := |msgs| - 1;
      StageGrowsBy(log, msgs[..last], verdict);
      var log1 := log + Entries(msgs[..last], verdict);
      StageGrows(log1, Entry(msgs[last], verdict));
      assert log + Entries(msgs, verdict) == log1 + [Entry(msgs[last], verdict)];
    }
  }

  // The stage of the log and the state of the connection determine each other.
  predicate Agrees(x: Sight, stage: Stage) {
    var c := x.core;
    if c.attach != APP then stage == Taken || (stage == Tripped && c.fault)
    else if c.migration == DONE then stage == Declared
    else stage == if Unanswered(x) then Frozen else Fresh
  }

  predicate LogInv(s: State) {
    Agrees(See(s), StageOf(s.core.log))
  }

  // ---------- Steps that write the log ----------

  lemma InputStage(c: Core, msg: Msg)
    requires c.owner == AppThread && c.attach == APP && c.migration == INIT && c.orphan && StageOf(c.log) == Fresh
    ensures var c' := RunTask(c, AppThread, OnInput(msg)).core;
            StageOf(c'.log) == if c'.attach != APP then Taken
                               else if c'.migration == DONE then Declared
                               else if WakesUp(c, msg) then Fresh else Frozen
  {
    var e := Effect(c, []);
    assert RunTask(c, AppThread, OnInput(msg)) == HandleInput(e, msg);
    if c.protocolClosing {
      StageGrows(c.log, Entry(msg, DroppedClosing));
    } else {
      var e1 := Effect(c.(migration := FIRST_MSG), []);
      assert HandleInput(e, msg) == OnMsg(e1, msg);
      if msg.NonCmd? {
        StageGrows(c.log, Entry(msg, DroppedNoRemote));
      } else {
        assert OnMsg(e1, msg) == AppHandleInMsg(e1, msg);
        CommandStage(e1, msg);
      }
    }
  }

  lemma CommandStage(e: Effect, msg: Msg)
    requires e.core.attach == APP && e.core.migration == FIRST_MSG && e.core.orphan && msg.Cmd?
    requires StageOf(e.core.log) == Fresh && !e.core.protocolClosing
    ensures var c' := AppHandleInMsg(e, msg).core;
            StageOf(c'.log) == if c'.attach != APP then Taken
                               else if c'.migration == DONE then Declared
                               else if WakesUp(e.core, msg) then Fresh else Frozen
  {
    if msg.route.ToEngine? {
      EngineStage(e, msg);
    } else if msg.route.EngineNotFound? || msg.route.CloseApp? {
      AnsweredStage(e, msg);
    } else {
      SilentStage(e, msg);
    }
  }

  lemma EngineStage(e: Effect, msg: Msg)
    requires e.core.attach == APP && e.core.migration == FIRST_MSG && e.core.orphan && IsMigratable(msg)
    requires StageOf(e.core.log) == Fresh
    ensures var c' := AppHandleInMsg(e, msg).core;
            if e.core.ownLoop then c' == e.core
            else c'.attach == ENGINE && StageOf(c'.log) == Taken
  {
    StageGrows(e.core.log, Entry(msg, QueuedInEngine));
    assert AppHandleInMsg(e, msg) == MigrateOrPush(e, msg);
    if !e.core.ownLoop {
      var d := UpgradeToDone(DelOrphan(e), true);
      assert MigrateOrPush(e, msg) == AppendToEngine(d, msg);
      assert d.core.log == e.core.log && d.core.attach == ENGINE;
    }
  }

  lemma AnsweredStage(e: Effect, msg: Msg)
    requires e.core.attach == APP && e.core.migration == FIRST_MSG && msg.Cmd?
    requires msg.route.EngineNotFound? || msg.route.CloseApp?
    requires StageOf(e.core.log) == Fresh
    ensures var c' := AppHandleInMsg(e, msg).core;
            && c'.attach == APP && c'.migration == (if msg.route.CloseApp? then DONE else INIT)
            && StageOf(c'.log) == if msg.route.CloseApp? then Declared else Fresh
  {
    if msg.route.CloseApp? {
      StageGrows(e.core.log, Entry(msg, ClosedApp));
      assert AppHandleInMsg(e, msg) == Log(RequestAppClose(UpgradeToDone(e, false)), msg, ClosedApp);
      assert RequestAppClose(UpgradeToDone(e, false)).core.log == e.core.log;
    } else {
      StageGrows(e.core.log, Entry(msg, GraphNotFound));
      assert AppHandleInMsg(e, msg) == Log(ResetMigration(e), msg, GraphNotFound);
    }
  }

  lemma SilentStage(e: Effect, msg: Msg)
    requires e.core.attach == APP && e.core.migration == FIRST_MSG && msg.Cmd?
    requires msg.route.ToApp? || msg.route.StopGraph? || msg.route.StartGraphRejected?
    requires StageOf(e.core.log) == Fresh
    ensures var c' := AppHandleInMsg(e, msg).core;
            c'.attach == APP && c'.migration == FIRST_MSG && StageOf(c'.log) == Frozen
  {
    SilentRoute(e, msg);
    StageGrows(e.core.log, Entry(msg, SilentVerdict(msg.route)));
  }

  function SilentVerdict(route: Route): Verdict
    requires route.ToApp? || route.StopGraph? || route.StartGraphRejected?
  {
    if route.ToApp? then IgnoredByApp
    else if route.StartGraphRejected? then Rejected
    else if route.found then SentToStop
    else NothingToStop
  }

  lemma SilentRoute(e: Effect, msg: Msg)
    requires e.core.migration == FIRST_MSG && msg.Cmd?
    requires msg.route.ToApp? || msg.route.StopGraph? || msg.route.StartGraphRejected?
    ensures AppHandleInMsg(e, msg).core
         == e.core.(log := e.core.log + [Entry(msg, SilentVerdict(msg.route))])
  {
  }

  lemma InputAgrees(y: Sight, th: Thread, msg: Msg)
    requires var x := Before(y, th, OnInput(msg)); Control(x) && Agrees(x, StageOf(x.core.log))
    requires AllCoherent(y)
    ensures var z := After(y, RunTask(y.core, th, OnInput(msg))); Agrees(z, StageOf(z.core.log))
  {
    HeadToken(y, th, OnInput(msg));
    InputStage(y.core, msg);
    InputKeeps(y, th, msg);
    AfterCore(y, RunTask(y.core, th, OnInput(msg)));
  }

  lemma AfterCore(y: Sight, e: Effect)
    ensures After(y, e).core == e.core
  {
    PostedCore(y.(core := e.core), e.posts);
  }

  lemma {:induction false} PostedCore(y: Sight, posts: seq<Posting>)
    ensures Posted(y, posts).core == y.core
    decreases |posts|
  {
    if posts != [] {
      var p := posts[0];
      PostedCore(WithView(y, p.thread, AtEnd(p.thread, At(y, p.thread), p.task)), posts[1..]);
    }
  }

  lemma InputsAgree(y: Sight, th: Thread, msgs: seq<Msg>)
    requires var x := Before(y, th, OnInputs(msgs)); Control(x) && Agrees(x, StageOf(x.core.log))
    requires AllCoherent(y)
    ensures var z := After(y, RunTask(y.core, th, OnInputs(msgs))); Agrees(z, StageOf(z.core.log))
  {
    InputsReachRemote(y, th, msgs);
    BatchStage(y.core, th, msgs);
    AfterCore(y, RunTask(y.core, th, OnInputs(msgs)));
  }

  lemma BatchStage(c: Core, th: Thread, msgs: seq<Msg>)
    requires c.owner == th && c.migration == DONE && (c.protocolClosing || c.attach != APP)
    requires if c.attach == APP then StageOf(c.log) == Declared
             else StageOf(c.log) == Taken || (StageOf(c.log) == Tripped && c.fault)
    ensures var c' := RunTask(c, th, OnInputs(msgs)).core;
            && c'.attach == c.attach && c'.migration == DONE
            && if c.attach == APP then StageOf(c'.log) == Declared
               else StageOf(c'.log) == Taken || (StageOf(c'.log) == Tripped && c'.fault)
  {
    var e := Effect(c, []);
    if c.protocolClosing {
      assert RunTask(c, th, OnInputs(msgs)) == DropAll(e, msgs);
      DropAllEffect(e, msgs);
      StageGrowsBy(c.log, msgs, DroppedClosing);
    } else {
      assert RunTask(c, th, OnInputs(msgs)) == OnMsgs(e, msgs);
      OnMsgsEffect(e, msgs);
      StageGrowsBy(c.log, msgs, if c.attach == REMOTE then GivenToRemote else DroppedNoRemote);
    }
  }

  lemma OnCleanedAgrees(y: Sight, th: Thread, cmd: Msg)
    requires var x := Before(y, th, OnCleaned(cmd)); Control(x) && Agrees(x, StageOf(x.core.log))
    requires AllCoherent(y)
    ensures var z := After(y, RunTask(y.core, th, OnCleaned(cmd))); Agrees(z, StageOf(z.core.log))
  {
    HeadToken(y, th, OnCleaned(cmd));
    assert !Unanswered(Before(y, th, OnCleaned(cmd)));
    TakeOverAgrees(y, cmd);
  }

  lemma TakeOverAgrees(y: Sight, cmd: Msg)
    requires y.core.ownLoop && StageOf(y.core.log) == Fresh && IsMigratable(cmd)
    ensures var z := After(y, RunTask(y.core, EngineThread, OnCleaned(cmd))); Agrees(z, StageOf(z.core.log))
  {
    TakeOverIs(y.core, cmd);
    AfterCore(y, RunTask(y.core, EngineThread, OnCleaned(cmd)));
    TakenOverAgrees(y.core, cmd, After(y, RunTask(y.core, EngineThread, OnCleaned(cmd))));
  }

  lemma TakenOverAgrees(c: Core, cmd: Msg, z: Sight)
    requires IsTakenOver(c, cmd, z.core) && StageOf(c.log) == Fresh && IsMigratable(cmd)
    ensures Agrees(z, StageOf(z.core.log))
  {
    StageGrows(c.log, Entry(cmd, QueuedInEngine));
  }

  // ---------- Steps that do not ----------

  // What the agreement depends on, apart from the log.
  predicate SameStanding(x: Sight, z: Sight) {
    && z.core.log == x.core.log && (z.core.attach == APP <==> x.core.attach == APP)
    && (z.core.migration == DONE <==> x.core.migration == DONE)
    && (x.core.fault ==> z.core.fault)
    && (Unanswered(z) <==> Unanswered(x))
  }

  lemma OtherAgrees(x: Sight, z: Sight)
    requires Agrees(x, StageOf(x.core.log)) && SameStanding(x, z)
    ensures Agrees(z, StageOf(z.core.log))
  {
  }

  lemma TokenStands(y: Sight, th: Thread, t: Task)
    requires Control(Before(y, th, t)) && AllCoherent(y) && IsToken(t) && !t.OnInput? && !t.OnCleaned?
    ensures SameStanding(Before(y, th, t), After(y, RunTask(y.core, th, t)))
  {
    HeadToken(y, th, t);
    TokenGoesOn(y, th, t);
    TokenFrame(y.core, th, t);
    AfterCore(y, RunTask(y.core, th, t));
    assert !Unanswered(Before(y, th, t));
  }

  // What the core keeps while the task of an attempt is run.
  lemma TokenFrame(c: Core, th: Thread, t: Task)
    requires IsToken(t) && !t.OnInput? && !t.OnCleaned?
    ensures var d := RunTask(c, th, t).core;
            d.log == c.log && d.attach == c.attach && d.migration == c.migration && (c.fault ==> d.fault)
  {
    match t
    case Clean(cmd) => CleanFrame(c, th, cmd);
    case NotifyCleaned(reset) =>
      RunsNotify(c, th, reset);
      CheckedFrame(c, th);
    case ImplOnCleaned(reset) => RunsImplOnCleaned(c, th, reset);
    case ImplMigrate(cmd) => RunsHop(c, th, cmd);
    case OnMigrated(cmd) => RunsHop(c, th, cmd);
    case ImplClean(cmd) => RunsHop(c, th, cmd);
  }

  lemma CheckedFrame(c: Core, th: Thread)
    ensures var d := Checked(c, th);
            d.log == c.log && d.attach == c.attach && d.migration == c.migration && (c.fault ==> d.fault)
  {
    if c.owner == th {
      assert Checked(c, th) == c;
    } else {
      assert Checked(c, th) == c.(fault := true);
    }
  }

  lemma CleanFrame(c: Core, th: Thread, cmd: Msg)
    ensures var d := RunTask(c, th, Clean(cmd)).core;
            d.log == c.log && d.attach == c.attach && d.migration == c.migration && (c.fault ==> d.fault)
  {
    CleanIs(c, th, cmd);
    CheckedFrame(c, th);
    var d := Checked(c, th);
    assert Assert(Effect(c, []), c.owner == th) == Effect(d, []);
    DelOrphanFrame(Assert(Effect(d, []), c.attach == APP));
    AssertFrame(Effect(d, []), c.attach == APP);
  }

  lemma AssertFrame(e: Effect, condition: bool)
    ensures var c, d := e.core, Assert(e, condition).core;
            d.log == c.log && d.attach == c.attach && d.migration == c.migration && (c.fault ==> d.fault)
  {
    if condition {
    }
  }

  lemma DelOrphanFrame(e: Effect)
    ensures var c, d := e.core, DelOrphan(e).core;
            d.log == c.log && d.attach == c.attach && d.migration == c.migration && (c.fault ==> d.fault)
  {
    AssertFrame(e, e.core.orphan);
  }

  lemma LinkStands(y: Sight, th: Thread, duplicate: bool)
    requires Control(Before(y, th, HandleInMsgs(duplicate))) && AllCoherent(y)
    ensures SameStanding(Before(y, th, HandleInMsgs(duplicate)), After(y, RunTask(y.core, th, HandleInMsgs(duplicate))))
  {
    LinkRunsAtOwner(y, th, duplicate);
    RunsLink(y.core, th, duplicate);
    AfterNone(y, Linked(y.core, duplicate));
    StandsWithout(y, th, HandleInMsgs(duplicate), Linked(y.core, duplicate));
  }

  // Taking a task that is no token.
  lemma StandsWithout(y: Sight, th: Thread, t: Task, c: Core)
    requires !IsToken(t)
    requires c.log == y.core.log && (c.attach == APP <==> y.core.attach == APP) && c.migration == y.core.migration
    requires c.mirror == y.core.mirror && (y.core.fault ==> c.fault)
    ensures SameStanding(Before(y, th, t), y.(core := c))
  {
    OtherTasksDoNotCount(th, At(y, th), t);
  }

  lemma StandsWithPost(x: Sight, th: Thread, t: Task)
    requires !IsToken(t)
    ensures SameStanding(x, WithView(x, th, AtEnd(th, At(x, th), t)))
  {
    OtherTasksDoNotCount(th, At(x, th), t);
  }

  lemma CloseStands(y: Sight, th: Thread, t: Task)
    requires Control(Before(y, th, t)) && AllCoherent(y) && (t.AppClose? || t.CloseProtocol?)
    ensures SameStanding(Before(y, th, t), After(y, RunTask(y.core, th, t)))
  {
    if t.AppClose? && !y.core.orphan {
      RunsAppClose(y.core, th);
      AfterNone(y, y.core);
      StandsWithout(y, th, t, y.core);
    } else {
      CloseTaskRunsAtOwner(y, th, t);
      ClosingStands(y, th, t);
    }
  }

  lemma ClosingStands(y: Sight, th: Thread, t: Task)
    requires t.CloseProtocol? || (t.AppClose? && y.core.orphan)
    requires y.core.owner == th
    ensures SameStanding(Before(y, th, t), After(y, RunTask(y.core, th, t)))
  {
    CloseEffect(y, th, t);
    if y.core.protocolClosing {
      StandsWithout(y, th, t, y.core);
    } else {
      var c := y.core.(protocolClosing := true);
      StandsWithout(y, th, t, c);
      StandsWithPost(y.(core := c), ExternalThread, ImplClose);
    }
  }

  lemma OwnStands(y: Sight, th: Thread, t: Task)
    requires Control(Before(y, th, t)) && AllCoherent(y) && (t.ImplClose? || t.ProtocolClosed? || t.HandleStopGraph?)
    ensures SameStanding(Before(y, th, t), After(y, RunTask(y.core, th, t)))
  {
    if t.ImplClose? {
      RunsImplClose(y.core, th);
      AfterNone(y, y.core.(closeAsked := true));
      StandsWithout(y, th, t, y.core.(closeAsked := true));
    } else if t.ProtocolClosed? {
      ProtocolClosedIsLast(y, th);
      RunsClosed(y.core, th);
      var c := y.core.(destroyed := true, orphan := false, onClosed := NoCallback);
      AfterNone(y, c);
      StandsWithout(y, th, t, c);
    } else {
      StopsMeanStalled(y, th);
      RunsStop(y.core, th);
      AfterNone(y, y.core.(fault := true));
      StandsWithout(y, th, t, y.core.(fault := true));
    }
  }

  lemma RunningKeepsLog(s: State, th: Thread)
    requires Inv(s) && LogInv(s) && Queue(s, th) != []
    ensures LogInv(Next(s, Run(th)))
  {
    RunningSees(s, th);
    var y, t := See(Popped(s, Run(th))), Queue(s, th)[0];
    TaskAgrees(y, th, t);
  }

  lemma TaskAgrees(y: Sight, th: Thread, t: Task)
    requires var x := Before(y, th, t); Control(x) && Agrees(x, StageOf(x.core.log))
    requires AllCoherent(y)
    ensures var z := After(y, RunTask(y.core, th, t)); Agrees(z, StageOf(z.core.log))
  {
    if t.OnInput? {
      InputAgrees(y, th, t.msg);
    } else if t.OnInputs? {
      InputsAgree(y, th, t.msgs);
    } else if t.OnCleaned? {
      OnCleanedAgrees(y, th, t.cmd);
    } else {
      TaskStands(y, th, t);
      OtherAgrees(Before(y, th, t), After(y, RunTask(y.core, th, t)));
    }
  }

  lemma TaskStands(y: Sight, th: Thread, t: Task)
    requires Control(Before(y, th, t)) && AllCoherent(y) && !t.OnInput? && !t.OnInputs? && !t.OnCleaned?
    ensures SameStanding(Before(y, th, t), After(y, RunTask(y.core, th, t)))
  {
    if IsToken(t) {
      TokenStands(y, th, t);
    } else if t.HandleInMsgs? {
      LinkStands(y, th, t.duplicate);
    } else if t.AppClose? || t.CloseProtocol? {
      CloseStands(y, th, t);
    } else {
      OwnStands(y, th, t);
    }
  }

  // A step of the environment posts at most one task.
  lemma OutsideStands(s: State, l: Label)
    requires Inv(s) && Enabled(s, l) && !l.Run?
    ensures SameStanding(See(s), See(Next(s, l)))
  {
    var x, c := See(s), s.core;
    SeeNext(s, l);
    if l.Arrive? {
      AfterNone(x, EffectOf(s, l).core);
    } else if l.Feed? {
      FeedStands(s);
    } else {
      EventStands(s, l);
    }
  }

  lemma EventStands(s: State, l: Label)
    requires Enabled(s, l) && (l.HangUp? || l.FinishClose? || l.AskAppClose?)
    ensures SameStanding(See(s), After(See(s), EffectOf(s, l)))
  {
    var x, c := See(s), s.core;
    OutsideIs(s, l);
    if l.AskAppClose? {
      PostStands(x, c.(appClosing := true), AppThread, AppClose);
    } else if l.HangUp? {
      PostStands(x, c.(hungUp := true), AttachedLoop(c), CloseProtocol);
    } else {
      PostStands(x, c.(gone := true), AttachedLoop(c), ProtocolClosed);
    }
  }

  lemma FeedStands(s: State)
    requires Inv(s) && Enabled(s, Feed)
    ensures SameStanding(See(s), After(See(s), EffectOf(s, Feed)))
  {
    FeedEffect(s);
    if s.core.mirror == INIT {
      FeedFirstStands(See(s), AttachedLoop(s.core));
    } else {
      PostStands(See(s), s.core.(pending := []), AttachedLoop(s.core), OnInputs(s.core.pending));
    }
  }

  lemma FeedFirstStands(x: Sight, th: Thread)
    requires x.core.mirror == INIT && x.core.pending != []
    ensures var (c, t) := Fed(x.core); SameStanding(x, After(x, Post(Effect(c, []), th, t)))
  {
    var (c, t) := Fed(x.core);
    AfterOne(x, c, th, t);
    assert AtEnd(th, At(x, th), t).tokens == At(x, th).tokens + [t];
  }

  lemma PostStands(x: Sight, c: Core, th: Thread, t: Task)
    requires !IsToken(t) && c.log == x.core.log && c.attach == x.core.attach && c.migration == x.core.migration
    requires c.mirror == x.core.mirror && c.fault == x.core.fault
    ensures SameStanding(x, After(x, Post(Effect(c, []), th, t)))
  {
    AfterOne(x, c, th, t);
    OtherTasksDoNotCount(th, At(x, th), t);
  }

  lemma StepKeepsLog(s: State, l: Label)
    requires Inv(s) && LogInv(s)
    ensures LogInv(Next(s, l))
  {
    if !Enabled(s, l) {
    } else if l.Run? {
      RunningKeepsLog(s, l.thread);
    } else {
      OutsideStands(s, l);
      OtherAgrees(See(s), See(Next(s, l)));
    }
  }

  lemma {:induction false} RunKeepsLog(s: State, labels: seq<Label>)
    requires Inv(s) && LogInv(s)
    ensures LogInv(RunAll(s, labels))
    decreases |labels|
  {
    if labels != [] {
      StepKeepsInv(s, labels[0]);
      StepKeepsLog(s, labels[0]);
      RunKeepsLog(Next(s, labels[0]), labels[1..]);
    }
  }
}
