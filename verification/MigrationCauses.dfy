/**
  Which messages of a client can make an assertion fail, over whole runs.
 */
module MigrationCauses {
  import opened Migration
  import opened MigrationTasks
  import opened MigrationViews
  import opened MigrationSafety
  import opened MigrationRuns
  import opened MigrationLog
  import opened MigrationLaws
  import opened MigrationHistory
  import opened MigrationProgress
  import opened MigrationFaults

  // ---------- Traces of the causes in the log ----------

  predicate IsDuplicateEntry(e: Entry) {
    e.verdict == QueuedInEngine && IsDuplicate(e.msg)
  }

  predicate HasDuplicate(log: seq<Entry>) {
    exists i | 0 <= i < |log| :: IsDuplicateEntry(log[i])
  }

  predicate HasStop(log: seq<Entry>) {
    exists i | 0 <= i < |log| :: log[i].verdict == SentToStop
  }

  lemma CausesStay(log: seq<Entry>, log': seq<Entry>)
    requires log <= log'
    ensures HasDuplicate(log) ==> HasDuplicate(log')
    ensures HasStop(log) ==> HasStop(log')
  {
    if i :| 0 <= i < |log| && IsDuplicateEntry(log[i]) {
      assert IsDuplicateEntry(log'[i]);
    }
    if i :| 0 <= i < |log| && log[i].verdict == SentToStop {
      assert log'[i].verdict == SentToStop;
    }
  }

  ghost predicate Somewhere(s: State, t: Task) {
    exists th :: t in Queue(s, th)
  }

  ghost predicate Causes(s: State) {
    && (s.core.duplicate || Somewhere(s, HandleInMsgs(true)) ==> HasDuplicate(s.core.log))
    && (Somewhere(s, HandleStopGraph) ==> HasStop(s.core.log))
    && Traced(s.core)
  }

  // ---------- What a task posts ----------

  predicate Plain(posts: seq<Posting>) {
    forall p | p in posts :: !p.task.HandleInMsgs? && !p.task.HandleStopGraph?
  }

  // What is posted has its cause in the log.
  predicate Explained(e: Effect) {
    forall p | p in e.posts ::
      && (p.task == HandleInMsgs(true) ==> HasDuplicate(e.core.log))
      && (p.task == HandleStopGraph ==> HasStop(e.core.log))
  }

  lemma LastEntry(log: seq<Entry>, e: Entry)
    ensures IsDuplicateEntry(e) ==> HasDuplicate(log + [e])
    ensures e.verdict == SentToStop ==> HasStop(log + [e])
  {
    assert (log + [e])[|log|] == e;
  }

  lemma AppendExplained(e: Effect, cmd: Msg)
    requires Plain(e.posts)
    ensures Explained(AppendToEngine(e, cmd))
  {
    LastEntry(e.core.log, Entry(cmd, QueuedInEngine));
    assert AppendToEngine(e, cmd).core.log == e.core.log + [Entry(cmd, QueuedInEngine)];
    assert AppendToEngine(e, cmd).posts == e.posts + [Posting(EngineLoop(e.core), HandleInMsgs(IsDuplicate(cmd)))];
  }

  lemma UpgradePlain(e: Effect, engine: bool)
    requires Plain(e.posts)
    ensures Plain(UpgradeToDone(e, engine).posts)
  {
    UpgradeIs(e, engine);
  }

  lemma EngineRouteExplained(e: Effect, msg: Msg)
    requires e.posts == [] && e.core.migration == FIRST_MSG && e.core.attach == APP && e.core.orphan
    ensures Explained(MigrateOrPush(e, msg))
  {
    if !e.core.ownLoop {
      UpgradePlain(DelOrphan(e), true);
      AppendExplained(UpgradeToDone(DelOrphan(e), true), msg);
    }
  }

  lemma CloseAppExplained(e: Effect, msg: Msg)
    requires e.posts == []
    ensures Plain(Log(RequestAppClose(UpgradeToDone(e, false)), msg, ClosedApp).posts)
  {
    UpgradePlain(e, false);
    if e.core.appClosing {
    }
  }

  lemma StopExplained(e: Effect, msg: Msg, th: Thread)
    requires e.posts == []
    ensures Explained(Post(Log(e, msg, SentToStop), th, HandleStopGraph))
  {
    LastEntry(e.core.log, Entry(msg, SentToStop));
  }

  lemma RouteExplained(e: Effect, msg: Msg)
    requires e.posts == [] && e.core.migration == FIRST_MSG && e.core.attach == APP && e.core.orphan && msg.Cmd?
    ensures Explained(AppHandleInMsg(e, msg))
  {
    RouteIs(e, msg);
    if msg.route.ToEngine? {
      EngineRouteExplained(e, msg);
    } else if msg.route.EngineNotFound? {
      ResetIs(e);
    } else if msg.route.CloseApp? {
      CloseAppExplained(e, msg);
    } else if msg.route == StopGraph(true) {
      StopExplained(e, msg, EngineLoop(e.core));
    }
  }

  lemma InputExplained(c: Core, msg: Msg)
    requires c.owner == AppThread && c.attach == APP && c.migration == INIT && c.orphan
    ensures Explained(RunTask(c, AppThread, OnInput(msg)))
  {
    var e := Effect(c, []);
    assert RunTask(c, AppThread, OnInput(msg)) == HandleInput(e, msg);
    InputIs(e, msg);
    if !c.protocolClosing {
      var e1 := Effect(c.(migration := FIRST_MSG), []);
      OnMsgIs(e1, msg);
      if msg.Cmd? {
        RouteExplained(e1, msg);
      }
    }
  }

  lemma OnCleanedExplained(c: Core, th: Thread, cmd: Msg)
    ensures Explained(RunTask(c, th, OnCleaned(cmd)))
  {
    var d := AppendToEngine(Effect(c.(owner := th), []), cmd);
    OnCleanedIs(c, th, cmd);
    UpgradeIs(d, true);
    AppendExplained(Effect(c.(owner := th), []), cmd);
    assert UpgradeToDone(d, true).core.log == d.core.log;
  }

  lemma OtherPlain(c: Core, th: Thread, t: Task)
    requires !t.OnInput? && !t.OnCleaned? && !t.OnInputs?
    ensures Plain(RunTask(c, th, t).posts)
  {
    if t.HandleInMsgs? {
      RunsLink(c, th, t.duplicate);
    } else if t.CloseProtocol? || (t.AppClose? && c.orphan) {
      RunsClose(c, th, t);
    } else if t.AppClose? {
      RunsAppClose(c, th);
    } else if t.ProtocolClosed? {
      RunsClosed(c, th);
    } else if t.Clean? {
      CleanPosts(c, th, t.cmd);
    } else if t.NotifyCleaned? {
      RunsNotify(c, th, t.reset);
    } else if t.ImplOnCleaned? {
      RunsImplOnCleaned(c, th, t.reset);
    } else if t.ImplClose? {
      RunsImplClose(c, th);
    } else if t.HandleStopGraph? {
      RunsStop(c, th);
    } else {
      RunsHop(c, th, t.cmd);
    }
  }

  lemma BatchPosts(c: Core, th: Thread, msgs: seq<Msg>)
    requires c.owner == th && c.migration == DONE && (c.protocolClosing || c.attach != APP)
    ensures RunTask(c, th, OnInputs(msgs)).posts == []
  {
    if c.protocolClosing {
      assert RunTask(c, th, OnInputs(msgs)) == DropAll(Effect(c, []), msgs);
      DropAllEffect(Effect(c, []), msgs);
    } else {
      assert RunTask(c, th, OnInputs(msgs)) == OnMsgs(Effect(c, []), msgs);
      OnMsgsEffect(Effect(c, []), msgs);
    }
  }

  lemma PlainIsExplained(e: Effect)
    requires Plain(e.posts)
    ensures Explained(e)
  {
  }

  // ---------- What a task does to the causes ----------

  lemma CloseKeepsDuplicate(c: Core, th: Thread, t: Task)
    requires t.CloseProtocol? || t.AppClose?
    ensures RunTask(c, th, t).core.duplicate == c.duplicate
  {
    CheckedKeepsDuplicate(c, th);
    if t.AppClose? && !c.orphan {
      RunsAppClose(c, th);
    } else {
      RunsProtocolClose(c, th, t);
    }
  }

  lemma LinkKeepsDuplicate(c: Core, th: Thread)
    ensures RunTask(c, th, HandleInMsgs(false)).core.duplicate == c.duplicate
  {
    CheckedKeepsDuplicate(c, th);
    RunsLink(c, th, false);
  }

  lemma CleaningKeepsDuplicate(c: Core, th: Thread, t: Task)
    requires t.Clean? || t.OnCleaned?
    ensures RunTask(c, th, t).core.duplicate == c.duplicate
  {
    if t.Clean? {
      CleanIs(c, th, t.cmd);
      DelOrphanHandles(Assert(Assert(Effect(c, []), c.owner == th), c.attach == APP));
      AssertHandles(Effect(c, []), c.owner == th);
      AssertHandles(Assert(Effect(c, []), c.owner == th), c.attach == APP);
    } else {
      OnCleanedIs(c, th, t.cmd);
      UpgradeHandles(AppendToEngine(Effect(c.(owner := th), []), t.cmd), true);
      AppendHandles(Effect(c.(owner := th), []), t.cmd);
    }
  }

  lemma ImplKeepsDuplicate(c: Core, th: Thread, t: Task)
    requires t.ImplOnCleaned? || t.ImplClose? || t.HandleStopGraph?
    ensures RunTask(c, th, t).core.duplicate == c.duplicate
  {
    if t.ImplOnCleaned? {
      RunsImplOnCleaned(c, th, t.reset);
    } else if t.ImplClose? {
      RunsImplClose(c, th);
    } else {
      RunsStop(c, th);
    }
  }

  lemma CheckedKeepsDuplicate(c: Core, th: Thread)
    ensures Checked(c, th).duplicate == c.duplicate
  {
    if c.owner == th {
    }
  }

  lemma NotifyKeepsDuplicate(c: Core, th: Thread, reset: bool)
    ensures RunTask(c, th, NotifyCleaned(reset)).core.duplicate == c.duplicate
  {
    CheckedKeepsDuplicate(c, th);
    RunsNotify(c, th, reset);
  }

  lemma ClosedKeepsDuplicate(c: Core, th: Thread)
    ensures RunTask(c, th, ProtocolClosed).core.duplicate == c.duplicate
  {
    CheckedKeepsDuplicate(c, th);
    RunsClosed(c, th);
  }

  lemma HopKeepsDuplicate(c: Core, th: Thread, t: Task)
    requires t.ImplMigrate? || t.OnMigrated? || t.ImplClean?
    ensures RunTask(c, th, t).core.duplicate == c.duplicate
  {
    RunsHop(c, th, t.cmd);
  }

  lemma OtherKeepsDuplicate(c: Core, th: Thread, t: Task)
    requires !t.OnInput? && !t.OnInputs? && t != HandleInMsgs(true)
    ensures RunTask(c, th, t).core.duplicate == c.duplicate
  {
    match t
    case HandleInMsgs(_) => LinkKeepsDuplicate(c, th);
    case CloseProtocol => CloseKeepsDuplicate(c, th, t);
    case AppClose => CloseKeepsDuplicate(c, th, t);
    case Clean(_) => CleaningKeepsDuplicate(c, th, t);
    case OnCleaned(_) => CleaningKeepsDuplicate(c, th, t);
    case NotifyCleaned(reset) => NotifyKeepsDuplicate(c, th, reset);
    case ProtocolClosed => ClosedKeepsDuplicate(c, th);
    case ImplMigrate(_) => HopKeepsDuplicate(c, th, t);
    case OnMigrated(_) => HopKeepsDuplicate(c, th, t);
    case ImplClean(_) => HopKeepsDuplicate(c, th, t);
    case _ => ImplKeepsDuplicate(c, th, t);
  }

  lemma TaskExplained(y: Sight, th: Thread, t: Task)
    requires Control(Before(y, th, t)) && AllCoherent(y)
    ensures Explained(RunTask(y.core, th, t))
    ensures RunTask(y.core, th, t).core.duplicate ==> y.core.duplicate || t == HandleInMsgs(true)
  {
    if t.OnInput? {
      HeadToken(y, th, t);
      InputExplained(y.core, t.msg);
      InputFlags(y.core, t.msg);
    } else if t.OnInputs? {
      InputsReachRemote(y, th, t.msgs);
      BatchPosts(y.core, th, t.msgs);
      BatchFlags(y.core, th, t.msgs);
    } else if t.OnCleaned? {
      OnCleanedExplained(y.core, th, t.cmd);
      OtherKeepsDuplicate(y.core, th, t);
    } else {
      OtherPlain(y.core, th, t);
      PlainIsExplained(RunTask(y.core, th, t));
      if t != HandleInMsgs(true) {
        OtherKeepsDuplicate(y.core, th, t);
      }
    }
  }

  // ---------- The stage of a tripped batch ----------

  lemma {:induction false} TrippedStays(log: seq<Entry>, log': seq<Entry>, n: nat)
    requires log <= log' && |log| <= n <= |log'| && StageOf(log) == Tripped
    ensures StageUpTo(log', n) == Tripped || StageUpTo(log', n) == Broken
  {
    if n > |log| {
      TrippedStays(log, log', n - 1);
    } else {
      SameStages(log, log', n);
    }
  }

  lemma {:induction false} SameStages(log: seq<Entry>, log': seq<Entry>, n: nat)
    requires log <= log' && n <= |log|
    ensures StageUpTo(log', n) == StageUpTo(log, n)
  {
    if n > 0 {
      SameStages(log, log', n - 1);
    }
  }

  // A batch that trips the assertion leaves its trace, and nothing else does.
  lemma BatchTrace(c: Core, th: Thread, msgs: seq<Msg>)
    requires c.owner == th && c.migration == DONE && (c.protocolClosing || c.attach != APP)
    requires if c.attach == APP then StageOf(c.log) == Declared else StageOf(c.log) == Taken || StageOf(c.log) == Tripped
    ensures StageOf(RunTask(c, th, OnInputs(msgs)).core.log)
         == if TripsOn(c, msgs) then Tripped else StageOf(c.log)
  {
    var e := Effect(c, []);
    if c.protocolClosing {
      assert RunTask(c, th, OnInputs(msgs)) == DropAll(e, msgs);
      DropAllEffect(e, msgs);
      StageGrowsBy(c.log, msgs, DroppedClosing);
    } else {
      assert RunTask(c, th, OnInputs(msgs)) == OnMsgs(e, msgs);
      OnMsgsEffect(e, msgs);
      StageGrowsBy(c.log, msgs, if c.attach == REMOTE then GivenToRemote else DroppedNoRemote);
    }
  }

  lemma TaskTrace(y: Sight, th: Thread, t: Task)
    requires var x := Before(y, th, t); Control(x) && Agrees(x, StageOf(x.core.log))
    requires AllCoherent(y)
    ensures StageOf(RunTask(y.core, th, t).core.log) == Tripped
            <==> StageOf(y.core.log) == Tripped || (t.OnInputs? && TripsOn(y.core, t.msgs))
  {
    if t.OnInput? {
      HeadToken(y, th, t);
      InputStage(y.core, t.msg);
    } else if t.OnInputs? {
      InputsReachRemote(y, th, t.msgs);
      BatchTrace(y.core, th, t.msgs);
    } else if t.OnCleaned? {
      HeadToken(y, th, t);
      OnCleanedTrace(y.core, th, t.cmd);
    } else {
      TaskStands(y, th, t);
      AfterCore(y, RunTask(y.core, th, t));
    }
  }

  lemma OnCleanedTrace(c: Core, th: Thread, cmd: Msg)
    requires StageOf(c.log) == Fresh
    ensures StageOf(RunTask(c, th, OnCleaned(cmd)).core.log) != Tripped
  {
    var d := AppendToEngine(Effect(c.(owner := th), []), cmd);
    OnCleanedIs(c, th, cmd);
    UpgradeIs(d, true);
    StageGrows(c.log, Entry(cmd, QueuedInEngine));
    assert UpgradeToDone(d, true).core.log == c.log + [Entry(cmd, QueuedInEngine)];
  }

  // ---------- Steps ----------

  // What a failed assertion leaves behind.
  predicate Traced(c: Core) {
    && (c.fault ==> HasStop(c.log) || StageOf(c.log) == Tripped)
    && (StageOf(c.log) == Tripped ==> c.duplicate)
  }

  lemma TraceGoesOn(c: Core, d: Core, stops: bool, trips: bool)
    requires Traced(c) && c.log <= d.log && (c.duplicate ==> d.duplicate)
    requires (stops ==> HasStop(c.log)) && (trips ==> c.duplicate)
    requires d.fault <==> c.fault || stops || trips
    requires StageOf(d.log) == Tripped <==> StageOf(c.log) == Tripped || trips
    ensures Traced(d)
  {
    CausesStay(c.log, d.log);
  }

  lemma RunTrace(s: State, th: Thread)
    requires Inv(s) && LogInv(s) && Queue(s, th) != [] && Traced(s.core)
    requires Queue(s, th)[0].HandleStopGraph? ==> HasStop(s.core.log)
    ensures Traced(Next(s, Run(th)).core)
  {
    var t := Queue(s, th)[0];
    var trips := t.OnInputs? && TripsOn(s.core, t.msgs);
    RunGoesLater(s, th);
    RunIsTask(s, th);
    RunStage(s, th);
    RunFaultIs(s, th);
    if trips {
      TrippedMeansDuplicate(s, th);
    }
    TraceGoesOn(s.core, Next(s, Run(th)).core, t.HandleStopGraph?, trips);
  }

  lemma RunIsTask(s: State, th: Thread)
    requires Queue(s, th) != []
    ensures Next(s, Run(th)).core == RunTask(s.core, th, Queue(s, th)[0]).core
  {
    NextCore(s, Run(th));
  }

  lemma RunGoesLater(s: State, th: Thread)
    requires Inv(s)
    ensures s.core.log <= Next(s, Run(th)).core.log && (s.core.duplicate ==> Next(s, Run(th)).core.duplicate)
  {
    StepLater(s, Run(th));
  }

  lemma RunStage(s: State, th: Thread)
    requires Inv(s) && LogInv(s) && Queue(s, th) != []
    ensures var t := Queue(s, th)[0];
            StageOf(RunTask(s.core, th, t).core.log) == Tripped
            <==> StageOf(s.core.log) == Tripped || (t.OnInputs? && TripsOn(s.core, t.msgs))
  {
    RunningSees(s, th);
    TaskTrace(See(Popped(s, Run(th))), th, Queue(s, th)[0]);
  }

  lemma RunFaultIs(s: State, th: Thread)
    requires Inv(s) && Queue(s, th) != []
    ensures var t := Queue(s, th)[0];
            RunTask(s.core, th, t).core.fault
            <==> s.core.fault || t.HandleStopGraph? || (t.OnInputs? && TripsOn(s.core, t.msgs))
  {
    RunningSees(s, th);
    TaskFault(See(Popped(s, Run(th))), th, Queue(s, th)[0]);
  }

  lemma TrippedMeansDuplicate(s: State, th: Thread)
    requires Inv(s) && Queue(s, th) != [] && Queue(s, th)[0].OnInputs? && TripsOn(s.core, Queue(s, th)[0].msgs)
    ensures s.core.duplicate
  {
    SeeBeforeInputs(s, th);
  }

  lemma PostedSomewhere(s: State, l: Label, t: Task)
    requires Enabled(s, l) && Somewhere(Next(s, l), t)
    ensures Somewhere(s, t) || exists p | p in EffectOf(s, l).posts :: p.task == t
  {
    var th :| t in Queue(Next(s, l), th);
    QueueAfter(s, l, th);
    var posted := PostsTo(EffectOf(s, l).posts, th);
    if t in posted {
      var i: nat :| i < |posted| && posted[i] == t;
      PostedToIsPosted(EffectOf(s, l).posts, th, i);
      assert Posting(th, t) in EffectOf(s, l).posts;
    } else {
      assert t in Queue(s, th);
    }
  }

  lemma RunCauses(s: State, th: Thread)
    requires Inv(s) && LogInv(s) && Causes(s) && Queue(s, th) != []
    ensures Causes(Next(s, Run(th)))
  {
    assert Somewhere(s, Queue(s, th)[0]);
    RunTrace(s, th);
    DuplicateHasCause(s, th);
    StopHasCause(s, th);
  }

  // What the task does to the log, and what it posts.
  lemma RunIsExplained(s: State, th: Thread)
    requires Inv(s) && Queue(s, th) != []
    ensures Explained(EffectOf(s, Run(th))) && EffectOf(s, Run(th)).core == Next(s, Run(th)).core
    ensures Next(s, Run(th)).core.duplicate ==> s.core.duplicate || Queue(s, th)[0] == HandleInMsgs(true)
    ensures s.core.log <= Next(s, Run(th)).core.log
  {
    RunIsTask(s, th);
    RunGoesLater(s, th);
    RunningSees(s, th);
    TaskExplained(See(Popped(s, Run(th))), th, Queue(s, th)[0]);
  }

  lemma DuplicateHasCause(s: State, th: Thread)
    requires Inv(s) && Queue(s, th) != [] && (s.core.duplicate || Somewhere(s, HandleInMsgs(true)) ==> HasDuplicate(s.core.log))
    ensures var s' := Next(s, Run(th)); s'.core.duplicate || Somewhere(s', HandleInMsgs(true)) ==> HasDuplicate(s'.core.log)
  {
    var s' := Next(s, Run(th));
    RunIsExplained(s, th);
    CausesStay(s.core.log, s'.core.log);
    assert Somewhere(s, Queue(s, th)[0]);
    if Somewhere(s', HandleInMsgs(true)) {
      PostedSomewhere(s, Run(th), HandleInMsgs(true));
    }
  }

  lemma StopHasCause(s: State, th: Thread)
    requires Inv(s) && Queue(s, th) != [] && (Somewhere(s, HandleStopGraph) ==> HasStop(s.core.log))
    ensures var s' := Next(s, Run(th)); Somewhere(s', HandleStopGraph) ==> HasStop(s'.core.log)
  {
    var s' := Next(s, Run(th));
    RunIsExplained(s, th);
    CausesStay(s.core.log, s'.core.log);
    if Somewhere(s', HandleStopGraph) {
      PostedSomewhere(s, Run(th), HandleStopGraph);
    }
  }

  lemma OutsidePosts(s: State, l: Label)
    requires Enabled(s, l) && !l.Run?
    ensures Plain(EffectOf(s, l).posts)
    ensures EffectOf(s, l).core.duplicate == s.core.duplicate && EffectOf(s, l).core.fault == s.core.fault
  {
    if l.Feed? {
      if s.core.mirror == INIT {
        FeedFirstIs(s);
      } else {
        FeedAllIs(s);
      }
    } else if l.HangUp? || l.FinishClose? || l.AskAppClose? {
      OutsideIs(s, l);
    }
  }

  lemma StepCauses(s: State, l: Label)
    requires Inv(s) && LogInv(s) && Causes(s)
    ensures Causes(Next(s, l))
  {
    if Enabled(s, l) {
      if l.Run? {
        RunCauses(s, l.thread);
      } else {
        OutsidePosts(s, l);
        NextCore(s, l);
        OutsideStands(s, l);
        assert See(Next(s, l)).core == Next(s, l).core;
        if Somewhere(Next(s, l), HandleInMsgs(true)) {
          PostedSomewhere(s, l, HandleInMsgs(true));
        }
        if Somewhere(Next(s, l), HandleStopGraph) {
          PostedSomewhere(s, l, HandleStopGraph);
        }
      }
    }
  }

  lemma {:induction false} ReachedHasCauses(ownLoop: bool, labels: seq<Label>)
    ensures Causes(Reached(ownLoop, labels))
    decreases |labels|
  {
    if labels != [] {
      var front, l := labels[..|labels| - 1], labels[|labels| - 1];
      assert front + [l] == labels;
      RunAllLast(Init(ownLoop), front, l);
      ReachedKeepsInv(ownLoop, front);
      ReachedHasCauses(ownLoop, front);
      StepCauses(Reached(ownLoop, front), l);
    }
  }

  // ---------- What the client must have sent ----------

  predicate IsUnknown(msg: Msg) {
    msg.Cmd? && msg.route.EngineNotFound?
  }

  predicate StopsGraph(msg: Msg) {
    msg.Cmd? && msg.route == StopGraph(true)
  }

  // The command for an engine, with the answer to whether its channel is a second one.
  predicate GoesToEngine(msg: Msg, duplicate: bool) {
    msg.Cmd? && msg.route == ToEngine(duplicate)
  }

  // After k commands for unknown graphs comes a stop_graph command for an existing one, or a
  // start_graph command over a second channel, followed by anything.
  predicate TripsAt(msgs: seq<Msg>, k: nat) {
    && k < |msgs| && (forall i | 0 <= i < k :: IsUnknown(msgs[i]))
    && (StopsGraph(msgs[k]) || (GoesToEngine(msgs[k], true) && k + 1 < |msgs|))
  }

  lemma {:induction false} MsgsAt(log: seq<Entry>, i: nat)
    requires i < |log|
    ensures Msgs(log)[i] == log[i].msg
  {
    if i < |log| - 1 {
      MsgsAt(log[..|log| - 1], i);
    }
  }

  lemma LoggedHaveArrived(s: State, i: nat)
    requires Inv(s) && i < |s.core.log|
    ensures i < |s.core.arrived| && s.core.arrived[i] == s.core.log[i].msg
  {
    MsgsAt(s.core.log, i);
    assert s.core.arrived == Msgs(s.core.log) + (Flight(See(s)) + s.core.pending);
  }

  lemma ShapeTrips(log: seq<Entry>, k: nat)
    requires StageOf(log) != Broken && Shape(log, k, StageOf(log))
    requires HasStop(log) || (StageOf(log) == Tripped && HasDuplicate(log))
    ensures k < |log| && (StopsGraph(log[k].msg) || (GoesToEngine(log[k].msg, true) && k + 1 < |log|))
  {
    if HasStop(log) {
      var i :| 0 <= i < |log| && log[i].verdict == SentToStop;
      assert i == k;
    } else {
      var i :| 0 <= i < |log| && IsDuplicateEntry(log[i]);
      assert i == k;
    }
  }

  // An assertion fails only in runs in which the client sends messages of that kind.
  lemma FaultNeedsCause(ownLoop: bool, labels: seq<Label>) returns (k: nat)
    requires Reached(ownLoop, labels).core.fault
    ensures TripsAt(Reached(ownLoop, labels).core.arrived, k)
  {
    var s := Reached(ownLoop, labels);
    ReachedKeepsInv(ownLoop, labels);
    ReachedHasCauses(ownLoop, labels);
    LogDecides(s);
    k := LogHasShape(s.core.log);
    ShapeTrips(s.core.log, k);
    forall i: nat | i < |s.core.log|
      ensures i < |s.core.arrived| && s.core.arrived[i] == s.core.log[i].msg
    {
      LoggedHaveArrived(s, i);
    }
    assert forall i | 0 <= i < k :: IsUnknownGraph(s.core.log[i]);
    assert k + 1 < |s.core.log| ==> k + 1 < |s.core.arrived| by {
      if k + 1 < |s.core.log| {
        LoggedHaveArrived(s, k + 1);
      }
    }
  }
}
