/**
  What follows from the invariant, stated on the states themselves: for every configuration
  and every run, whatever the three threads and the client do.
 */
module MigrationLaws {
  import opened Migration
  import opened MigrationViews
  import opened MigrationSafety
  import opened MigrationTasks
  import opened MigrationRuns
  import opened MigrationLog

  function Reached(ownLoop: bool, labels: seq<Label>): State {
    RunAll(Init(ownLoop), labels)
  }

  lemma ReachedKeepsInv(ownLoop: bool, labels: seq<Label>)
    ensures Inv(Reached(ownLoop, labels)) && LogInv(Reached(ownLoop, labels))
  {
    InitInv(ownLoop);
    RunKeepsInv(Init(ownLoop), labels);
    RunKeepsLog(Init(ownLoop), labels);
  }

  // ---------- From views to queues ----------

  // A token at a position of a queue.
  predicate Waits(s: State, th: Thread, i: nat, t: Task) {
    i < |Queue(s, th)| && Queue(s, th)[i] == t && IsToken(t)
  }

  lemma {:induction false} TokensOfView(th: Thread, q: seq<Task>, i: nat)
    requires i < |q| && IsToken(q[i])
    ensures var tokens := ViewOf(th, q).tokens;
            && tokens != []
            && (|tokens| == 1 ==> tokens[0] == q[i] && forall j | 0 <= j < |q| && IsToken(q[j]) :: j == i)
  {
    var v := ViewOf(th, q[1..]);
    if i > 0 {
      TokensOfView(th, q[1..], i - 1);
      assert forall j | 1 <= j < |q| :: q[j] == q[1..][j - 1];
    } else if j: nat :| 0 < j < |q| && IsToken(q[j]) {
      TokensOfView(th, q[1..], j - 1);
    }
  }

  // The token of the sight waits somewhere, and nothing else does.
  lemma TokenWaits(s: State, th: Thread, i: nat, t: Task)
    requires Inv(s) && Waits(s, th, i, t)
    ensures TokenOf(See(s)) == TokenAt(th, t)
    ensures forall th', j, t' :: Waits(s, th', j, t') ==> th' == th && j == i && t' == t
  {
    TokensOfView(th, Queue(s, th), i);
    forall th', j, t' | Waits(s, th', j, t')
      ensures th' == th && j == i && t' == t
    {
      TokensOfView(th', Queue(s, th'), j);
    }
  }

  lemma {:induction false} FirstToken(th: Thread, q: seq<Task>) returns (i: nat)
    requires ViewOf(th, q).tokens != []
    ensures i < |q| && IsToken(q[i])
  {
    if IsToken(q[0]) {
      i := 0;
    } else {
      i := FirstToken(th, q[1..]);
      i := i + 1;
    }
  }

  // The messages under way, in order, read off the queues.
  function InFlight(q: seq<Task>): seq<Msg> {
    if q == [] then [] else Carried(q[0]) + InFlight(q[1..])
  }

  lemma {:induction false} InFlightIsFlight(th: Thread, q: seq<Task>)
    ensures InFlight(q) == ViewOf(th, q).flight
  {
    if q != [] {
      InFlightIsFlight(th, q[1..]);
    }
  }

  // A task about the connection, other than the app's own closing and the notice of it.
  predicate Touches(t: Task) {
    IsToken(t) || IsEvent(t) || t.HandleInMsgs?
  }

  lemma {:induction false} NothingTouches(th: Thread, q: seq<Task>)
    requires var v := ViewOf(th, q);
             v.tokens == [] && v.events == [] && if th == ExternalThread then v.placed else !v.links
    ensures forall i | 0 <= i < |q| :: !Touches(q[i])
  {
    if q != [] {
      NothingTouches(th, q[1..]);
      assert forall i | 1 <= i < |q| :: q[i] == q[1..][i - 1];
    }
  }

  lemma {:induction false} RunAllLast(s: State, labels: seq<Label>, l: Label)
    ensures RunAll(s, labels + [l]) == Next(RunAll(s, labels), l)
    decreases |labels|
  {
    if labels == [] {
      assert [] + [l] == [l] && [l][1..] == [];
    } else {
      assert (labels + [l])[0] == labels[0] && (labels + [l])[1..] == labels[1..] + [l];
      RunAllLast(Next(s, labels[0]), labels[1..], l);
    }
  }

  // ---------- Safety ----------

  // At most one task of a migration waits over all three queues.
  lemma OneMigrationTask(ownLoop: bool, labels: seq<Label>, th: Thread, i: nat, t: Task, th': Thread, j: nat, t': Task)
    requires Waits(Reached(ownLoop, labels), th, i, t) && Waits(Reached(ownLoop, labels), th', j, t')
    ensures th == th' && i == j && t == t'
  {
    ReachedKeepsInv(ownLoop, labels);
    TokenWaits(Reached(ownLoop, labels), th, i, t);
  }

  // What the implementation protocol believes is never ahead of the connection.
  lemma MirrorFollows(ownLoop: bool, labels: seq<Label>)
    ensures var c := Reached(ownLoop, labels).core;
            && (c.mirror == DONE ==> c.migration == DONE)
            && (c.mirror == INIT ==> c.migration == INIT)
  {
    ReachedKeepsInv(ownLoop, labels);
  }

  // What the log says about the connection, in every reachable state.
  lemma LogDecides(s: State)
    requires Inv(s) && LogInv(s)
    ensures var c := s.core;
            && StageOf(c.log) != Broken
            && (StageOf(c.log) == Declared <==> c.migration == DONE && c.attach == APP)
            && (StageOf(c.log) == Taken || StageOf(c.log) == Tripped <==> c.attach != APP)
            && (c.attach != APP ==> c.migration == DONE)
            && (StageOf(c.log) == Tripped ==> c.fault)
            && (StageOf(c.log) == Frozen ==> c.mirror == FIRST_MSG)
  {
  }

  predicate IsUnknownGraph(e: Entry) {
    e.verdict == GraphNotFound && e.msg.Cmd? && e.msg.route.EngineNotFound?
  }

  // From position i on, every message goes to the remote, or is dropped because the protocol
  // is closing, or trips an assertion.
  predicate ServedFrom(log: seq<Entry>, i: nat, tripped: bool) {
    forall j | i <= j < |log| ::
      log[j].verdict == GivenToRemote || log[j].verdict == DroppedClosing || (tripped && log[j].verdict == DroppedNoRemote)
  }

  // The k first messages of a log did not find their graph; the next one, if there is one,
  // decides about all the others.
  ghost predicate Shape(log: seq<Entry>, k: nat, stage: Stage) {
    && k <= |log| && (forall i | 0 <= i < k :: IsUnknownGraph(log[i]))
    && match stage
       case Fresh => k == |log|
       case Taken => k < |log| && StageFrom(log[k]) == Taken && ServedFrom(log, k + 1, false)
       case Tripped => k + 1 < |log| && StageFrom(log[k]) == Taken && ServedFrom(log, k + 1, true)
       case Declared => k < |log| && StageFrom(log[k]) == Declared && forall j | k < j < |log| :: log[j].verdict == DroppedClosing
       case Frozen => |log| == k + 1 && StageFrom(log[k]) == Frozen
       case Broken => false
  }

  lemma {:induction false} LogHasShape(log: seq<Entry>) returns (k: nat)
    requires StageOf(log) != Broken
    ensures Shape(log, k, StageOf(log))
    decreases |log|
  {
    if log == [] {
      k := 0;
    } else {
      var front, last := log[..|log| - 1], log[|log| - 1];
      assert front + [last] == log;
      StageGrows(front, last);
      k := LogHasShape(front);
      if StageOf(front) == Fresh && IsUnknownGraph(last) {
        k := k + 1;
      }
    }
  }

  // What becomes of every message, in the order in which they were sent: commands for unknown
  // graphs are answered one by one; the first other message is taken by the engine, or closes
  // the app, or freezes the connection, and settles what happens to the rest.
  lemma WhatBecomesOfMessages(ownLoop: bool, labels: seq<Label>) returns (k: nat)
    ensures var c := Reached(ownLoop, labels).core;
            && Shape(c.log, k, StageOf(c.log))
            && (StageOf(c.log) == Fresh ==> c.attach == APP && c.migration != DONE)
            && (StageOf(c.log) == Taken ==> c.attach != APP && c.migration == DONE)
            && (StageOf(c.log) == Tripped ==> c.attach != APP && c.migration == DONE && c.fault)
            && (StageOf(c.log) == Declared ==> c.attach == APP && c.migration == DONE)
            && (StageOf(c.log) == Frozen ==> c.attach == APP && c.migration != DONE && c.mirror == FIRST_MSG)
  {
    ReachedKeepsInv(ownLoop, labels);
    LogDecides(Reached(ownLoop, labels));
    k := LogHasShape(Reached(ownLoop, labels).core.log);
  }

  // What the documentation promises: DONE exactly when an engine or a remote has the connection.
  predicate MigratedMeansAttached(c: Core) {
    c.migration == DONE <==> c.attach != APP
  }

  // The app is about to handle close_app as the first message of the connection.
  predicate ClosesAppFirst(s: State, l: Label) {
    && l == Run(AppThread) && s.appQ != [] && s.appQ[0].OnInput?
    && s.appQ[0].msg.Cmd? && s.appQ[0].msg.route.CloseApp? && !s.core.protocolClosing
  }

  // DONE at the app, which close_app leaves behind.
  predicate DoneAtApp(c: Core) {
    c.migration == DONE && c.attach == APP
  }

  lemma InputDone(c: Core, msg: Msg)
    requires c.owner == AppThread && c.attach == APP && c.migration == INIT && c.orphan && StageOf(c.log) == Fresh
    ensures DoneAtApp(RunTask(c, AppThread, OnInput(msg)).core)
            <==> msg.Cmd? && msg.route.CloseApp? && !c.protocolClosing
  {
    var e := Effect(c, []);
    assert RunTask(c, AppThread, OnInput(msg)) == HandleInput(e, msg);
    if !c.protocolClosing {
      var e1 := Effect(c.(migration := FIRST_MSG), []);
      assert HandleInput(e, msg) == OnMsg(e1, msg);
      if msg.Cmd? {
        assert OnMsg(e1, msg) == AppHandleInMsg(e1, msg);
        CommandDone(e1, msg);
      }
    }
  }

  lemma CommandDone(e: Effect, msg: Msg)
    requires e.core.attach == APP && e.core.migration == FIRST_MSG && e.core.orphan && msg.Cmd?
    requires StageOf(e.core.log) == Fresh
    ensures DoneAtApp(AppHandleInMsg(e, msg).core) <==> msg.route.CloseApp?
  {
    if msg.route.ToEngine? {
      EngineDone(e, msg);
    } else if msg.route.EngineNotFound? || msg.route.CloseApp? {
      AnsweredDone(e, msg);
    } else {
      SilentDone(e, msg);
    }
  }

  lemma EngineDone(e: Effect, msg: Msg)
    requires e.core.attach == APP && e.core.migration == FIRST_MSG && e.core.orphan && IsMigratable(msg)
    requires StageOf(e.core.log) == Fresh
    ensures !DoneAtApp(AppHandleInMsg(e, msg).core)
  {
    EngineStage(e, msg);
  }

  lemma AnsweredDone(e: Effect, msg: Msg)
    requires e.core.attach == APP && e.core.migration == FIRST_MSG && msg.Cmd?
    requires msg.route.EngineNotFound? || msg.route.CloseApp?
    requires StageOf(e.core.log) == Fresh
    ensures DoneAtApp(AppHandleInMsg(e, msg).core) <==> msg.route.CloseApp?
  {
    AnsweredStage(e, msg);
  }

  lemma SilentDone(e: Effect, msg: Msg)
    requires e.core.attach == APP && e.core.migration == FIRST_MSG && msg.Cmd?
    requires msg.route.ToApp? || msg.route.StopGraph? || msg.route.StartGraphRejected?
    requires StageOf(e.core.log) == Fresh
    ensures !DoneAtApp(AppHandleInMsg(e, msg).core)
  {
    SilentStage(e, msg);
  }

  lemma TaskDone(y: Sight, th: Thread, t: Task)
    requires var x := Before(y, th, t); Control(x) && Agrees(x, StageOf(x.core.log))
    requires AllCoherent(y)
    ensures DoneAtApp(RunTask(y.core, th, t).core)
            <==> DoneAtApp(y.core)
                 || (t.OnInput? && t.msg.Cmd? && t.msg.route.CloseApp? && !y.core.protocolClosing)
  {
    if t.OnInput? {
      HeadToken(y, th, t);
      InputDone(y.core, t.msg);
    } else if t.OnInputs? {
      InputsReachRemote(y, th, t.msgs);
      BatchStage(y.core, th, t.msgs);
    } else if t.OnCleaned? {
      HeadToken(y, th, t);
      OnCleanedStage(y.core, th, t.cmd);
    } else {
      TaskStands(y, th, t);
      AfterCore(y, RunTask(y.core, th, t));
    }
  }

  lemma OnCleanedStage(c: Core, th: Thread, cmd: Msg)
    ensures RunTask(c, th, OnCleaned(cmd)).core.attach == ENGINE
  {
    assert RunTask(c, th, OnCleaned(cmd)) == UpgradeToDone(AppendToEngine(Effect(c.(owner := th), []), cmd), true);
  }

  lemma RunDone(s: State, th: Thread)
    requires Inv(s) && LogInv(s) && Queue(s, th) != []
    ensures DoneAtApp(Next(s, Run(th)).core) <==> DoneAtApp(s.core) || ClosesAppFirst(s, Run(th))
  {
    var t := Queue(s, th)[0];
    RunningSees(s, th);
    NextCore(s, Run(th));
    TaskDone(See(Popped(s, Run(th))), th, t);
    if t.OnInput? {
      TokenWaits(s, th, 0, t);
    }
  }

  lemma StepDone(s: State, l: Label)
    requires Inv(s) && LogInv(s)
    ensures DoneAtApp(Next(s, l).core) <==> DoneAtApp(s.core) || ClosesAppFirst(s, l)
  {
    if Enabled(s, l) {
      if l.Run? {
        RunDone(s, l.thread);
      } else {
        OutsideStands(s, l);
        assert See(Next(s, l)).core == Next(s, l).core;
      }
    }
  }

  // A step keeps the promise unless it handles close_app as the first message, which always
  // breaks it; and no step mends it.
  lemma MigratedIsAttached(ownLoop: bool, labels: seq<Label>, l: Label)
    ensures var s := Reached(ownLoop, labels);
            MigratedMeansAttached(Next(s, l).core) <==> MigratedMeansAttached(s.core) && !ClosesAppFirst(s, l)
  {
    var s := Reached(ownLoop, labels);
    ReachedKeepsInv(ownLoop, labels);
    StepDone(s, l);
    StepKeepsInv(s, l);
    StepKeepsLog(s, l);
    LogDecides(s);
    LogDecides(Next(s, l));
  }

  // After a whole run the promise holds exactly if no step of the run was of that kind.
  lemma {:induction false} MigratedIsAttachedIff(ownLoop: bool, labels: seq<Label>)
    ensures MigratedMeansAttached(Reached(ownLoop, labels).core)
            <==> forall k | 0 <= k < |labels| :: !ClosesAppAt(ownLoop, labels, k)
    decreases |labels|
  {
    if labels != [] {
      var front := labels[..|labels| - 1];
      LastStep(ownLoop, labels);
      MigratedIsAttachedIff(ownLoop, front);
      forall k | 0 <= k < |front|
        ensures ClosesAppAt(ownLoop, labels, k) == ClosesAppAt(ownLoop, front, k)
      {
        EarlierStep(ownLoop, labels, k);
      }
    }
  }

  lemma LastStep(ownLoop: bool, labels: seq<Label>)
    requires labels != []
    ensures var last := |labels| - 1;
            MigratedMeansAttached(Reached(ownLoop, labels).core)
            <==> MigratedMeansAttached(Reached(ownLoop, labels[..last]).core) && !ClosesAppAt(ownLoop, labels, last)
  {
    var front, l := labels[..|labels| - 1], labels[|labels| - 1];
    RunAllLast(Init(ownLoop), front, l);
    assert front + [l] == labels;
    MigratedIsAttached(ownLoop, front, l);
  }

  lemma EarlierStep(ownLoop: bool, labels: seq<Label>, k: nat)
    requires k < |labels| - 1
    ensures ClosesAppAt(ownLoop, labels, k) == ClosesAppAt(ownLoop, labels[..|labels| - 1], k)
  {
    assert labels[..k] == labels[..|labels| - 1][..k];
  }

  // Step k of the run handles close_app as the first command.
  predicate ClosesAppAt(ownLoop: bool, labels: seq<Label>, k: nat)
    requires k < |labels|
  {
    ClosesAppFirst(Reached(ownLoop, labels[..k]), labels[k])
  }

  // The shortest such run.
  lemma MigratedAtTheApp(ownLoop: bool)
    ensures var c := Reached(ownLoop, [Arrive(Cmd(1, CloseApp)), Feed, Run(AppThread)]).core;
            c.migration == DONE && c.attach == APP
  {
    var msg := Cmd(1, CloseApp);
    FirstCommandWaits(ownLoop, msg);
    assert [Arrive(msg), Feed] + [Run(AppThread)] == [Arrive(msg), Feed, Run(AppThread)];
    RunAllLast(Init(ownLoop), [Arrive(msg), Feed], Run(AppThread));
    var s := Reached(ownLoop, [Arrive(msg), Feed]);
    NextCore(s, Run(AppThread));
    FirstCloseAppIs(s.core, msg);
  }

  lemma FirstCommandWaits(ownLoop: bool, msg: Msg)
    ensures var s := Reached(ownLoop, [Arrive(msg), Feed]);
            s.appQ == [OnInput(msg)] && Unused(s.core)
  {
    var s0 := Init(ownLoop);
    var s := Next(s0, Arrive(msg));
    assert [Arrive(msg)] + [Feed] == [Arrive(msg), Feed] && [] + [Arrive(msg)] == [Arrive(msg)];
    RunAllLast(s0, [Arrive(msg)], Feed);
    RunAllLast(s0, [], Arrive(msg));
    assert s == s0.(core := s0.core.(arrived := [msg], pending := [msg]));
    FeedFirstIs(s);
    NextIs(s, Feed);
    assert [] + [Posting(AppThread, OnInput(msg))] == [Posting(AppThread, OnInput(msg))];
    assert [Posting(AppThread, OnInput(msg))][1..] == [];
  }

  lemma {:induction false} DeliveringKeepsCore(s: State, posts: seq<Posting>)
    ensures Deliver(s, posts).core == s.core
    decreases |posts|
  {
    if posts != [] {
      var p := posts[0];
      DeliveringKeepsCore(WithQueue(s, p.thread, Queue(s, p.thread) + [p.task]), posts[1..]);
    }
  }

  // The attached loop is that of the thread which owns the connection, at any time: what is
  // posted to it while nothing is under way is posted to the owner.
  lemma AttachedLoopIsOwner(ownLoop: bool, labels: seq<Label>)
    ensures var c := Reached(ownLoop, labels).core;
            AttachedLoop(c) == c.owner && c.owner != ExternalThread
  {
    ReachedKeepsInv(ownLoop, labels);
  }

  // What the implementation protocol posts to the attached loop runs on the thread that owns
  // the connection by then, so the check of the belonging thread never fails.
  lemma EventsRunAtOwner(ownLoop: bool, labels: seq<Label>, th: Thread)
    requires var q := Queue(Reached(ownLoop, labels), th); q != [] && IsEvent(q[0])
    ensures Reached(ownLoop, labels).core.owner == th
  {
    var s := Reached(ownLoop, labels);
    ReachedKeepsInv(ownLoop, labels);
    assert ViewOf(th, Queue(s, th)).events != [];
  }

  // Messages are neither lost nor duplicated nor reordered on their way.
  lemma MessagesAreConserved(ownLoop: bool, labels: seq<Label>)
    ensures var s := Reached(ownLoop, labels);
            s.core.arrived == Msgs(s.core.log)
                              + (InFlight(s.appQ) + InFlight(s.engineQ) + InFlight(s.externalQ) + s.core.pending)
  {
    var s := Reached(ownLoop, labels);
    ReachedKeepsInv(ownLoop, labels);
    InFlightIsFlight(AppThread, s.appQ);
    InFlightIsFlight(EngineThread, s.engineQ);
    InFlightIsFlight(ExternalThread, s.externalQ);
  }

  // Until the implementation protocol learns that the migration is over, one message at most
  // is under way.
  lemma OneMessageUntilMigrated(ownLoop: bool, labels: seq<Label>)
    ensures var s := Reached(ownLoop, labels);
            var n := |InFlight(s.appQ)| + |InFlight(s.engineQ)| + |InFlight(s.externalQ)|;
            && (s.core.mirror != DONE ==> n <= 1)
            && (s.core.mirror == INIT ==> n == 0)
  {
    var s := Reached(ownLoop, labels);
    ReachedKeepsInv(ownLoop, labels);
    InFlightIsFlight(AppThread, s.appQ);
    InFlightIsFlight(EngineThread, s.engineQ);
    InFlightIsFlight(ExternalThread, s.externalQ);
    SightsAreCoherent(s);
    if s.core.mirror != DONE && TokenOf(See(s)).TokenAt? {
      OneCarrier(s);
    }
  }

  lemma OneCarrier(s: State)
    requires Inv(s) && TokenOf(See(s)).TokenAt?
    ensures |Flight(See(s))| <= 1
  {
    var x := See(s);
    SightsAreCoherent(s);
    assert x.external.events == [];
    assert !x.app.batches && !x.engine.batches && !x.external.batches;
    SightsAreCoherent(s);
    CarriesItsTokens(AppThread, s.appQ);
    CarriesItsTokens(EngineThread, s.engineQ);
    CarriesItsTokens(ExternalThread, s.externalQ);
  }

  lemma {:induction false} CarriesItsTokens(th: Thread, q: seq<Task>)
    requires !ViewOf(th, q).batches
    ensures |ViewOf(th, q).flight| <= |ViewOf(th, q).tokens|
  {
    if q != [] {
      CarriesItsTokens(th, q[1..]);
    }
  }

  // A step may set the migration state only by running a first message on the app thread or
  // the end of a migration on the engine thread, and never are both possible.
  lemma MigrationStateHasOneWriter(ownLoop: bool, labels: seq<Label>, l: Label)
    ensures var s := Reached(ownLoop, labels);
            && (Next(s, l).core.migration != s.core.migration ==> l.Run? && Writes(s, l.thread))
            && !(Writes(s, AppThread) && Writes(s, EngineThread)) && !Writes(s, ExternalThread)
  {
    var s := Reached(ownLoop, labels);
    ReachedKeepsInv(ownLoop, labels);
    if Next(s, l).core.migration != s.core.migration {
      WritesOfStep(s, l);
    }
  }

  // The tasks that write the migration state, where the connection still belongs to the app.
  predicate Writes(s: State, th: Thread) {
    && Queue(s, th) != [] && s.core.owner == AppThread
    && ((th == AppThread && s.appQ[0].OnInput?) || (th == EngineThread && s.engineQ[0].OnCleaned?))
  }

  lemma WritesOfStep(s: State, l: Label)
    requires Inv(s) && Next(s, l).core.migration != s.core.migration
    ensures l.Run? && Writes(s, l.thread)
  {
    NextCore(s, l);
    if l.Run? {
      var th := l.thread;
      var t := Queue(s, th)[0];
      if t.OnInput? || t.OnCleaned? {
        TokenWaits(s, th, 0, t);
      } else {
        QuietStep(s, th);
      }
    } else {
      OutsideNoWrite(s, l);
    }
  }

  lemma OutsideNoWrite(s: State, l: Label)
    requires Enabled(s, l) && !l.Run?
    ensures EffectOf(s, l).core.migration == s.core.migration
  {
    match l
    case Arrive(_) =>
    case Feed => if s.core.mirror == INIT { }
    case HangUp =>
    case FinishClose =>
    case AskAppClose =>
  }

  lemma QuietStep(s: State, th: Thread)
    requires Inv(s) && Queue(s, th) != [] && !Queue(s, th)[0].OnInput? && !Queue(s, th)[0].OnCleaned?
    ensures RunTask(s.core, th, Queue(s, th)[0]).core.migration == s.core.migration
  {
    var t := Queue(s, th)[0];
    if t.OnInputs? {
      SeeBeforeInputs(s, th);
      InputsNoWrite(s.core, th, t.msgs);
    } else {
      NoWrite(s.core, th, t);
    }
  }

  lemma NextCore(s: State, l: Label)
    ensures Next(s, l).core == if Enabled(s, l) then EffectOf(s, l).core else s.core
  {
    if Enabled(s, l) {
      var e := EffectOf(s, l);
      DeliveringKeepsCore(Popped(s, l).(core := e.core), e.posts);
    }
  }

  lemma SeeBeforeInputs(s: State, th: Thread)
    requires Inv(s) && Queue(s, th) != [] && Queue(s, th)[0].OnInputs?
    ensures var c := s.core;
            && c.owner == th && c.migration == DONE && c.mirror == DONE
            && (c.protocolClosing || c.attach == REMOTE || (c.attach == ENGINE && c.duplicate))
  {
    SeeRunning(s, th);
    InputsReachRemote(See(Popped(s, Run(th))), th, Queue(s, th)[0].msgs);
  }

  lemma InputsNoWrite(c: Core, th: Thread, msgs: seq<Msg>)
    requires c.owner == th && c.migration == DONE && (c.protocolClosing || c.attach != APP)
    ensures RunTask(c, th, OnInputs(msgs)).core.migration == c.migration
  {
    if c.protocolClosing {
      DropAllEffect(Effect(c, []), msgs);
    } else {
      OnMsgsEffect(Effect(c, []), msgs);
    }
  }

  lemma NoWrite(c: Core, th: Thread, t: Task)
    requires !t.OnInput? && !t.OnCleaned? && !t.OnInputs?
    ensures RunTask(c, th, t).core.migration == c.migration
  {
    if t.HandleInMsgs? {
      LinkNoWrite(c, th, t.duplicate);
    } else if t.CloseProtocol? || t.AppClose? {
      CloseNoWrite(c, th, t);
    } else if t.ProtocolClosed? {
      RunsClosed(c, th);
    } else if t.Clean? {
      CleanNoWrite(c, th, t.cmd);
    } else {
      OwnNoWrite(c, th, t);
    }
  }

  lemma LinkNoWrite(c: Core, th: Thread, duplicate: bool)
    ensures RunTask(c, th, HandleInMsgs(duplicate)).core.migration == c.migration
  {
    RunsLink(c, th, duplicate);
  }

  lemma CloseNoWrite(c: Core, th: Thread, t: Task)
    requires t.CloseProtocol? || t.AppClose?
    ensures RunTask(c, th, t).core.migration == c.migration
  {
    if t.AppClose? && !c.orphan {
      RunsAppClose(c, th);
    } else {
      RunsClose(c, th, t);
      CheckedKeepsMigration(c, th);
    }
  }

  lemma CheckedKeepsMigration(c: Core, th: Thread)
    ensures Checked(c, th).migration == c.migration
    ensures forall b :: Checked(c, th).(protocolClosing := b).migration == c.migration
  {
  }

  lemma OwnNoWrite(c: Core, th: Thread, t: Task)
    requires t.ImplMigrate? || t.OnMigrated? || t.ImplClean? || t.NotifyCleaned? || t.ImplOnCleaned? || t.ImplClose?
             || t.HandleStopGraph?
    ensures RunTask(c, th, t).core.migration == c.migration
  {
  }

  lemma CleanNoWrite(c: Core, th: Thread, cmd: Msg)
    ensures RunTask(c, th, Clean(cmd)).core.migration == c.migration
  {
    var checked := Assert(Assert(Effect(c, []), c.owner == th), c.attach == APP);
    assert RunTask(c, th, Clean(cmd)) == Post(DelOrphan(checked), ExternalThread, ImplClean(cmd));
    assert DelOrphan(checked).core.migration == c.migration;
  }

  // ---------- Closing ----------

  // The app closes the connections of its orphan list only, and those are its own.
  lemma OrphansBelongToTheApp(ownLoop: bool, labels: seq<Label>)
    ensures var c := Reached(ownLoop, labels).core;
            && (c.orphan ==> c.owner == AppThread && c.attach == APP && !c.destroyed)
            && (c.attach != APP ==> !c.orphan)
  {
    ReachedKeepsInv(ownLoop, labels);
    OrphansAreAtTheApp(See(Reached(ownLoop, labels)));
  }

  lemma OrphansAreAtTheApp(x: Sight)
    requires Control(x)
    ensures x.core.orphan ==> x.core.owner == AppThread && x.core.attach == APP && !x.core.destroyed
  {
  }

  lemma {:induction false} ClosesIsMembership(th: Thread, q: seq<Task>)
    ensures ViewOf(th, q).closes <==> AppClose in q
  {
    if q != [] {
      ClosesIsMembership(th, q[1..]);
      assert q == [q[0]] + q[1..];
    }
  }

  // A closing app forgets no connection of its own: it has told the protocol to close, or the
  // task that will do so waits.
  lemma ClosingAppReachesOrphans(ownLoop: bool, labels: seq<Label>)
    ensures var s := Reached(ownLoop, labels);
            s.core.appClosing && s.core.orphan ==> s.core.protocolClosing || AppClose in s.appQ
  {
    ReachedKeepsInv(ownLoop, labels);
    ClosesIsMembership(AppThread, Reached(ownLoop, labels).appQ);
  }

  // A connection is destroyed by its owner, with a callback set, after the implementation
  // protocol has closed; no task about it waits then, and none ever comes.
  lemma DestroyedIsTheEnd(ownLoop: bool, labels: seq<Label>)
    ensures var s := Reached(ownLoop, labels);
            s.core.destroyed ==>
              && s.core.gone && s.core.protocolClosing
              && forall th, i | 0 <= i < |Queue(s, th)| :: !Touches(Queue(s, th)[i])
  {
    var s := Reached(ownLoop, labels);
    ReachedKeepsInv(ownLoop, labels);
    if s.core.destroyed {
      NothingTouches(AppThread, s.appQ);
      NothingTouches(EngineThread, s.engineQ);
      NothingTouches(ExternalThread, s.externalQ);
    }
  }

  // ---------- Stalling ----------

  // The implementation protocol waits for a notification, and nothing under way brings it.
  ghost predicate Stuck(s: State) {
    s.core.mirror == FIRST_MSG && forall th, i, t :: !Waits(s, th, i, t)
  }

  lemma NoTokenWaits(s: State)
    requires Inv(s)
    ensures TokenOf(See(s)) == NoToken <==> forall th, i, t :: !Waits(s, th, i, t)
  {
    if TokenOf(See(s)).TokenAt? {
      var th := TokenOf(See(s)).thread;
      var i := FirstToken(th, Queue(s, th));
      assert Waits(s, th, i, Queue(s, th)[i]);
    } else if th, i, t :| Waits(s, th, i, t) {
      TokenWaits(s, th, i, t);
    }
  }

  // Which first messages are followed by a notification.
  lemma FirstMessageOutcome(ownLoop: bool, labels: seq<Label>)
    requires var q := Reached(ownLoop, labels).appQ; q != [] && q[0].OnInput?
    ensures var s := Reached(ownLoop, labels);
            Stuck(Next(s, Run(AppThread))) <==> !WakesUp(s.core, s.appQ[0].msg)
  {
    var s := Reached(ownLoop, labels);
    ReachedKeepsInv(ownLoop, labels);
    RunsFirst(s);
  }

  lemma RunsFirst(s: State)
    requires Inv(s) && s.appQ != [] && s.appQ[0].OnInput?
    ensures Stuck(Next(s, Run(AppThread))) <==> !WakesUp(s.core, s.appQ[0].msg)
  {
    RunningSees(s, AppThread);
    InputKeeps(See(Popped(s, Run(AppThread))), AppThread, s.appQ[0].msg);
    RunningKeepsInv(s, AppThread);
    NoTokenWaits(Next(s, Run(AppThread)));
  }

  // A stuck connection stays so: no further message is handed over, and it cannot be closed.
  lemma StuckStep(s: State, l: Label)
    requires Inv(s) && Stuck(s)
    ensures Inv(Next(s, l)) && Stuck(Next(s, l))
    ensures Next(s, l).core.log == s.core.log && !Next(s, l).core.destroyed
  {
    StepKeepsInv(s, l);
    NoTokenWaits(s);
    NoTokenWaits(Next(s, l));
    if Enabled(s, l) {
      if l.Run? {
        StuckRuns(s, l.thread);
      } else {
        StuckOutside(s, l);
      }
    }
    StuckIsAlive(Next(s, l));
  }

  lemma StuckIsAlive(s: State)
    requires Inv(s) && s.core.mirror == FIRST_MSG && TokenOf(See(s)) == NoToken
    ensures !s.core.destroyed
  {
  }

  lemma StuckOutside(s: State, l: Label)
    requires Inv(s) && TokenOf(See(s)) == NoToken && s.core.mirror == FIRST_MSG && Enabled(s, l) && !l.Run?
    ensures var s' := Next(s, l);
            TokenOf(See(s')) == NoToken && s'.core.mirror == FIRST_MSG && s'.core.log == s.core.log
  {
    SeeNext(s, l);
    NextCore(s, l);
    if l.Arrive? {
      AfterNone(See(s), EffectOf(s, l).core);
    } else {
      StuckAsked(See(s));
      OutsideIs(s, l);
    }
  }

  lemma StuckAsked(x: Sight)
    ensures var z := After(x, Post(Effect(x.core.(appClosing := true), []), AppThread, AppClose));
            TokenOf(z) == TokenOf(x)
  {
    AfterOne(x, x.core.(appClosing := true), AppThread, AppClose);
    OtherTasksDoNotCount(AppThread, x.app, AppClose);
  }

  lemma StuckRuns(s: State, th: Thread)
    requires Inv(s) && TokenOf(See(s)) == NoToken && s.core.mirror == FIRST_MSG && Queue(s, th) != []
    ensures var s' := Next(s, Run(th));
            TokenOf(See(s')) == NoToken && s'.core.mirror == FIRST_MSG && s'.core.log == s.core.log
  {
    RunningSees(s, th);
    StuckTask(See(Popped(s, Run(th))), th, Queue(s, th)[0]);
    assert See(Next(s, Run(th))).core == Next(s, Run(th)).core;
  }

  lemma StuckTask(y: Sight, th: Thread, t: Task)
    requires var x := Before(y, th, t); Control(x) && TokenOf(x) == NoToken
    requires AllCoherent(y) && y.core.mirror == FIRST_MSG
    ensures var z := After(y, RunTask(y.core, th, t));
            TokenOf(z) == NoToken && z.core.mirror == FIRST_MSG && z.core.log == y.core.log
  {
    OnlyClosingWaits(y, th, t);
    TokenStays(y, th, t);
    match t
    case ImplClose =>
      RunsImplClose(y.core, th);
      AfterNone(y, y.core.(closeAsked := true));
    case HandleStopGraph => StopGraphTaskKeeps(y, th);
    case AppClose => StuckClosing(y);
  }

  lemma StuckClosing(y: Sight)
    requires y.core.orphan && y.core.owner == AppThread
    ensures var z := After(y, RunTask(y.core, AppThread, AppClose));
            TokenOf(z) == TokenOf(y) && z.core.mirror == y.core.mirror && z.core.log == y.core.log
  {
    CloseEffect(y, AppThread, AppClose);
    OtherTasksDoNotCount(ExternalThread, y.external, ImplClose);
    if y.core.protocolClosing {
    }
  }

  lemma OnlyClosingWaits(y: Sight, th: Thread, t: Task)
    requires var x := Before(y, th, t); Control(x) && TokenOf(x) == NoToken
    requires y.core.mirror == FIRST_MSG
    ensures t.ImplClose? || t.HandleStopGraph? || (t.AppClose? && th == AppThread)
    ensures y.core.orphan && y.core.owner == AppThread
  {
    var x := Before(y, th, t);
    assert Stalled(x) && NoEvents(x);
    assert At(x, th).tokens == [] && At(x, th).events == [] && At(x, th).placed;
  }

  lemma {:induction false} StuckForever(s: State, labels: seq<Label>)
    requires Inv(s) && Stuck(s)
    ensures var s' := RunAll(s, labels);
            Stuck(s') && s'.core.log == s.core.log && !s'.core.destroyed
    decreases |labels|
  {
    if labels != [] {
      StuckStep(s, labels[0]);
      StuckForever(Next(s, labels[0]), labels[1..]);
    } else {
      NoTokenWaits(s);
    }
  }

  // A first message that is a message of another kind, or a command for the app itself, or
  // one that comes too late, freezes the connection in every continuation.
  lemma SilentFirstMessageFreezes(ownLoop: bool, labels: seq<Label>, more: seq<Label>)
    requires var s := Reached(ownLoop, labels); s.appQ != [] && s.appQ[0].OnInput? && !WakesUp(s.core, s.appQ[0].msg)
    ensures var s' := Next(Reached(ownLoop, labels), Run(AppThread));
            var s'' := RunAll(s', more);
            s''.core.mirror == FIRST_MSG && s''.core.log == s'.core.log && !s''.core.destroyed
  {
    var s := Reached(ownLoop, labels);
    ReachedKeepsInv(ownLoop, labels);
    RunsFirst(s);
    StepKeepsInv(s, Run(AppThread));
    StuckForever(Next(s, Run(AppThread)), more);
  }
}
