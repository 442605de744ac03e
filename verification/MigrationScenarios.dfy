/**
  Complete runs, for an engine with a loop of its own and for one that shares the app's, and
  what the first command for an engine decides about all runs.
 */
module MigrationScenarios {
  import opened Migration
  import opened MigrationTasks
  import opened MigrationViews
  import opened MigrationSafety
  import opened MigrationRuns
  import opened MigrationLog
  import opened MigrationLaws
  import opened MigrationHistory
  import opened MigrationFaults
  import opened MigrationCauses
  import opened MigrationTrips

  // ---------- The configuration ----------

  // Whether the engine has a loop of its own is decided once and for all.
  lemma {:induction false} ConfigurationStays(ownLoop: bool, labels: seq<Label>)
    ensures Reached(ownLoop, labels).core.ownLoop == ownLoop
    decreases |labels|
  {
    if labels != [] {
      var front, l := labels[..|labels| - 1], labels[|labels| - 1];
      assert front + [l] == labels;
      ConfigurationStays(ownLoop, front);
      RunAllLast(Init(ownLoop), front, l);
      ReachedKeepsInv(ownLoop, front);
      StepLater(Reached(ownLoop, front), l);
    }
  }

  // ---------- What the client, the app and the implementation can do ----------

  // Posted at the end of the queue of th, with nothing else changed but the core.
  predicate Posts(s: State, s': State, c: Core, th: Thread, t: Task) {
    s' == WithQueue(s.(core := c), th, Queue(s, th) + [t])
  }

  // The client can send and leave, and the implementation can hand over and close, whenever it
  // does not wait for the app's answer; what they ask for goes to the thread that owns the
  // connection. The app can be closed at any time, once. What is not possible changes nothing.
  lemma WhatOthersDo(ownLoop: bool, labels: seq<Label>, msg: Msg)
    ensures var s := Reached(ownLoop, labels);
            var c, open, waits := s.core, !s.core.hungUp && !s.core.gone, s.core.mirror == FIRST_MSG;
            && Next(s, Arrive(msg)) == (if open then s.(core := c.(arrived := c.arrived + [msg], pending := c.pending + [msg])) else s)
            && (if open && !waits then Posts(s, Next(s, HangUp), c.(hungUp := true), c.owner, CloseProtocol)
                else Next(s, HangUp) == s)
            && (if c.closeAsked && !c.gone && !waits then Posts(s, Next(s, FinishClose), c.(gone := true), c.owner, ProtocolClosed)
                else Next(s, FinishClose) == s)
            && (if !c.appClosing then Posts(s, Next(s, AskAppClose), c.(appClosing := true), AppThread, AppClose)
                else Next(s, AskAppClose) == s)
  {
    var s := Reached(ownLoop, labels);
    AttachedLoopIsOwner(ownLoop, labels);
    LeavingPosts(s);
    ClosingPosts(s);
    AskingPosts(s);
  }

  lemma LeavingPosts(s: State)
    ensures if Enabled(s, HangUp) then Posts(s, Next(s, HangUp), s.core.(hungUp := true), AttachedLoop(s.core), CloseProtocol)
            else Next(s, HangUp) == s
  {
    if Enabled(s, HangUp) {
      PostsOne(s, HangUp, s.core.(hungUp := true), AttachedLoop(s.core), CloseProtocol);
    }
  }

  lemma ClosingPosts(s: State)
    ensures if Enabled(s, FinishClose) then Posts(s, Next(s, FinishClose), s.core.(gone := true), AttachedLoop(s.core), ProtocolClosed)
            else Next(s, FinishClose) == s
  {
    if Enabled(s, FinishClose) {
      PostsOne(s, FinishClose, s.core.(gone := true), AttachedLoop(s.core), ProtocolClosed);
    }
  }

  lemma AskingPosts(s: State)
    ensures if Enabled(s, AskAppClose) then Posts(s, Next(s, AskAppClose), s.core.(appClosing := true), AppThread, AppClose)
            else Next(s, AskAppClose) == s
  {
    if Enabled(s, AskAppClose) {
      PostsOne(s, AskAppClose, s.core.(appClosing := true), AppThread, AppClose);
    }
  }

  // The first message is handed over alone, and after the migration everything held back is.
  lemma WhatIsHandedOver(ownLoop: bool, labels: seq<Label>)
    ensures var s := Reached(ownLoop, labels);
            var c := s.core;
            if c.pending == [] || c.hungUp || c.gone || c.mirror == FIRST_MSG then Next(s, Feed) == s
            else if c.mirror == INIT then
              Posts(s, Next(s, Feed), c.(mirror := FIRST_MSG, pending := c.pending[1..]), c.owner, OnInput(c.pending[0]))
            else
              Posts(s, Next(s, Feed), c.(pending := []), c.owner, OnInputs(c.pending))
  {
    var s := Reached(ownLoop, labels);
    var c := s.core;
    AttachedLoopIsOwner(ownLoop, labels);
    if Enabled(s, Feed) {
      if c.mirror == INIT {
        FeedFirstIs(s);
        PostsOne(s, Feed, c.(mirror := FIRST_MSG, pending := c.pending[1..]), c.owner, OnInput(c.pending[0]));
      } else {
        FeedAllIs(s);
        PostsOne(s, Feed, c.(pending := []), c.owner, OnInputs(c.pending));
      }
    }
  }

  lemma PostsOne(s: State, l: Label, c: Core, th: Thread, t: Task)
    requires Enabled(s, l) && !l.Run? && EffectOf(s, l) == Post(Effect(c, []), th, t)
    ensures Posts(s, Next(s, l), c, th, t)
  {
    NextIs(s, l);
    assert [] + [Posting(th, t)] == [Posting(th, t)];
    Delivered(s.(core := c), [Posting(th, t)]);
  }

  // ---------- Single steps ----------

  lemma HeadRuns(s: State, th: Thread, c: Core, posts: seq<Posting>)
    requires Queue(s, th) != [] && RunTask(s.core, th, Queue(s, th)[0]) == Effect(c, posts)
    ensures Next(s, Run(th)) == Deliver(WithQueue(s, th, Queue(s, th)[1..]).(core := c), posts)
  {
    NextIs(s, Run(th));
  }

  // A task that posts one task.
  lemma HeadPosts(s: State, th: Thread, c: Core, th': Thread, t: Task)
    requires Queue(s, th) != [] && RunTask(s.core, th, Queue(s, th)[0]) == Effect(c, [Posting(th', t)])
    ensures var s1 := WithQueue(s, th, Queue(s, th)[1..]).(core := c);
            Next(s, Run(th)) == WithQueue(s1, th', Queue(s1, th') + [t])
  {
    HeadRuns(s, th, c, [Posting(th', t)]);
    Delivered(WithQueue(s, th, Queue(s, th)[1..]).(core := c), [Posting(th', t)]);
  }

  lemma Single(t: Task)
    ensures [t][1..] == [] && [] + [t] == [t]
  {
  }

  // ---------- The migration to an engine with its own loop ----------

  // The connection once the engine has taken it over.
  function Migrated(c: Core, cmd: Msg): Core {
    c.(migration := DONE, attach := ENGINE, owner := EngineLoop(c), orphan := false, onClosed := ByEngine,
       log := c.log + [Entry(cmd, QueuedInEngine)])
  }

  lemma FirstThreeHops(c: Core, cmd: Msg, duplicate: bool)
    requires Unused(c) && c.ownLoop && GoesToEngine(cmd, duplicate)
    ensures RunAll(State(c, [OnInput(cmd)], [], []), [Run(AppThread), Run(ExternalThread), Run(EngineThread)])
         == State(c.(migration := FIRST_MSG), [Clean(cmd)], [], [])
  {
    var d := c.(migration := FIRST_MSG);
    var s0 := State(c, [OnInput(cmd)], [], []);
    var s1, s2, s3 := State(d, [], [], [ImplMigrate(cmd)]), State(d, [], [OnMigrated(cmd)], []), State(d, [Clean(cmd)], [], []);
    FirstMigrationIs(c, cmd);
    HopRuns(s0, AppThread, d, ExternalThread, ImplMigrate(cmd), s1);
    RunsHop(d, ExternalThread, cmd);
    HopRuns(s1, ExternalThread, d, EngineThread, OnMigrated(cmd), s2);
    RunsHop(d, EngineThread, cmd);
    HopRuns(s2, EngineThread, d, AppThread, Clean(cmd), s3);
    RunsThree(s0, Run(AppThread), Run(ExternalThread), Run(EngineThread));
  }

  // From the only task that waits to the next one.
  lemma HopRuns(s: State, th: Thread, c: Core, th': Thread, t: Task, s': State)
    requires |Queue(s, th)| == 1 && RunTask(s.core, th, Queue(s, th)[0]).core == c
    requires RunTask(s.core, th, Queue(s, th)[0]).posts == [Posting(th', t)]
    requires s' == WithQueue(WithQueue(s, th, []).(core := c), th', [t]) && (th' == th || Queue(s, th') == [])
    ensures Next(s, Run(th)) == s'
  {
    assert Queue(s, th)[1..] == [];
    Single(t);
    HeadPosts(s, th, c, th', t);
  }

  lemma LastThreeHops(c: Core, cmd: Msg, duplicate: bool)
    requires Unused(c) && c.ownLoop && GoesToEngine(cmd, duplicate)
    ensures RunAll(State(c.(migration := FIRST_MSG), [Clean(cmd)], [], []), [Run(AppThread), Run(ExternalThread), Run(EngineThread)])
         == State(Migrated(c, cmd), [], [HandleInMsgs(duplicate), NotifyCleaned(false)], [])
  {
    var d := c.(migration := FIRST_MSG);
    var f := d.(orphan := false, onClosed := NoCallback);
    var s0, s1, s2 := State(d, [Clean(cmd)], [], []), State(f, [], [], [ImplClean(cmd)]), State(f, [], [OnCleaned(cmd)], []);
    CleanIs(d, AppThread, cmd);
    HopRuns(s0, AppThread, f, ExternalThread, ImplClean(cmd), s1);
    RunsHop(f, ExternalThread, cmd);
    HopRuns(s1, ExternalThread, f, EngineThread, OnCleaned(cmd), s2);
    Single(OnCleaned(cmd));
    LastHop(c, cmd, duplicate);
    RunsThree(s0, Run(AppThread), Run(ExternalThread), Run(EngineThread));
  }

  lemma LastHop(c: Core, cmd: Msg, duplicate: bool)
    requires Unused(c) && c.ownLoop && GoesToEngine(cmd, duplicate)
    ensures var f := c.(migration := FIRST_MSG, orphan := false, onClosed := NoCallback);
            Next(State(f, [], [OnCleaned(cmd)], []), Run(EngineThread))
            == State(Migrated(c, cmd), [], [HandleInMsgs(duplicate), NotifyCleaned(false)], [])
  {
    var f := c.(migration := FIRST_MSG, orphan := false, onClosed := NoCallback);
    TakeOverIs(f, cmd);
    assert RunTask(f, EngineThread, OnCleaned(cmd)).core == Migrated(c, cmd);
    BothPosted(f, Migrated(c, cmd), cmd, duplicate);
  }

  lemma BothPosted(f: Core, c: Core, cmd: Msg, duplicate: bool)
    requires RunTask(f, EngineThread, OnCleaned(cmd))
          == Effect(c, [Posting(EngineThread, HandleInMsgs(duplicate)), Posting(EngineThread, NotifyCleaned(false))])
    ensures Next(State(f, [], [OnCleaned(cmd)], []), Run(EngineThread))
         == State(c, [], [HandleInMsgs(duplicate), NotifyCleaned(false)], [])
  {
    var posts := [Posting(EngineThread, HandleInMsgs(duplicate)), Posting(EngineThread, NotifyCleaned(false))];
    HeadRuns(State(f, [], [OnCleaned(cmd)], []), EngineThread, c, posts);
    Delivered(State(c, [], [], []), posts);
    assert [] + [HandleInMsgs(duplicate)] + [NotifyCleaned(false)] == [HandleInMsgs(duplicate), NotifyCleaned(false)];
    Single(OnCleaned(cmd));
  }

  // The first command, from its arrival to the engine.
  function MigrationLabels(cmd: Msg): seq<Label> {
    [Arrive(cmd), Feed]
    + ([Run(AppThread), Run(ExternalThread), Run(EngineThread)] + [Run(AppThread), Run(ExternalThread), Run(EngineThread)])
  }

  lemma OwnLoopMigration(arrived: seq<Msg>, log: seq<Entry>, cmd: Msg, duplicate: bool)
    requires GoesToEngine(cmd, duplicate)
    ensures RunAll(State(Base(true, arrived, log), [], [], []), MigrationLabels(cmd))
         == State(Migrated(Waiting(true, arrived + [cmd], log), cmd), [], [HandleInMsgs(duplicate), NotifyCleaned(false)], [])
  {
    var s, w := State(Base(true, arrived, log), [], [], []), Waiting(true, arrived + [cmd], log);
    var hops := [Run(AppThread), Run(ExternalThread), Run(EngineThread)];
    RunAllInTwo(s, [Arrive(cmd), Feed], hops + hops);
    RunsTwo(s, Arrive(cmd), Feed);
    Offered(true, arrived, log, cmd);
    RunAllInTwo(State(w, [OnInput(cmd)], [], []), hops, hops);
    FirstThreeHops(w, cmd, duplicate);
    LastThreeHops(w, cmd, duplicate);
  }

  // With a loop of its own the engine becomes the owner, over three threads, whatever commands
  // for unknown graphs came before.
  lemma EngineThreadTakesOver(known: seq<Msg>, cmd: Msg, duplicate: bool)
    requires (forall i | 0 <= i < |known| :: IsUnknown(known[i])) && GoesToEngine(cmd, duplicate)
    ensures var s := Reached(true, AskLabels(known) + MigrationLabels(cmd));
            && s.core.owner == EngineThread && s.core.attach == ENGINE && s.core.migration == DONE && !s.core.orphan
            && s.appQ == [] && s.engineQ == [HandleInMsgs(duplicate), NotifyCleaned(false)] && s.externalQ == []
  {
    AskRun(true, known);
    RunAllInTwo(Init(true), AskLabels(known), MigrationLabels(cmd));
    OwnLoopMigration(known, Asked(known), cmd, duplicate);
  }

  // The shortest such run, step by step.
  lemma EngineThreadTakesOverAtOnce(id: nat, duplicate: bool)
    ensures var cmd := Cmd(id, ToEngine(duplicate));
            var s := Reached(true, [Arrive(cmd), Feed, Run(AppThread), Run(ExternalThread), Run(EngineThread),
                                    Run(AppThread), Run(ExternalThread), Run(EngineThread)]);
            && s.core.owner == EngineThread && s.core.attach == ENGINE && s.core.migration == DONE && !s.core.orphan
            && s.engineQ == [HandleInMsgs(duplicate), NotifyCleaned(false)]
  {
    var cmd := Cmd(id, ToEngine(duplicate));
    EngineThreadTakesOver([], cmd, duplicate);
    assert AskLabels([]) + MigrationLabels(cmd)
        == [Arrive(cmd), Feed, Run(AppThread), Run(ExternalThread), Run(EngineThread),
            Run(AppThread), Run(ExternalThread), Run(EngineThread)];
  }

  // ---------- An engine on the app's loop ----------

  lemma SharedLoopTakesOver(arrived: seq<Msg>, log: seq<Entry>, cmd: Msg, duplicate: bool)
    requires GoesToEngine(cmd, duplicate)
    ensures RunAll(State(Base(false, arrived, log), [], [], []), [Arrive(cmd), Feed, Run(AppThread)])
         == State(Migrated(Waiting(false, arrived + [cmd], log), cmd), [NotifyCleaned(false), HandleInMsgs(duplicate)], [], [])
  {
    var s, w := State(Base(false, arrived, log), [], [], []), Waiting(false, arrived + [cmd], log);
    var posts := [Posting(AppThread, NotifyCleaned(false)), Posting(AppThread, HandleInMsgs(duplicate))];
    RunsThree(s, Arrive(cmd), Feed, Run(AppThread));
    Offered(false, arrived, log, cmd);
    FirstTakeOverIs(w, cmd);
    Single(OnInput(cmd));
    HeadRuns(State(w, [OnInput(cmd)], [], []), AppThread, Migrated(w, cmd), posts);
    Delivered(State(Migrated(w, cmd), [], [], []), posts);
    assert [] + [NotifyCleaned(false)] + [HandleInMsgs(duplicate)] == [NotifyCleaned(false), HandleInMsgs(duplicate)];
  }

  // ---------- From the engine to the remote ----------

  // The queue of the thread that owns the connection, with nothing anywhere else.
  function OwnerHas(c: Core, q: seq<Task>): State {
    WithQueue(State(c, [], [], []), c.owner, q)
  }

  lemma OwnLoopIsServed(c: Core)
    requires c.owner == EngineThread && c.attach == ENGINE && c.migration == DONE
    ensures RunAll(State(c, [], [HandleInMsgs(false), NotifyCleaned(false)], []),
                   [Run(EngineThread), Run(EngineThread), Run(ExternalThread)])
         == State(c.(attach := REMOTE, onClosed := ByRemote, mirror := DONE), [], [], [])
  {
    var d := c.(attach := REMOTE, onClosed := ByRemote);
    var s0 := State(c, [], [HandleInMsgs(false), NotifyCleaned(false)], []);
    var s1, s2 := State(d, [], [NotifyCleaned(false)], []), State(d, [], [], [ImplOnCleaned(false)]);
    RunsLink(c, EngineThread, false);
    assert s0.engineQ[1..] == [NotifyCleaned(false)];
    HeadRuns(s0, EngineThread, d, []);
    RunsNotify(d, EngineThread, false);
    HopRuns(s1, EngineThread, d, ExternalThread, ImplOnCleaned(false), s2);
    ToldTheImplementation(d, s2);
    RunsThree(s0, Run(EngineThread), Run(EngineThread), Run(ExternalThread));
  }

  lemma ToldTheImplementation(c: Core, s: State)
    requires s == State(c, s.appQ, s.engineQ, [ImplOnCleaned(false)])
    ensures Next(s, Run(ExternalThread)) == State(c.(mirror := DONE), s.appQ, s.engineQ, [])
  {
    RunsImplOnCleaned(c, ExternalThread, false);
    Single(ImplOnCleaned(false));
    HeadRuns(s, ExternalThread, c.(mirror := DONE), []);
  }

  lemma SharedLoopIsServed(c: Core)
    requires c.owner == AppThread && c.attach == ENGINE && c.migration == DONE
    ensures RunAll(State(c, [NotifyCleaned(false), HandleInMsgs(false)], [], []),
                   [Run(AppThread), Run(AppThread), Run(ExternalThread)])
         == State(c.(attach := REMOTE, onClosed := ByRemote, mirror := DONE), [], [], [])
  {
    var d := c.(attach := REMOTE, onClosed := ByRemote);
    var s0 := State(c, [NotifyCleaned(false), HandleInMsgs(false)], [], []);
    var s1, s2 := State(c, [HandleInMsgs(false)], [], [ImplOnCleaned(false)]), State(d, [], [], [ImplOnCleaned(false)]);
    assert s0.appQ == [NotifyCleaned(false)] + [HandleInMsgs(false)];
    NotifiedRun(c, false, [HandleInMsgs(false)]);
    RunsLink(c, AppThread, false);
    Single(HandleInMsgs(false));
    HeadRuns(s1, AppThread, d, []);
    ToldTheImplementation(d, s2);
    RunsThree(s0, Run(AppThread), Run(AppThread), Run(ExternalThread));
  }

  // What the engine does with the command, and the implementation with the notification.
  function ServingLabels(ownLoop: bool): seq<Label> {
    if ownLoop then [Run(EngineThread), Run(EngineThread), Run(ExternalThread)]
    else [Run(AppThread), Run(AppThread), Run(ExternalThread)]
  }

  function CommandLabels(ownLoop: bool, cmd: Msg): seq<Label> {
    (if ownLoop then MigrationLabels(cmd) else [Arrive(cmd), Feed, Run(AppThread)]) + ServingLabels(ownLoop)
  }

  // The connection with its remote, when nothing is under way.
  function Served(ownLoop: bool, arrived: seq<Msg>, log: seq<Entry>): Core {
    Base(ownLoop, arrived, log).(migration := DONE, mirror := DONE, attach := REMOTE, onClosed := ByRemote, orphan := false,
                                 owner := if ownLoop then EngineThread else AppThread)
  }

  lemma CommandIsServed(ownLoop: bool, arrived: seq<Msg>, log: seq<Entry>, cmd: Msg)
    requires GoesToEngine(cmd, false)
    ensures RunAll(State(Base(ownLoop, arrived, log), [], [], []), CommandLabels(ownLoop, cmd))
         == State(Served(ownLoop, arrived + [cmd], log + [Entry(cmd, QueuedInEngine)]), [], [], [])
  {
    var s := State(Base(ownLoop, arrived, log), [], [], []);
    var c := Migrated(Waiting(ownLoop, arrived + [cmd], log), cmd);
    if ownLoop {
      RunAllInTwo(s, MigrationLabels(cmd), ServingLabels(true));
      OwnLoopMigration(arrived, log, cmd, false);
      OwnLoopIsServed(c);
    } else {
      RunAllInTwo(s, [Arrive(cmd), Feed, Run(AppThread)], ServingLabels(false));
      SharedLoopTakesOver(arrived, log, cmd, false);
      SharedLoopIsServed(c);
    }
  }

  // ---------- Messages through the remote ----------

  function MessageLabels(ownLoop: bool, msg: Msg): seq<Label> {
    [Arrive(msg), Feed, Run(if ownLoop then EngineThread else AppThread)]
  }

  lemma MessageIsServed(ownLoop: bool, arrived: seq<Msg>, log: seq<Entry>, msg: Msg)
    ensures RunAll(State(Served(ownLoop, arrived, log), [], [], []), MessageLabels(ownLoop, msg))
         == State(Served(ownLoop, arrived + [msg], log + [Entry(msg, GivenToRemote)]), [], [], [])
  {
    var c := Served(ownLoop, arrived, log);
    var s := State(c, [], [], []);
    var d := c.(arrived := arrived + [msg]);
    assert [] + [msg] == [msg];
    assert Next(s, Arrive(msg)) == State(d.(pending := [msg]), [], [], []);
    MessageIsHandedOver(d, msg);
    RunsThree(s, Arrive(msg), Feed, Run(c.owner));
    MessageIsGiven(d, msg);
  }

  lemma MessageIsHandedOver(c: Core, msg: Msg)
    requires c.pending == [] && c.mirror == DONE && !c.hungUp && !c.gone && AttachedLoop(c) == c.owner
    ensures Next(State(c.(pending := [msg]), [], [], []), Feed) == OwnerHas(c, [OnInputs([msg])])
  {
    var s := State(c.(pending := [msg]), [], [], []);
    FeedAllIs(s);
    PostsOne(s, Feed, c, c.owner, OnInputs([msg]));
    Single(OnInputs([msg]));
  }

  lemma MessageIsGiven(c: Core, msg: Msg)
    requires c.attach == REMOTE && c.migration == DONE && !c.protocolClosing
    ensures Next(OwnerHas(c, [OnInputs([msg])]), Run(c.owner))
         == State(c.(log := c.log + [Entry(msg, GivenToRemote)]), [], [], [])
  {
    var e := Effect(c, []);
    assert RunTask(c, c.owner, OnInputs([msg])) == OnMsgs(e, [msg]);
    OnMsgsEffect(e, [msg]);
    assert Entries([msg], GivenToRemote) == [Entry(msg, GivenToRemote)];
    Single(OnInputs([msg]));
    HeadRuns(OwnerHas(c, [OnInputs([msg])]), c.owner, c.(log := c.log + [Entry(msg, GivenToRemote)]), []);
  }

  // After any number of commands for unknown graphs, a command for an engine over a channel of
  // its own ends with a remote, and the next message is given to it.
  lemma FirstCommandGetsRemote(ownLoop: bool, known: seq<Msg>, cmd: Msg, second: Msg)
    requires (forall i | 0 <= i < |known| :: IsUnknown(known[i])) && cmd.Cmd? && cmd.route == ToEngine(false)
    ensures var s := Reached(ownLoop, AskLabels(known) + (CommandLabels(ownLoop, cmd) + MessageLabels(ownLoop, second)));
            var c, n := s.core, |known|;
            && c.attach == REMOTE && c.migration == DONE && c.mirror == DONE && !c.fault && !c.duplicate
            && c.owner == (if ownLoop then EngineThread else AppThread) && s.appQ == s.engineQ == s.externalQ == []
            && |c.log| == n + 2 && (forall i | 0 <= i < n :: c.log[i] == Entry(known[i], GraphNotFound))
            && c.log[n] == Entry(cmd, QueuedInEngine) && c.log[n + 1] == Entry(second, GivenToRemote)
  {
    var labels := CommandLabels(ownLoop, cmd) + MessageLabels(ownLoop, second);
    var log := Asked(known) + [Entry(cmd, QueuedInEngine)];
    AskRun(ownLoop, known);
    RunAllInTwo(Init(ownLoop), AskLabels(known), labels);
    RunAllInTwo(State(Base(ownLoop, known, Asked(known)), [], [], []), CommandLabels(ownLoop, cmd), MessageLabels(ownLoop, second));
    CommandIsServed(ownLoop, known, Asked(known), cmd);
    MessageIsServed(ownLoop, known + [cmd], log, second);
    AskedAre(known);
  }

  lemma {:induction false} AskedAre(known: seq<Msg>)
    ensures |Asked(known)| == |known| && forall i | 0 <= i < |known| :: Asked(known)[i] == Entry(known[i], GraphNotFound)
    decreases |known|
  {
    if known != [] {
      AskedAre(known[..|known| - 1]);
    }
  }

  // ---------- The client leaves ----------

  function LeavingLabels(owner: Thread): seq<Label> {
    [HangUp, Run(owner), Run(ExternalThread)] + [FinishClose, Run(owner)]
  }

  lemma LeavingIsTold(c: Core)
    requires c.mirror != FIRST_MSG && !c.hungUp && !c.gone && !c.protocolClosing && AttachedLoop(c) == c.owner
    requires c.owner != ExternalThread
    ensures RunAll(State(c, [], [], []), [HangUp, Run(c.owner), Run(ExternalThread)])
         == State(c.(hungUp := true, protocolClosing := true, closeAsked := true), [], [], [])
  {
    var d := c.(hungUp := true);
    var e := d.(protocolClosing := true);
    ClientLeavesStep(c);
    RequestIsPassedOn(d);
    RunsImplClose(e, ExternalThread);
    Single(ImplClose);
    HeadRuns(State(e, [], [], [ImplClose]), ExternalThread, e.(closeAsked := true), []);
    RunsThree(State(c, [], [], []), HangUp, Run(c.owner), Run(ExternalThread));
  }

  lemma ClientLeavesStep(c: Core)
    requires c.mirror != FIRST_MSG && !c.hungUp && !c.gone && AttachedLoop(c) == c.owner
    ensures Next(State(c, [], [], []), HangUp) == OwnerHas(c.(hungUp := true), [CloseProtocol])
  {
    LeavingPosts(State(c, [], [], []));
    Single(CloseProtocol);
  }

  lemma RequestIsPassedOn(c: Core)
    requires !c.protocolClosing && c.owner != ExternalThread
    ensures Next(OwnerHas(c, [CloseProtocol]), Run(c.owner)) == State(c.(protocolClosing := true), [], [], [ImplClose])
  {
    RunsClose(c, c.owner, CloseProtocol);
    HopRuns(OwnerHas(c, [CloseProtocol]), c.owner, c.(protocolClosing := true), ExternalThread, ImplClose,
            State(c.(protocolClosing := true), [], [], [ImplClose]));
  }

  lemma LeavingIsDone(c: Core)
    requires c.mirror != FIRST_MSG && c.closeAsked && !c.gone && c.onClosed != NoCallback && AttachedLoop(c) == c.owner
    ensures RunAll(State(c, [], [], []), [FinishClose, Run(c.owner)])
         == State(c.(gone := true, destroyed := true, orphan := false, onClosed := NoCallback), [], [], [])
  {
    FinishStep(c);
    ReportIsRun(c.(gone := true));
    RunsTwo(State(c, [], [], []), FinishClose, Run(c.owner));
  }

  lemma FinishStep(c: Core)
    requires c.mirror != FIRST_MSG && c.closeAsked && !c.gone && AttachedLoop(c) == c.owner
    ensures Next(State(c, [], [], []), FinishClose) == OwnerHas(c.(gone := true), [ProtocolClosed])
  {
    ClosingPosts(State(c, [], [], []));
    Single(ProtocolClosed);
  }

  lemma ReportIsRun(c: Core)
    requires c.onClosed != NoCallback
    ensures Next(OwnerHas(c, [ProtocolClosed]), Run(c.owner))
         == State(c.(destroyed := true, orphan := false, onClosed := NoCallback), [], [], [])
  {
    RunsClosed(c, c.owner);
    Single(ProtocolClosed);
    HeadRuns(OwnerHas(c, [ProtocolClosed]), c.owner, Destroyed(c), []);
  }

  // The whole life of an ordinary connection.
  lemma LifeOfAConnection(ownLoop: bool, known: seq<Msg>, cmd: Msg, second: Msg)
    requires (forall i | 0 <= i < |known| :: IsUnknown(known[i])) && cmd.Cmd? && cmd.route == ToEngine(false)
    ensures var owner := if ownLoop then EngineThread else AppThread;
            var s := Reached(ownLoop, AskLabels(known)
                                      + (CommandLabels(ownLoop, cmd) + (MessageLabels(ownLoop, second) + LeavingLabels(owner))));
            && s.core.destroyed && s.core.arrived == known + [cmd, second] && |s.core.log| == |known| + 2 && !s.core.fault
            && s.appQ == s.engineQ == s.externalQ == []
  {
    var owner := if ownLoop then EngineThread else AppThread;
    var first, last := CommandLabels(ownLoop, cmd), MessageLabels(ownLoop, second) + LeavingLabels(owner);
    var log := Asked(known) + [Entry(cmd, QueuedInEngine)];
    AskRun(ownLoop, known);
    AskedAre(known);
    RunAllInTwo(Init(ownLoop), AskLabels(known), first + last);
    RunAllInTwo(State(Base(ownLoop, known, Asked(known)), [], [], []), first, last);
    CommandIsServed(ownLoop, known, Asked(known), cmd);
    RunAllInTwo(State(Served(ownLoop, known + [cmd], log), [], [], []), MessageLabels(ownLoop, second), LeavingLabels(owner));
    MessageIsServed(ownLoop, known + [cmd], log, second);
    ServedLeaves(ownLoop, known + [cmd] + [second], log + [Entry(second, GivenToRemote)]);
    assert known + [cmd] + [second] == known + [cmd, second];
  }

  lemma ServedLeaves(ownLoop: bool, arrived: seq<Msg>, log: seq<Entry>)
    ensures var c := Served(ownLoop, arrived, log);
            var s := RunAll(State(c, [], [], []), LeavingLabels(c.owner));
            && s.core.destroyed && s.core.arrived == arrived && s.core.log == log && !s.core.fault
            && s.appQ == s.engineQ == s.externalQ == []
  {
    var c := Served(ownLoop, arrived, log);
    RunAllInTwo(State(c, [], [], []), [HangUp, Run(c.owner), Run(ExternalThread)], [FinishClose, Run(c.owner)]);
    LeavingIsTold(c);
    LeavingIsDone(c.(hungUp := true, protocolClosing := true, closeAsked := true));
  }

  // ---------- What the first command decides ----------

  // The first message that is not a command for an unknown graph goes to an engine, over a
  // channel of its own.
  predicate FirstGoesToEngine(msgs: seq<Msg>, k: nat) {
    k < |msgs| && (forall i | 0 <= i < k :: IsUnknown(msgs[i])) && msgs[k].Cmd? && msgs[k].route == ToEngine(false)
  }

  // Then nothing goes wrong in any run: no assertion fails, the channel is not taken for a
  // second one, and every later message is given to the remote, or dropped because the
  // protocol closes.
  lemma OrdinaryChannelIsServed(ownLoop: bool, labels: seq<Label>, k: nat)
    requires FirstGoesToEngine(Reached(ownLoop, labels).core.arrived, k)
    ensures var c := Reached(ownLoop, labels).core;
            && !c.fault && !c.duplicate
            && (forall j | k < j < |c.log| :: c.log[j].verdict == GivenToRemote || c.log[j].verdict == DroppedClosing)
            && (k < |c.log| ==> c.log[k].verdict == QueuedInEngine || c.log[k].verdict == DroppedClosing)
  {
    var s := Reached(ownLoop, labels);
    NoFaultThen(ownLoop, labels, k);
    ReachedKeepsInv(ownLoop, labels);
    ReachedHasCauses(ownLoop, labels);
    var j := WhatBecomesOfMessages(ownLoop, labels);
    forall i: nat | i < |s.core.log|
      ensures i < |s.core.arrived| && s.core.arrived[i] == s.core.log[i].msg
    {
      LoggedHaveArrived(s, i);
    }
    DecidesAt(s.core.log, s.core.arrived, j, k);
  }

  lemma NoFaultThen(ownLoop: bool, labels: seq<Label>, k: nat)
    requires FirstGoesToEngine(Reached(ownLoop, labels).core.arrived, k)
    ensures !Reached(ownLoop, labels).core.fault
  {
    if Reached(ownLoop, labels).core.fault {
      var i := FaultNeedsCause(ownLoop, labels);
      TripsNot(Reached(ownLoop, labels).core.arrived, k, i);
    }
  }

  lemma TripsNot(msgs: seq<Msg>, k: nat, i: nat)
    requires FirstGoesToEngine(msgs, k)
    ensures !TripsAt(msgs, i)
  {
    if i < k {
      assert IsUnknown(msgs[i]);
    } else if k < i {
      assert !IsUnknown(msgs[k]);
    }
  }

  // The entry that decides about the log belongs to the first message of another kind.
  lemma DecidesAt(log: seq<Entry>, msgs: seq<Msg>, j: nat, k: nat)
    requires FirstGoesToEngine(msgs, k) && StageOf(log) != Tripped && Shape(log, j, StageOf(log))
    requires forall i | 0 <= i < |log| :: i < |msgs| && log[i].msg == msgs[i]
    ensures forall i | 0 <= i < |log| && i != k :: log[i].verdict != QueuedInEngine
    ensures forall i | k < i < |log| :: log[i].verdict == GivenToRemote || log[i].verdict == DroppedClosing
    ensures k < |log| ==> log[k].verdict == QueuedInEngine || log[k].verdict == DroppedClosing
  {
    if j < |log| {
      assert j < k ==> IsUnknown(msgs[j]);
      assert k < j ==> IsUnknownGraph(log[k]);
    }
  }

  // ---------- What messages meet with ----------

  function With(c: Core, msg: Msg, verdict: Verdict): Core {
    c.(log := c.log + [Entry(msg, verdict)])
  }

  // The connection after its first message.
  function AfterFirst(c: Core, msg: Msg): Core {
    if c.protocolClosing then With(c, msg, DroppedClosing)
    else
      var d := c.(migration := FIRST_MSG);
      match msg
      case NonCmd(_) => With(d, msg, DroppedNoRemote)
      case Cmd(_, route) =>
        match route
        case ToEngine(_) =>
          if c.ownLoop then d
          else With(c.(migration := DONE, attach := ENGINE, onClosed := ByEngine, orphan := false), msg, QueuedInEngine)
        case EngineNotFound => With(c, msg, GraphNotFound)
        case CloseApp => With(c.(migration := DONE, appClosing := true), msg, ClosedApp)
        case ToApp => With(d, msg, IgnoredByApp)
        case StopGraph(found) => With(d, msg, if found then SentToStop else NothingToStop)
        case StartGraphRejected => With(d, msg, Rejected)
  }

  // In every reachable state, a first message that the app thread is about to handle changes
  // the connection like this, and in no other way.
  lemma FirstMessageMeets(ownLoop: bool, labels: seq<Label>)
    requires var q := Reached(ownLoop, labels).appQ; q != [] && q[0].OnInput?
    ensures var s := Reached(ownLoop, labels);
            Next(s, Run(AppThread)).core == AfterFirst(s.core, s.appQ[0].msg)
  {
    var s := Reached(ownLoop, labels);
    ReachedKeepsInv(ownLoop, labels);
    RunIsTask(s, AppThread);
    RunningSees(s, AppThread);
    HeadToken(See(Popped(s, Run(AppThread))), AppThread, s.appQ[0]);
    FirstTaskIs(s.core, s.appQ[0].msg);
  }

  lemma FirstTaskIs(c: Core, msg: Msg)
    requires c.owner == AppThread && c.attach == APP && c.migration == INIT && c.orphan
    ensures RunTask(c, AppThread, OnInput(msg)).core == AfterFirst(c, msg)
  {
    if c.protocolClosing || msg.NonCmd? {
      InputIs(Effect(c, []), msg);
      OnMsgIs(Effect(c.(migration := FIRST_MSG), []), msg);
    } else {
      FirstCommandTaskIs(c, msg);
    }
  }

  lemma FirstCommandTaskIs(c: Core, msg: Msg)
    requires Unused(c) && msg.Cmd?
    ensures RunTask(c, AppThread, OnInput(msg)).core == AfterFirst(c, msg)
  {
    if msg.route.ToEngine? {
      EngineCommandIs(c, msg);
    } else if msg.route.EngineNotFound? || msg.route.CloseApp? {
      AnsweredCommandIs(c, msg);
    } else if msg.route == StopGraph(true) {
      StopCommandIs(c, msg);
    } else {
      SilentCommandIs(c, msg);
    }
  }

  lemma EngineCommandIs(c: Core, msg: Msg)
    requires Unused(c) && msg.Cmd? && msg.route.ToEngine?
    ensures RunTask(c, AppThread, OnInput(msg)).core == AfterFirst(c, msg)
  {
    if c.ownLoop {
      FirstMigrationIs(c, msg);
    } else {
      FirstTakeOverIs(c, msg);
    }
  }

  lemma AnsweredCommandIs(c: Core, msg: Msg)
    requires Unused(c) && msg.Cmd? && (msg.route.EngineNotFound? || msg.route.CloseApp?)
    ensures RunTask(c, AppThread, OnInput(msg)).core == AfterFirst(c, msg)
  {
    if msg.route.CloseApp? {
      FirstCloseAppIs(c, msg);
    } else {
      FirstNotFoundIs(c, msg);
    }
  }

  lemma StopCommandIs(c: Core, msg: Msg)
    requires Unused(c) && msg.Cmd? && msg.route == StopGraph(true)
    ensures RunTask(c, AppThread, OnInput(msg)).core == AfterFirst(c, msg)
  {
    FirstStopIs(c, msg);
  }

  lemma SilentCommandIs(c: Core, msg: Msg)
    requires Unused(c) && msg.Cmd?
    requires msg.route.ToApp? || msg.route.StartGraphRejected? || msg.route == StopGraph(false)
    ensures RunTask(c, AppThread, OnInput(msg)).core == AfterFirst(c, msg)
  {
    FirstSilentIs(c, msg);
    SilentAfterFirst(c, msg);
  }

  lemma SilentAfterFirst(c: Core, msg: Msg)
    requires !c.protocolClosing && msg.Cmd?
    requires msg.route.ToApp? || msg.route.StartGraphRejected? || msg.route == StopGraph(false)
    ensures var verdict := if msg.route.ToApp? then IgnoredByApp else if msg.route.StopGraph? then NothingToStop else Rejected;
            AfterFirst(c, msg) == c.(migration := FIRST_MSG, log := c.log + [Entry(msg, verdict)])
  {
    var d := c.(migration := FIRST_MSG);
    match msg.route {
      case ToApp => assert AfterFirst(c, msg) == With(d, msg, IgnoredByApp);
      case StartGraphRejected => assert AfterFirst(c, msg) == With(d, msg, Rejected);
      case StopGraph(_) => assert AfterFirst(c, msg) == With(d, msg, NothingToStop);
    }
  }

  // A batch is dropped once the protocol closes, given to the remote if there is one, and lost
  // otherwise; nothing but the history and the flag changes.
  predicate BatchMet(c: Core, d: Core, msgs: seq<Msg>) {
    var verdict := if c.protocolClosing then DroppedClosing else if c.attach == REMOTE then GivenToRemote else DroppedNoRemote;
    && d == c.(log := d.log, fault := d.fault)
    && |d.log| == |c.log| + |msgs| && c.log == d.log[..|c.log|]
    && forall i | 0 <= i < |msgs| :: d.log[|c.log| + i] == Entry(msgs[i], verdict)
  }

  // So it goes with every batch in every reachable state.
  lemma BatchMeets(ownLoop: bool, labels: seq<Label>, th: Thread)
    requires var q := Queue(Reached(ownLoop, labels), th); q != [] && q[0].OnInputs?
    ensures var s := Reached(ownLoop, labels); BatchMet(s.core, Next(s, Run(th)).core, Queue(s, th)[0].msgs)
  {
    var s := Reached(ownLoop, labels);
    ReachedKeepsInv(ownLoop, labels);
    RunIsTask(s, th);
    BatchAtOwner(s, th);
    BatchLog(s.core, th, Queue(s, th)[0].msgs, RunTask(s.core, th, Queue(s, th)[0]).core);
  }

  lemma BatchAtOwner(s: State, th: Thread)
    requires Inv(s) && Queue(s, th) != [] && Queue(s, th)[0].OnInputs?
    ensures s.core.owner == th && s.core.migration == DONE && (s.core.protocolClosing || s.core.attach != APP)
  {
    RunningSees(s, th);
    InputsReachRemote(See(Popped(s, Run(th))), th, Queue(s, th)[0].msgs);
  }

  lemma BatchLog(c: Core, th: Thread, msgs: seq<Msg>, d: Core)
    requires c.owner == th && c.migration == DONE && (c.protocolClosing || c.attach != APP)
    requires d == RunTask(c, th, OnInputs(msgs)).core
    ensures BatchMet(c, d, msgs)
  {
    BatchTaskIs(c, th, msgs);
  }

  lemma BatchTaskIs(c: Core, th: Thread, msgs: seq<Msg>)
    requires c.owner == th && c.migration == DONE && (c.protocolClosing || c.attach != APP)
    ensures var d := RunTask(c, th, OnInputs(msgs)).core;
            var verdict := if c.protocolClosing then DroppedClosing else if c.attach == REMOTE then GivenToRemote else DroppedNoRemote;
            d == c.(log := c.log + Entries(msgs, verdict), fault := d.fault)
  {
    var e := Effect(c, []);
    if c.protocolClosing {
      assert RunTask(c, th, OnInputs(msgs)) == DropAll(e, msgs);
      DropAllEffect(e, msgs);
    } else {
      assert RunTask(c, th, OnInputs(msgs)) == OnMsgs(e, msgs);
      OnMsgsEffect(e, msgs);
    }
  }
}
