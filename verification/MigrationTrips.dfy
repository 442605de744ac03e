/**
  Runs in which an assertion fails: after any number of commands for unknown graphs, with an
  engine that shares the thread of the app.
 */
module MigrationTrips {
  import opened Migration
  import opened MigrationTasks
  import opened MigrationViews
  import opened MigrationSafety
  import opened MigrationLaws
  import opened MigrationFaults
  import opened MigrationCauses

  // ---------- Steps where little waits ----------

  lemma Delivered(s: State, posts: seq<Posting>)
    ensures |posts| == 1 ==> Deliver(s, posts) == WithQueue(s, posts[0].thread, Queue(s, posts[0].thread) + [posts[0].task])
    ensures |posts| == 2 ==>
      var s1 := WithQueue(s, posts[0].thread, Queue(s, posts[0].thread) + [posts[0].task]);
      Deliver(s, posts) == WithQueue(s1, posts[1].thread, Queue(s1, posts[1].thread) + [posts[1].task])
  {
    if |posts| == 1 {
      assert posts[1..] == [];
    } else if |posts| == 2 {
      var s1 := WithQueue(s, posts[0].thread, Queue(s, posts[0].thread) + [posts[0].task]);
      assert posts[1..][1..] == [];
      assert Deliver(s1, posts[1..]) == WithQueue(s1, posts[1].thread, Queue(s1, posts[1].thread) + [posts[1].task]);
    }
  }

  // Running the head of the app's queue, when it posts to queues that are otherwise empty.
  lemma AppRuns(c: Core, t: Task, rest: seq<Task>, c': Core, posts: seq<Posting>, s': State)
    requires RunTask(c, AppThread, t) == Effect(c', posts)
    requires s' == Deliver(State(c', rest, [], []), posts)
    ensures Next(State(c, [t] + rest, [], []), Run(AppThread)) == s'
  {
    assert ([t] + rest)[1..] == rest;
  }

  // Handing over what has arrived at a connection where nothing else waits.
  lemma HandsOver(c: Core, msg: Msg)
    requires c.pending == [msg] && AttachedLoop(c) == AppThread && MayUseLoop(c) && !c.hungUp && !c.gone
    ensures Next(State(c, [], [], []), Feed)
         == if c.mirror == INIT then State(c.(pending := [], mirror := FIRST_MSG), [OnInput(msg)], [], [])
            else State(c.(pending := []), [OnInputs([msg])], [], [])
  {
    var s := State(c, [], [], []);
    assert [msg][1..] == [];
    NextIs(s, Feed);
    if c.mirror == INIT {
      FeedFirstIs(s);
      Delivered(State(c.(mirror := FIRST_MSG, pending := []), [], [], []), [Posting(AppThread, OnInput(msg))]);
    } else {
      FeedAllIs(s);
      Delivered(State(c.(pending := []), [], [], []), [Posting(AppThread, OnInputs([msg]))]);
    }
  }

  lemma RunsThree(s: State, l: Label, l': Label, l'': Label)
    ensures RunAll(s, [l, l', l'']) == Next(Next(Next(s, l), l'), l'')
  {
    assert [l, l', l''][1..] == [l', l''] && [l', l''][1..] == [l''] && [l''][1..] == [];
    assert RunAll(Next(Next(s, l), l'), [l'']) == Next(Next(Next(s, l), l'), l'');
    assert RunAll(Next(s, l), [l', l'']) == RunAll(Next(Next(s, l), l'), [l'']);
  }

  lemma {:induction false} RunAllInTwo(s: State, a: seq<Label>, b: seq<Label>)
    ensures RunAll(s, a + b) == RunAll(RunAll(s, a), b)
    decreases |a|
  {
    if a == [] {
      assert a + b == b;
    } else {
      assert (a + b)[0] == a[0] && (a + b)[1..] == a[1..] + b;
      RunAllInTwo(Next(s, a[0]), a[1..], b);
    }
  }

  // ---------- Commands for unknown graphs ----------

  // A connection as it was created, but for its history.
  function Base(ownLoop: bool, arrived: seq<Msg>, log: seq<Entry>): Core {
    Init(ownLoop).core.(arrived := arrived, log := log)
  }

  // The next message waits for the app thread.
  function Waiting(ownLoop: bool, arrived: seq<Msg>, log: seq<Entry>): Core {
    Base(ownLoop, arrived, log).(mirror := FIRST_MSG)
  }

  lemma Offered(ownLoop: bool, arrived: seq<Msg>, log: seq<Entry>, msg: Msg)
    ensures Next(Next(State(Base(ownLoop, arrived, log), [], [], []), Arrive(msg)), Feed)
         == State(Waiting(ownLoop, arrived + [msg], log), [OnInput(msg)], [], [])
  {
    var c := Base(ownLoop, arrived + [msg], log).(pending := [msg]);
    assert [] + [msg] == [msg];
    assert Next(State(Base(ownLoop, arrived, log), [], [], []), Arrive(msg)) == State(c, [], [], []);
    HandsOver(c, msg);
  }

  lemma UnknownAnswered(ownLoop: bool, arrived: seq<Msg>, log: seq<Entry>, msg: Msg)
    requires IsUnknown(msg)
    ensures RunTask(Waiting(ownLoop, arrived, log), AppThread, OnInput(msg))
         == Effect(Waiting(ownLoop, arrived, log + [Entry(msg, GraphNotFound)]), [Posting(AppThread, NotifyCleaned(true))])
  {
    var w := Waiting(ownLoop, arrived, log);
    var e := Effect(w.(migration := FIRST_MSG), []);
    assert RunTask(w, AppThread, OnInput(msg)) == HandleInput(Effect(w, []), msg);
    InputIs(Effect(w, []), msg);
    OnMsgIs(e, msg);
    RouteIs(e, msg);
    ResetIs(e);
    assert Unmarked(e) == Effect(w, []);
  }

  // The command is answered and the connection is as it was.
  lemma UnknownRun(ownLoop: bool, arrived: seq<Msg>, log: seq<Entry>, msg: Msg)
    requires IsUnknown(msg)
    ensures var log' := log + [Entry(msg, GraphNotFound)];
            RunAll(State(Waiting(ownLoop, arrived, log), [OnInput(msg)], [], []), [Run(AppThread), Run(AppThread), Run(ExternalThread)])
            == State(Base(ownLoop, arrived, log'), [], [], [])
  {
    var w, w' := Waiting(ownLoop, arrived, log), Waiting(ownLoop, arrived, log + [Entry(msg, GraphNotFound)]);
    var s := State(w, [OnInput(msg)], [], []);
    var s' := State(w', [NotifyCleaned(true)], [], []);
    var s'' := State(w', [], [], [ImplOnCleaned(true)]);
    RunsThree(s, Run(AppThread), Run(AppThread), Run(ExternalThread));
    UnknownAnswered(ownLoop, arrived, log, msg);
    Delivered(State(w', [], [], []), [Posting(AppThread, NotifyCleaned(true))]);
    assert [OnInput(msg)] + [] == [OnInput(msg)] && [NotifyCleaned(true)] + [] == [NotifyCleaned(true)];
    AppRuns(w, OnInput(msg), [], w', [Posting(AppThread, NotifyCleaned(true))], s');
    NotifiedRun(w', true, []);
    assert Next(s', Run(AppThread)) == s'';
    ToldRun(w', true, []);
  }

  lemma NotifiedRun(c: Core, reset: bool, rest: seq<Task>)
    requires c.owner == AppThread
    ensures Next(State(c, [NotifyCleaned(reset)] + rest, [], []), Run(AppThread))
         == State(c, rest, [], [ImplOnCleaned(reset)])
  {
    RunsNotify(c, AppThread, reset);
    Delivered(State(c, rest, [], []), [Posting(ExternalThread, ImplOnCleaned(reset))]);
    AppRuns(c, NotifyCleaned(reset), rest, c, [Posting(ExternalThread, ImplOnCleaned(reset))],
            State(c, rest, [], [ImplOnCleaned(reset)]));
  }

  lemma ToldRun(c: Core, reset: bool, rest: seq<Task>)
    ensures Next(State(c, rest, [], [ImplOnCleaned(reset)]), Run(ExternalThread))
         == State(c.(mirror := if reset then INIT else DONE), rest, [], [])
  {
    var s := State(c, rest, [], [ImplOnCleaned(reset)]);
    NextIs(s, Run(ExternalThread));
    RunsImplOnCleaned(c, ExternalThread, reset);
    assert [ImplOnCleaned(reset)][1..] == [];
  }

  function UnknownLabels(msg: Msg): seq<Label> {
    [Arrive(msg), Feed] + [Run(AppThread), Run(AppThread), Run(ExternalThread)]
  }

  // The labels by which all these commands are sent and answered.
  function AskLabels(msgs: seq<Msg>): seq<Label>
    decreases |msgs|
  {
    if msgs == [] then [] else AskLabels(msgs[..|msgs| - 1]) + UnknownLabels(msgs[|msgs| - 1])
  }

  function Asked(msgs: seq<Msg>): seq<Entry>
    decreases |msgs|
  {
    if msgs == [] then [] else Asked(msgs[..|msgs| - 1]) + [Entry(msgs[|msgs| - 1], GraphNotFound)]
  }

  lemma RunsTwo(s: State, l: Label, l': Label)
    ensures RunAll(s, [l, l']) == Next(Next(s, l), l')
  {
    assert [l, l'][1..] == [l'] && [l'][1..] == [];
    assert RunAll(Next(s, l), [l']) == Next(Next(s, l), l');
  }

  lemma {:induction false} AskRun(ownLoop: bool, msgs: seq<Msg>)
    requires forall i | 0 <= i < |msgs| :: IsUnknown(msgs[i])
    ensures Reached(ownLoop, AskLabels(msgs)) == State(Base(ownLoop, msgs, Asked(msgs)), [], [], [])
    decreases |msgs|
  {
    if msgs != [] {
      var front, msg := msgs[..|msgs| - 1], msgs[|msgs| - 1];
      var s := State(Base(ownLoop, front, Asked(front)), [], [], []);
      AskRun(ownLoop, front);
      RunAllInTwo(Init(ownLoop), AskLabels(front), UnknownLabels(msg));
      RunAllInTwo(s, [Arrive(msg), Feed], [Run(AppThread), Run(AppThread), Run(ExternalThread)]);
      RunsTwo(s, Arrive(msg), Feed);
      Offered(ownLoop, front, Asked(front), msg);
      assert front + [msg] == msgs;
      UnknownRun(ownLoop, msgs, Asked(front), msg);
    }
  }

  // ---------- A second channel ----------

  // The first command is with the engine.
  function TakenBy(arrived: seq<Msg>, log: seq<Entry>): Core {
    Waiting(false, arrived, log).(migration := DONE, attach := ENGINE, orphan := false, onClosed := ByEngine)
  }

  lemma TakenByEngine(arrived: seq<Msg>, log: seq<Entry>, msg: Msg)
    requires GoesToEngine(msg, true)
    ensures RunTask(Waiting(false, arrived, log), AppThread, OnInput(msg))
         == Effect(TakenBy(arrived, log + [Entry(msg, QueuedInEngine)]),
                   [Posting(AppThread, NotifyCleaned(false)), Posting(AppThread, HandleInMsgs(true))])
  {
    var w := Waiting(false, arrived, log);
    var e := Effect(w.(migration := FIRST_MSG), []);
    assert RunTask(w, AppThread, OnInput(msg)) == HandleInput(Effect(w, []), msg);
    InputIs(Effect(w, []), msg);
    OnMsgIs(e, msg);
    RouteIs(e, msg);
    assert MigrateOrPush(e, msg) == AppendToEngine(UpgradeToDone(DelOrphan(e), true), msg);
    UpgradeIs(DelOrphan(e), true);
  }

  lemma FirstIsTaken(arrived: seq<Msg>, log: seq<Entry>, msg: Msg)
    requires GoesToEngine(msg, true)
    ensures Next(State(Waiting(false, arrived, log), [OnInput(msg)], [], []), Run(AppThread))
         == State(TakenBy(arrived, log + [Entry(msg, QueuedInEngine)]), [NotifyCleaned(false), HandleInMsgs(true)], [], [])
  {
    var c := TakenBy(arrived, log + [Entry(msg, QueuedInEngine)]);
    var posts := [Posting(AppThread, NotifyCleaned(false)), Posting(AppThread, HandleInMsgs(true))];
    TakenByEngine(arrived, log, msg);
    Delivered(State(c, [], [], []), posts);
    assert [OnInput(msg)] + [] == [OnInput(msg)];
    AppRuns(Waiting(false, arrived, log), OnInput(msg), [], c, posts, State(c, [NotifyCleaned(false), HandleInMsgs(true)], [], []));
  }

  lemma DuplicateIsFound(c: Core)
    requires c.owner == AppThread && c.migration == DONE
    ensures Next(State(c, [HandleInMsgs(true)], [], []), Run(AppThread)) == State(c.(duplicate := true), [], [], [])
  {
    RunsLink(c, AppThread, true);
    assert Linked(c, true) == c.(duplicate := true);
    assert [HandleInMsgs(true)] + [] == [HandleInMsgs(true)];
    AppRuns(c, HandleInMsgs(true), [], c.(duplicate := true), [], State(c.(duplicate := true), [], [], []));
  }

  lemma NotificationRun(c: Core)
    requires c.owner == AppThread && c.migration == DONE
    ensures RunAll(State(c, [NotifyCleaned(false), HandleInMsgs(true)], [], []),
                   [Run(AppThread), Run(ExternalThread), Run(AppThread)])
         == State(c.(mirror := DONE, duplicate := true), [], [], [])
  {
    var s := State(c, [NotifyCleaned(false), HandleInMsgs(true)], [], []);
    assert [NotifyCleaned(false), HandleInMsgs(true)] == [NotifyCleaned(false)] + [HandleInMsgs(true)];
    NotifiedRun(c, false, [HandleInMsgs(true)]);
    ToldRun(c, false, [HandleInMsgs(true)]);
    DuplicateIsFound(c.(mirror := DONE));
    RunsThree(s, Run(AppThread), Run(ExternalThread), Run(AppThread));
  }

  lemma BatchTrips(c: Core, msg: Msg)
    requires c.owner == AppThread && c.migration == DONE && c.attach == ENGINE && !c.protocolClosing
    ensures var c' := Next(State(c, [OnInputs([msg])], [], []), Run(AppThread)).core;
            && c'.fault && c'.arrived == c.arrived && c'.hungUp == c.hungUp && c'.gone == c.gone
  {
    var e := Effect(c, []);
    assert RunTask(c, AppThread, OnInputs([msg])) == OnMsgs(e, [msg]);
    OnMsgsEffect(e, [msg]);
    NextCore(State(c, [OnInputs([msg])], [], []), Run(AppThread));
  }

  lemma SecondMessageRun(c: Core, second: Msg)
    requires c.owner == AppThread && c.migration == DONE && c.attach == ENGINE && !c.protocolClosing && !c.ownLoop
    requires c.pending == [] && c.mirror == DONE && !c.hungUp && !c.gone
    ensures var c' := RunAll(State(c, [], [], []), [Arrive(second), Feed, Run(AppThread)]).core;
            c'.fault && c'.arrived == c.arrived + [second] && !c'.hungUp && !c'.gone
  {
    var c1 := c.(arrived := c.arrived + [second], pending := [second]);
    assert [] + [second] == [second];
    assert Next(State(c, [], [], []), Arrive(second)) == State(c1, [], [], []);
    HandsOver(c1, second);
    BatchTrips(c1.(pending := []), second);
    RunsThree(State(c, [], [], []), Arrive(second), Feed, Run(AppThread));
  }

  function DuplicateLabels(first: Msg, second: Msg): seq<Label> {
    [Arrive(first), Feed, Run(AppThread)]
    + ([Run(AppThread), Run(ExternalThread), Run(AppThread)] + [Arrive(second), Feed, Run(AppThread)])
  }

  // The client opens a second channel between the same two apps, and goes on talking.
  lemma DuplicateChannelFaults(arrived: seq<Msg>, log: seq<Entry>, first: Msg, second: Msg)
    requires GoesToEngine(first, true)
    ensures var c := RunAll(State(Base(false, arrived, log), [], [], []), DuplicateLabels(first, second)).core;
            c.fault && c.arrived == arrived + [first] + [second] && !c.hungUp && !c.gone
  {
    var s := State(Base(false, arrived, log), [], [], []);
    var c := TakenBy(arrived + [first], log + [Entry(first, QueuedInEngine)]);
    var told, last := [Run(AppThread), Run(ExternalThread), Run(AppThread)], [Arrive(second), Feed, Run(AppThread)];
    RunAllInTwo(s, [Arrive(first), Feed, Run(AppThread)], told + last);
    RunsThree(s, Arrive(first), Feed, Run(AppThread));
    Offered(false, arrived, log, first);
    FirstIsTaken(arrived + [first], log, first);
    RunAllInTwo(State(c, [NotifyCleaned(false), HandleInMsgs(true)], [], []), told, last);
    NotificationRun(c);
    SecondMessageRun(c.(mirror := DONE, duplicate := true), second);
  }

  // ---------- stop_graph ----------

  lemma StopIsSent(arrived: seq<Msg>, log: seq<Entry>, msg: Msg)
    requires StopsGraph(msg)
    ensures var c := Waiting(false, arrived, log + [Entry(msg, SentToStop)]).(migration := FIRST_MSG);
            Next(State(Waiting(false, arrived, log), [OnInput(msg)], [], []), Run(AppThread)) == State(c, [HandleStopGraph], [], [])
  {
    var w := Waiting(false, arrived, log);
    var c := Waiting(false, arrived, log + [Entry(msg, SentToStop)]).(migration := FIRST_MSG);
    var posts := [Posting(AppThread, HandleStopGraph)];
    FirstStopIs(w, msg);
    Delivered(State(c, [], [], []), posts);
    assert [OnInput(msg)] + [] == [OnInput(msg)];
    AppRuns(w, OnInput(msg), [], c, posts, State(c, [HandleStopGraph], [], []));
  }

  lemma StopTrips(c: Core)
    requires c.migration != DONE
    ensures var c' := Next(State(c, [HandleStopGraph], [], []), Run(AppThread)).core;
            c'.fault && c'.arrived == c.arrived && c'.hungUp == c.hungUp && c'.gone == c.gone
  {
    RunsStop(c, AppThread);
    NextCore(State(c, [HandleStopGraph], [], []), Run(AppThread));
  }

  function StopLabels(msg: Msg): seq<Label> {
    [Arrive(msg), Feed] + [Run(AppThread), Run(AppThread)]
  }

  // The client asks an existing graph to stop.
  lemma StopGraphFaults(arrived: seq<Msg>, log: seq<Entry>, msg: Msg)
    requires StopsGraph(msg)
    ensures var c := RunAll(State(Base(false, arrived, log), [], [], []), StopLabels(msg)).core;
            c.fault && c.arrived == arrived + [msg] && !c.hungUp && !c.gone
  {
    var s := State(Base(false, arrived, log), [], [], []);
    RunAllInTwo(s, [Arrive(msg), Feed], [Run(AppThread), Run(AppThread)]);
    RunsTwo(s, Arrive(msg), Feed);
    Offered(false, arrived, log, msg);
    StopIsSent(arrived + [msg], log, msg);
    StopTrips(Waiting(false, arrived + [msg], log + [Entry(msg, SentToStop)]).(migration := FIRST_MSG));
    RunsTwo(State(Waiting(false, arrived + [msg], log), [OnInput(msg)], [], []), Run(AppThread), Run(AppThread));
  }

  // ---------- Exactly these clients ----------

  function Arrivals(msgs: seq<Msg>): (r: seq<Label>)
    ensures |r| == |msgs|
  {
    seq(|msgs|, i requires 0 <= i < |msgs| => Arrive(msgs[i]))
  }

  // Whatever else the client sends stays where it is.
  lemma {:induction false} RestArrives(s: State, msgs: seq<Msg>)
    requires !s.core.hungUp && !s.core.gone
    ensures var c := RunAll(s, Arrivals(msgs)).core;
            c.arrived == s.core.arrived + msgs && c.fault == s.core.fault
    decreases |msgs|
  {
    if msgs == [] {
      assert s.core.arrived + [] == s.core.arrived;
    } else {
      var s1 := Next(s, Arrive(msgs[0]));
      NextCore(s, Arrive(msgs[0]));
      assert Arrivals(msgs)[1..] == Arrivals(msgs[1..]);
      RestArrives(s1, msgs[1..]);
      assert s.core.arrived + [msgs[0]] + msgs[1..] == s.core.arrived + msgs;
    }
  }

  // Some run with these messages, and no others, makes an assertion fail.
  ghost predicate CanFault(msgs: seq<Msg>) {
    exists ownLoop, labels :: Faults(ownLoop, labels, msgs)
  }

  predicate Faults(ownLoop: bool, labels: seq<Label>, msgs: seq<Msg>) {
    Reached(ownLoop, labels).core.arrived == msgs && Reached(ownLoop, labels).core.fault
  }

  lemma TrippingRun(msgs: seq<Msg>, k: nat) returns (labels: seq<Label>)
    requires TripsAt(msgs, k)
    ensures Faults(false, labels, msgs)
  {
    var known := msgs[..k];
    var s := State(Base(false, known, Asked(known)), [], [], []);
    AskRun(false, known);
    var trip, n := TrippingEnd(msgs, k);
    RunAllInTwo(Init(false), AskLabels(known), trip);
    RestArrives(RunAll(s, trip), msgs[n..]);
    RunAllInTwo(Init(false), AskLabels(known) + trip, Arrivals(msgs[n..]));
    labels := AskLabels(known) + trip + Arrivals(msgs[n..]);
    assert msgs[..n] + msgs[n..] == msgs;
  }

  lemma TrippingEnd(msgs: seq<Msg>, k: nat) returns (trip: seq<Label>, n: nat)
    requires TripsAt(msgs, k)
    ensures k < n <= |msgs|
    ensures var c := RunAll(State(Base(false, msgs[..k], Asked(msgs[..k])), [], [], []), trip).core;
            c.fault && c.arrived == msgs[..n] && !c.hungUp && !c.gone
  {
    var known := msgs[..k];
    if StopsGraph(msgs[k]) {
      trip, n := StopLabels(msgs[k]), k + 1;
      StopGraphFaults(known, Asked(known), msgs[k]);
      assert known + [msgs[k]] == msgs[..n];
    } else {
      trip, n := DuplicateLabels(msgs[k], msgs[k + 1]), k + 2;
      DuplicateChannelFaults(known, Asked(known), msgs[k], msgs[k + 1]);
      assert known + [msgs[k]] + [msgs[k + 1]] == msgs[..n];
    }
  }

  // The clients that can make an assertion fail are exactly those that send, after commands
  // for unknown graphs only, stop_graph for an existing one, or start_graph over a second
  // channel and then anything else.
  lemma CanFaultIff(msgs: seq<Msg>)
    ensures CanFault(msgs) <==> exists k: nat :: TripsAt(msgs, k)
  {
    if k: nat :| TripsAt(msgs, k) {
      var labels := TrippingRun(msgs, k);
      assert Faults(false, labels, msgs);
    }
    if ownLoop, labels :| Faults(ownLoop, labels, msgs) {
      var k := FaultNeedsCause(ownLoop, labels);
      assert TripsAt(msgs, k);
    }
  }
}
