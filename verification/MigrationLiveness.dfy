/**
  What happens in the end, under schedules in which every thread gets to run again and again
  and the implementation protocol does what it may.
 */
module MigrationLiveness {
  import opened Migration
  import opened MigrationTasks
  import opened MigrationViews
  import opened MigrationSafety
  import opened MigrationRuns
  import opened MigrationLog
  import opened MigrationLaws
  import opened MigrationHistory
  import opened MigrationProgress
  import opened MigrationCauses

  ghost predicate HappensAfter(schedule: nat -> Label, l: Label, n: nat) {
    exists m: nat :: m >= n && schedule(m) == l
  }

  // The threads run, and the implementation hands messages over and closes, again and again.
  ghost predicate Willing(schedule: nat -> Label) {
    && Fair(schedule)
    && (forall n: nat :: HappensAfter(schedule, Feed, n))
    && (forall n: nat :: HappensAfter(schedule, FinishClose, n))
  }

  lemma LaterOn(c: Core, d: Core, e: Core)
    requires Later(c, d) && Later(d, e)
    ensures Later(c, e)
  {
  }

  lemma LaterNext(r: Execution, n: nat)
    requires r.Valid()
    ensures Later(r.state(n).core, r.state(n + 1).core)
  {
    StateInv(r, n);
    StepLater(r.state(n), r.schedule(n));
    NextState(r, n);
  }

  lemma {:induction false} LaterAt(r: Execution, n: nat, m: nat)
    requires r.Valid()
    requires n <= m
    ensures Later(r.state(n).core, r.state(m).core)
    decreases m - n
  {
    if n < m {
      LaterAt(r, n, m - 1);
      LaterNext(r, m - 1);
      LaterOn(r.state(n).core, r.state(m - 1).core, r.state(m).core);
    }
  }

  // ---------- Every task is run ----------

  predicate WaitsAt(s: State, th: Thread, i: nat, t: Task) {
    i < |Queue(s, th)| && Queue(s, th)[i] == t
  }

  lemma TaskMovesUp(s: State, l: Label, th: Thread, i: nat, t: Task)
    requires WaitsAt(s, th, i, t) && (l == Run(th) ==> i > 0)
    ensures WaitsAt(Next(s, l), th, if l == Run(th) then i - 1 else i, t)
  {
    if Enabled(s, l) {
      QueueAfter(s, l, th);
    }
  }

  lemma TaskMoves(r: Execution, n: nat, th: Thread, i: nat, t: Task)
    requires r.Valid() && WaitsAt(r.state(n), th, i, t) && (r.schedule(n) == Run(th) ==> i > 0)
    ensures WaitsAt(r.state(n + 1), th, if r.schedule(n) == Run(th) then i - 1 else i, t)
  {
    NextState(r, n);
    TaskMovesUp(r.state(n), r.schedule(n), th, i, t);
  }

  lemma {:induction false} TaskComesFirst(r: Execution, n: nat, next: nat, th: Thread, i: nat, t: Task)
    returns (m: nat)
    requires r.Valid()
    requires Fair(r.schedule) && WaitsAt(r.state(n), th, i, t)
    requires next >= n && r.schedule(next) == Run(th)
    ensures m >= n && r.schedule(m) == Run(th) && WaitsAt(r.state(m), th, 0, t)
    decreases i, next - n
  {
    if r.schedule(n) != Run(th) {
      TaskMoves(r, n, th, i, t);
      m := TaskComesFirst(r, n + 1, next, th, i, t);
    } else if i > 0 {
      TaskMoves(r, n, th, i, t);
      var next' := RunsAgain(r.schedule, th, n + 1);
      m := TaskComesFirst(r, n + 1, next', th, i - 1, t);
    } else {
      m := n;
    }
  }

  // A waiting task is run at some time.
  lemma TaskIsRun(r: Execution, n: nat, th: Thread, i: nat, t: Task) returns (m: nat)
    requires r.Valid()
    requires Fair(r.schedule) && WaitsAt(r.state(n), th, i, t)
    ensures m >= n && r.schedule(m) == Run(th) && WaitsAt(r.state(m), th, 0, t)
  {
    var next := RunsAgain(r.schedule, th, n);
    m := TaskComesFirst(r, n, next, th, i, t);
  }

  lemma HeadIsRun(s: State, th: Thread, t: Task)
    requires WaitsAt(s, th, 0, t)
    ensures Next(s, Run(th)).core == RunTask(s.core, th, t).core
  {
    NextCore(s, Run(th));
  }

  // ---------- Messages ----------

  // How many messages the implementation protocol has handed over.
  function HandedOver(c: Core): int {
    |c.arrived| - |c.pending|
  }

  lemma {:induction false} MsgsLength(s: State)
    requires Inv(s)
    ensures HandedOver(s.core) == |s.core.log| + |Flight(See(s))|
  {
    assert |s.core.arrived| == |Msgs(s.core.log) + (Flight(See(s)) + s.core.pending)|;
  }

  lemma {:induction false} CarrierIn(th: Thread, q: seq<Task>) returns (i: nat)
    requires ViewOf(th, q).flight != [] && ViewOf(th, q).tokens == []
    ensures i < |q| && q[i].OnInputs? && q[i].msgs != []
  {
    HeadOrRest(th, q[0], ViewOf(th, q[1..]));
    if Carried(q[0]) != [] {
      i := 0;
    } else {
      i := CarrierIn(th, q[1..]);
      i := i + 1;
    }
  }

  lemma HeadOrRest(th: Thread, t: Task, v: View)
    requires InFront(th, t, v).tokens == [] && InFront(th, t, v).flight != []
    ensures v.tokens == []
    ensures if Carried(t) == [] then v.flight != [] else t.OnInputs?
  {
    assert |InFront(th, t, v).tokens| == |If(IsToken(t), t)| + |v.tokens|;
    assert |InFront(th, t, v).flight| == |Carried(t)| + |v.flight|;
  }

  lemma NoTokenWhenDone(s: State)
    requires Inv(s) && MayUseLoop(s.core)
    ensures s.core.mirror == DONE || Flight(See(s)) == []
    ensures See(s).app.tokens == [] && See(s).engine.tokens == [] && See(s).external.tokens == []
  {
    SightsAreCoherent(s);
    assert TokenOf(See(s)) == NoToken;
    EventsAreOffTheExternal(s);
  }

  lemma EventsAreOffTheExternal(s: State)
    requires Inv(s)
    ensures See(s).external.events == []
  {
  }

  lemma SomethingUnderWay(s: State)
    requires Inv(s) && MayUseLoop(s.core) && |s.core.log| < HandedOver(s.core)
    ensures s.core.mirror == DONE && Flight(See(s)) != []
    ensures See(s).app.tokens == [] && See(s).engine.tokens == [] && See(s).external.tokens == []
  {
    MsgsLength(s);
    NoTokenWhenDone(s);
  }

  lemma SeeAt(s: State, th: Thread)
    ensures At(See(s), th) == ViewOf(th, Queue(s, th))
  {
  }

  // Without a token, what is under way is in batches.
  lemma BatchUnderWay(s: State) returns (th: Thread, i: nat)
    requires Flight(See(s)) != []
    requires See(s).app.tokens == [] && See(s).engine.tokens == [] && See(s).external.tokens == []
    ensures i < |Queue(s, th)| && Queue(s, th)[i].OnInputs? && Queue(s, th)[i].msgs != []
  {
    th := Carrier(See(s));
    SeeAt(s, th);
    i := CarrierIn(th, Queue(s, th));
  }

  lemma Carrier(x: Sight) returns (th: Thread)
    requires Flight(x) != [] && x.app.tokens == [] && x.engine.tokens == [] && x.external.tokens == []
    ensures At(x, th).flight != [] && At(x, th).tokens == []
  {
    if x.app.flight != [] {
      th := AppThread;
    } else if x.engine.flight != [] {
      th := EngineThread;
    } else {
      th := ExternalThread;
    }
  }

  lemma BatchGrowsLog(s: State, th: Thread, msgs: seq<Msg>)
    requires Inv(s) && WaitsAt(s, th, 0, OnInputs(msgs))
    ensures |RunTask(s.core, th, OnInputs(msgs)).core.log| == |s.core.log| + |msgs|
  {
    SeeBeforeInputs(s, th);
    BatchBooks(s.core, th, msgs);
  }

  lemma BatchIsHandled(r: Execution, n: nat, th: Thread, i: nat, msgs: seq<Msg>) returns (m: nat)
    requires r.Valid()
    requires Fair(r.schedule) && WaitsAt(r.state(n), th, i, OnInputs(msgs)) && msgs != []
    ensures m > n && |r.state(m).core.log| > |r.state(n).core.log|
  {
    var k := TaskIsRun(r, n, th, i, OnInputs(msgs));
    BatchRunsAt(r, k, th, msgs);
    LaterAt(r, n, k);
    m := k + 1;
  }

  lemma BatchRunsAt(r: Execution, k: nat, th: Thread, msgs: seq<Msg>)
    requires r.Valid()
    requires r.schedule(k) == Run(th) && WaitsAt(r.state(k), th, 0, OnInputs(msgs))
    ensures |r.state(k + 1).core.log| == |r.state(k).core.log| + |msgs|
  {
    StateInv(r, k);
    BatchGrowsLog(r.state(k), th, msgs);
    HeadIsRun(r.state(k), th, OnInputs(msgs));
    NextState(r, k);
  }

  lemma DoneStaysDone(s: State, l: Label)
    requires Inv(s) && s.core.mirror == DONE
    ensures Next(s, l).core.mirror == DONE
  {
    NextCore(s, l);
    if Enabled(s, l) {
      if l.Run? {
        MirrorOfTask(s, l.thread);
      } else if l.Feed? {
        FeedAllIs(s);
      } else if !l.Arrive? {
        OutsideIs(s, l);
      }
    }
  }

  // Only the notification writes the mirror, apart from handing over.
  lemma MirrorOfTask(s: State, th: Thread)
    requires Inv(s) && Queue(s, th) != []
    ensures RunTask(s.core, th, Queue(s, th)[0]).core.mirror
         == if Queue(s, th)[0].ImplOnCleaned? then (if Queue(s, th)[0].reset then INIT else DONE) else s.core.mirror
    ensures Queue(s, th)[0].ImplOnCleaned? ==> s.core.mirror == FIRST_MSG
  {
    var y, t := See(Popped(s, Run(th))), Queue(s, th)[0];
    RunningSees(s, th);
    if IsToken(t) {
      MirrorOfToken(y, th, t);
    } else {
      MirrorOfOther(y, th, t);
    }
  }

  lemma MirrorOfToken(y: Sight, th: Thread, t: Task)
    requires Control(Before(y, th, t)) && AllCoherent(y) && IsToken(t)
    ensures RunTask(y.core, th, t).core.mirror
         == if t.ImplOnCleaned? then (if t.reset then INIT else DONE) else y.core.mirror
    ensures y.core.mirror == FIRST_MSG
  {
    HeadToken(y, th, t);
    if t.OnInput? {
      InputFlags(y.core, t.msg);
    } else if t.OnCleaned? {
      OnCleanedIs(y.core, th, t.cmd);
      AppendHandles(Effect(y.core.(owner := th), []), t.cmd);
      UpgradeHandles(AppendToEngine(Effect(y.core.(owner := th), []), t.cmd), true);
    } else if t.Clean? {
      CleanIs(y.core, th, t.cmd);
      DelOrphanHandles(Effect(y.core, []));
    } else if t.NotifyCleaned? {
      RunsNotify(y.core, th, t.reset);
    } else if t.ImplOnCleaned? {
      RunsImplOnCleaned(y.core, th, t.reset);
    } else {
      RunsHop(y.core, th, t.cmd);
    }
  }

  lemma MirrorOfOther(y: Sight, th: Thread, t: Task)
    requires Control(Before(y, th, t)) && AllCoherent(y) && !IsToken(t)
    ensures RunTask(y.core, th, t).core.mirror == y.core.mirror
  {
    if t.OnInputs? {
      InputsReachRemote(y, th, t.msgs);
      BatchFlags(y.core, th, t.msgs);
    } else if t.HandleInMsgs? {
      RunsLink(y.core, th, t.duplicate);
    } else if t.AppClose? && !y.core.orphan {
      RunsAppClose(y.core, th);
    } else if t.AppClose? || t.CloseProtocol? {
      CloseTaskRunsAtOwner(y, th, t);
      RunsClose(y.core, th, t);
    } else if t.ProtocolClosed? {
      RunsClosed(y.core, th);
    } else if t.HandleStopGraph? {
      RunsStop(y.core, th);
    } else {
      RunsImplClose(y.core, th);
    }
  }

  // ---------- What is handed over is handled ----------

  // The implementation protocol goes on, or it never will.
  lemma GoesOnOrStuck(r: Execution, n: nat) returns (m: nat)
    requires r.Valid()
    requires Fair(r.schedule)
    ensures m >= n
    ensures var s := r.state(m); MayUseLoop(s.core) || Stuck(s)
  {
    var s := r.state(n);
    m := n;
    if !MayUseLoop(s.core) && !Stuck(s) {
      var th, i, t := WaitingToken(s);
      var next := RunsAgain(r.schedule, th, n);
      m := TokenEnds(r, n, next, th, i, t);
    }
  }

  lemma WaitingToken(s: State) returns (th: Thread, i: nat, t: Task)
    requires s.core.mirror == FIRST_MSG && !Stuck(s)
    ensures Waits(s, th, i, t)
  {
    th, i, t :| Waits(s, th, i, t);
  }

  lemma DoneAt(r: Execution, n: nat)
    requires r.Valid()
    requires r.state(n).core.mirror == DONE
    ensures r.state(n + 1).core.mirror == DONE
  {
    StateInv(r, n);
    DoneStaysDone(r.state(n), r.schedule(n));
    NextState(r, n);
  }

  lemma {:induction false} DoneFrom(r: Execution, n: nat, m: nat)
    requires r.Valid()
    requires n <= m && r.state(n).core.mirror == DONE
    ensures r.state(m).core.mirror == DONE
    decreases m - n
  {
    if n < m {
      DoneFrom(r, n, m - 1);
      DoneAt(r, m - 1);
    }
  }

  // After the migration: the message at position q of all messages, once handed over.
  lemma {:induction false} HandledWhenDone(r: Execution, n: nat, q: nat) returns (m: nat)
    requires r.Valid()
    requires Fair(r.schedule) && r.state(n).core.mirror == DONE
    requires q < HandedOver(r.state(n).core)
    ensures m >= n && q < |r.state(m).core.log|
    decreases q - |r.state(n).core.log|
  {
    m := n;
    if |r.state(n).core.log| <= q {
      StateInv(r, n);
      SomethingUnderWay(r.state(n));
      var th, i := BatchUnderWay(r.state(n));
      var msgs := Queue(r.state(n), th)[i].msgs;
      var k := BatchIsHandled(r, n, th, i, msgs);
      DoneFrom(r, n, k);
      LaterAt(r, n, k);
      m := HandledWhenDone(r, k, q);
    }
  }

  lemma AllHandledBefore(s: State)
    requires Inv(s) && s.core.mirror == INIT
    ensures |s.core.log| == HandedOver(s.core)
  {
    MsgsLength(s);
    NoTokenWhenDone(s);
  }

  // Every message that was handed over is handled, unless the implementation waits for ever.
  lemma HandedOverIsHandled(r: Execution, n: nat, q: nat) returns (m: nat)
    requires r.Valid()
    requires Fair(r.schedule) && q < HandedOver(r.state(n).core)
    ensures m >= n
    ensures var s := r.state(m); q < |s.core.log| || Stuck(s)
  {
    var k := GoesOnOrStuck(r, n);
    m := k;
    LaterAt(r, n, k);
    if !Stuck(r.state(k)) {
      StateInv(r, k);
      if r.state(k).core.mirror == INIT {
        AllHandledBefore(r.state(k));
      } else {
        m := HandledWhenDone(r, k, q);
      }
    }
  }

  // ---------- What is held back is handed over ----------

  // Nothing more is handed over.
  ghost predicate Halted(s: State) {
    Stuck(s) || s.core.hungUp || s.core.gone
  }

  lemma FeedHandsOver(s: State)
    requires MayUseLoop(s.core) && s.core.pending != [] && !s.core.hungUp && !s.core.gone
    ensures HandedOver(Next(s, Feed).core) > HandedOver(s.core)
  {
    NextCore(s, Feed);
    if s.core.mirror == INIT {
      FeedFirstIs(s);
    } else {
      FeedAllIs(s);
    }
  }

  // Other steps keep what is held back, and the implementation may still go on.
  lemma StillMayFeed(s: State, l: Label)
    requires Inv(s) && MayUseLoop(s.core) && s.core.pending != [] && l != Feed
    ensures MayUseLoop(Next(s, l).core) && Next(s, l).core.pending != []
  {
    NextCore(s, l);
    if Enabled(s, l) {
      if l.Run? {
        RunMayFeed(s, l.thread);
      } else {
        OutsideMayFeed(s, l);
      }
    }
  }

  lemma OutsideMayFeed(s: State, l: Label)
    requires Enabled(s, l) && MayUseLoop(s.core) && s.core.pending != [] && l != Feed && !l.Run?
    ensures MayUseLoop(EffectOf(s, l).core) && EffectOf(s, l).core.pending != []
  {
    match l
    case Arrive(msg) => assert EffectOf(s, l).core.pending == s.core.pending + [msg];
    case HangUp => OutsideIs(s, HangUp);
    case FinishClose => OutsideIs(s, FinishClose);
    case AskAppClose => OutsideIs(s, AskAppClose);
  }

  lemma RunMayFeed(s: State, th: Thread)
    requires Inv(s) && MayUseLoop(s.core) && Queue(s, th) != []
    ensures var c := RunTask(s.core, th, Queue(s, th)[0]).core; MayUseLoop(c) && c.pending == s.core.pending
  {
    MirrorOfTask(s, th);
    PendingOfTask(s, th);
  }

  lemma PendingOfTask(s: State, th: Thread)
    requires Inv(s) && Queue(s, th) != []
    ensures RunTask(s.core, th, Queue(s, th)[0]).core.pending == s.core.pending
  {
    var t := Queue(s, th)[0];
    RunningSees(s, th);
    if t.OnInput? {
      HeadToken(See(Popped(s, Run(th))), th, t);
      InputBooks(s.core, t.msg);
    } else if t.OnInputs? {
      SeeBeforeInputs(s, th);
      BatchBooks(s.core, th, t.msgs);
    } else {
      PendingOfOther(See(Popped(s, Run(th))), th, t);
    }
  }

  lemma PendingOfOther(y: Sight, th: Thread, t: Task)
    requires Control(Before(y, th, t)) && AllCoherent(y) && !t.OnInput? && !t.OnInputs?
    ensures RunTask(y.core, th, t).core.pending == y.core.pending
  {
    if t.HandleInMsgs? {
      RunsLink(y.core, th, t.duplicate);
    } else if t.CloseProtocol? || t.AppClose? {
      PendingOfClose(y, th, t);
    } else if t.OnCleaned? {
      OnCleanedIs(y.core, th, t.cmd);
      UpgradeIs(AppendToEngine(Effect(y.core.(owner := th), []), t.cmd), true);
    } else if t.Clean? {
      HeadToken(y, th, t);
      CleanIs(y.core, th, t.cmd);
    } else if t.ImplMigrate? || t.OnMigrated? || t.ImplClean? {
      RunsHop(y.core, th, t.cmd);
    } else {
      PendingOfOwn(y, th, t);
    }
  }

  lemma PendingOfClose(y: Sight, th: Thread, t: Task)
    requires Control(Before(y, th, t)) && AllCoherent(y) && (t.CloseProtocol? || t.AppClose?)
    ensures RunTask(y.core, th, t).core.pending == y.core.pending
  {
    if t.AppClose? && !y.core.orphan {
      RunsAppClose(y.core, th);
    } else {
      CloseTaskRunsAtOwner(y, th, t);
      RunsClose(y.core, th, t);
    }
  }

  lemma PendingOfOwn(y: Sight, th: Thread, t: Task)
    requires Control(Before(y, th, t)) && AllCoherent(y)
    requires t.NotifyCleaned? || t.ImplOnCleaned? || t.ImplClose? || t.HandleStopGraph? || t.ProtocolClosed?
    ensures RunTask(y.core, th, t).core.pending == y.core.pending
  {
    if t.NotifyCleaned? {
      HeadToken(y, th, t);
      RunsNotify(y.core, th, t.reset);
    } else if t.ImplOnCleaned? {
      RunsImplOnCleaned(y.core, th, t.reset);
    } else if t.ImplClose? {
      RunsImplClose(y.core, th);
    } else if t.HandleStopGraph? {
      RunsStop(y.core, th);
    } else {
      ProtocolClosedIsLast(y, th);
      RunsClosed(y.core, th);
    }
  }

  lemma FeedAt(r: Execution, n: nat)
    requires r.Valid()
    requires r.schedule(n) == Feed
    requires var s := r.state(n);
             MayUseLoop(s.core) && s.core.pending != [] && !s.core.hungUp && !s.core.gone
    ensures HandedOver(r.state(n + 1).core) > HandedOver(r.state(n).core)
  {
    FeedHandsOver(r.state(n));
    NextState(r, n);
  }

  lemma NoFeedAt(r: Execution, n: nat)
    requires r.Valid()
    requires r.schedule(n) != Feed
    requires var s := r.state(n); MayUseLoop(s.core) && s.core.pending != []
    ensures var s := r.state(n + 1); MayUseLoop(s.core) && s.core.pending != []
  {
    StateInv(r, n);
    StillMayFeed(r.state(n), r.schedule(n));
    NextState(r, n);
  }

  lemma {:induction false} HandsOverBy(r: Execution, n: nat, k: nat) returns (m: nat)
    requires r.Valid()
    requires n <= k && r.schedule(k) == Feed
    requires var s := r.state(n); MayUseLoop(s.core) && s.core.pending != []
    ensures m >= n
    ensures var s := r.state(m);
            HandedOver(s.core) > HandedOver(r.state(n).core) || s.core.hungUp || s.core.gone
    decreases k - n
  {
    m := n;
    if !r.state(n).core.hungUp && !r.state(n).core.gone {
      if r.schedule(n) == Feed {
        FeedAt(r, n);
        m := n + 1;
      } else {
        NoFeedAt(r, n);
        LaterNext(r, n);
        m := HandsOverBy(r, n + 1, k);
      }
    }
  }

  lemma SomethingIsHandedOver(r: Execution, n: nat) returns (m: nat)
    requires r.Valid()
    requires Willing(r.schedule) && HandedOver(r.state(n).core) < |r.state(n).core.arrived|
    ensures m >= n
    ensures var s := r.state(m);
            HandedOver(s.core) > HandedOver(r.state(n).core) || Halted(s)
  {
    m := GoesOnOrStuck(r, n);
    LaterAt(r, n, m);
    var s := r.state(m);
    if !Stuck(s) && s.core.pending != [] {
      assert HappensAfter(r.schedule, Feed, m);
      var k :| k >= m && r.schedule(k) == Feed;
      m := HandsOverBy(r, m, k);
    }
  }

  // A message the client has sent is handled in the end, unless before that the first message
  // freezes the connection, or the client leaves, or the connection is closed.
  lemma {:induction false} EveryMessageIsHandled(r: Execution, n: nat, q: nat) returns (m: nat)
    requires r.Valid()
    requires Willing(r.schedule) && q < |r.state(n).core.arrived|
    ensures m >= n
    ensures var s, c := r.state(m), r.state(n).core;
            || Halted(s)
            || (q < |s.core.log| && s.core.log[q].msg == c.arrived[q])
    decreases q - HandedOver(r.state(n).core)
  {
    if q < HandedOver(r.state(n).core) {
      m := HandedOverIsHandled(r, n, q);
      LoggedAt(r, n, m, q);
    } else {
      var k := SomethingIsHandedOver(r, n);
      m := k;
      LaterAt(r, n, k);
      if !Halted(r.state(k)) {
        m := EveryMessageIsHandled(r, k, q);
      }
    }
  }

  lemma LoggedAt(r: Execution, n: nat, m: nat, q: nat)
    requires r.Valid()
    requires n <= m && q < |r.state(n).core.arrived|
    ensures var s, c := r.state(m), r.state(n).core;
            q < |s.core.log| ==> s.core.log[q].msg == c.arrived[q]
  {
    LaterAt(r, n, m);
    StateInv(r, m);
    if q < |r.state(m).core.log| {
      LoggedHaveArrived(r.state(m), q);
    }
  }

  // ---------- Closing ----------

  // A closing under way has left its trace: the request waits, or it was taken up.
  ghost predicate ClosingTraces(s: State) {
    && (s.core.protocolClosing ==> s.core.closeAsked || ImplClose in s.externalQ)
    && (s.core.hungUp ==> s.core.protocolClosing || Somewhere(s, CloseProtocol))
    && (s.core.hungUp ==> MayUseLoop(s.core))
  }

  // A task in a queue is still there after a step that does not run it.
  lemma TaskStays(s: State, l: Label, th: Thread, t: Task)
    requires t in Queue(s, th) && (l == Run(th) ==> Queue(s, th)[0] != t)
    ensures t in Queue(Next(s, l), th)
  {
    var i: nat :| i < |Queue(s, th)| && Queue(s, th)[i] == t;
    TaskMovesUp(s, l, th, i, t);
  }

  lemma CloseTaskTraces(s: State, th: Thread)
    requires Inv(s) && Queue(s, th) != [] && (Queue(s, th)[0].CloseProtocol? || (Queue(s, th)[0].AppClose? && s.core.orphan))
    ensures var s' := Next(s, Run(th));
            && s'.core.protocolClosing && s'.core.hungUp == s.core.hungUp && s'.core.mirror == s.core.mirror
            && (!s.core.protocolClosing ==> ImplClose in s'.externalQ)
  {
    CloseTaskCore(s, th);
    if !s.core.protocolClosing {
      CloseTaskPosts(s, th);
    }
  }

  lemma CloseTaskCore(s: State, th: Thread)
    requires Inv(s) && Queue(s, th) != [] && (Queue(s, th)[0].CloseProtocol? || (Queue(s, th)[0].AppClose? && s.core.orphan))
    ensures Next(s, Run(th)).core == s.core.(protocolClosing := true)
  {
    HeadIsRun(s, th, Queue(s, th)[0]);
    CloseTaskRuns(s, th);
  }

  lemma CloseTaskPosts(s: State, th: Thread)
    requires Inv(s) && Queue(s, th) != [] && (Queue(s, th)[0].CloseProtocol? || (Queue(s, th)[0].AppClose? && s.core.orphan))
    requires !s.core.protocolClosing
    ensures ImplClose in Next(s, Run(th)).externalQ
  {
    CloseTaskRuns(s, th);
    ImplCloseIsPosted(s, th);
  }

  lemma CloseTaskRuns(s: State, th: Thread)
    requires Inv(s) && Queue(s, th) != [] && (Queue(s, th)[0].CloseProtocol? || (Queue(s, th)[0].AppClose? && s.core.orphan))
    ensures RunTask(s.core, th, Queue(s, th)[0])
         == if s.core.protocolClosing then Effect(s.core, [])
            else Post(Effect(s.core.(protocolClosing := true), []), ExternalThread, ImplClose)
  {
    RunningSees(s, th);
    CloseTaskRunsAtOwner(See(Popped(s, Run(th))), th, Queue(s, th)[0]);
    RunsClose(s.core, th, Queue(s, th)[0]);
  }

  lemma ImplCloseIsPosted(s: State, th: Thread)
    requires Queue(s, th) != []
    requires RunTask(s.core, th, Queue(s, th)[0]).posts == [Posting(ExternalThread, ImplClose)]
    ensures ImplClose in Next(s, Run(th)).externalQ
  {
    var posts := [Posting(ExternalThread, ImplClose)];
    QueueAfterRun(s, th, ExternalThread);
    assert posts[1..] == [] && PostsTo(posts, ExternalThread) == [ImplClose] + PostsTo(posts[1..], ExternalThread);
  }

  // The flags of the closing are as before.
  predicate SameClosing(c: Core, d: Core) {
    c.protocolClosing == d.protocolClosing && c.hungUp == d.hungUp
  }

  lemma MessageFlags(y: Sight, th: Thread, t: Task)
    requires Control(Before(y, th, t)) && AllCoherent(y) && (t.OnInput? || t.OnInputs?)
    ensures SameClosing(y.core, RunTask(y.core, th, t).core)
  {
    if t.OnInput? {
      HeadToken(y, th, t);
      InputFlags(y.core, t.msg);
    } else {
      InputsReachRemote(y, th, t.msgs);
      BatchFlags(y.core, th, t.msgs);
    }
  }

  lemma CleaningFlags(y: Sight, th: Thread, t: Task)
    requires Control(Before(y, th, t)) && AllCoherent(y) && (t.Clean? || t.OnCleaned?)
    ensures SameClosing(y.core, RunTask(y.core, th, t).core)
  {
    HeadToken(y, th, t);
    if t.OnCleaned? {
      OnCleanedIs(y.core, th, t.cmd);
      AppendHandles(Effect(y.core.(owner := th), []), t.cmd);
      UpgradeHandles(AppendToEngine(Effect(y.core.(owner := th), []), t.cmd), true);
    } else {
      CleanIs(y.core, th, t.cmd);
      DelOrphanHandles(Effect(y.core, []));
    }
  }

  lemma HopFlags(y: Sight, th: Thread, t: Task)
    requires Control(Before(y, th, t)) && AllCoherent(y) && IsToken(t) && !t.OnInput? && !t.Clean? && !t.OnCleaned?
    ensures SameClosing(y.core, RunTask(y.core, th, t).core)
  {
    HeadToken(y, th, t);
    if t.NotifyCleaned? {
      RunsNotify(y.core, th, t.reset);
    } else if t.ImplOnCleaned? {
      RunsImplOnCleaned(y.core, th, t.reset);
    } else {
      RunsHop(y.core, th, t.cmd);
    }
  }

  lemma OwnFlags(y: Sight, th: Thread, t: Task)
    requires Control(Before(y, th, t)) && AllCoherent(y)
    requires t.ImplClose? || t.HandleStopGraph? || t.ProtocolClosed? || t.HandleInMsgs? || (t.AppClose? && !y.core.orphan)
    ensures SameClosing(y.core, RunTask(y.core, th, t).core)
  {
    if t.ImplClose? {
      RunsImplClose(y.core, th);
    } else if t.HandleStopGraph? {
      RunsStop(y.core, th);
    } else if t.ProtocolClosed? {
      ProtocolClosedIsLast(y, th);
      RunsClosed(y.core, th);
    } else if t.HandleInMsgs? {
      RunsLink(y.core, th, t.duplicate);
    } else {
      RunsAppClose(y.core, th);
    }
  }

  // The flags of the closing after a task that does not start it.
  lemma OtherTaskFlags(y: Sight, th: Thread, t: Task)
    requires Control(Before(y, th, t)) && AllCoherent(y) && !t.CloseProtocol? && !(t.AppClose? && y.core.orphan)
    ensures SameClosing(y.core, RunTask(y.core, th, t).core)
  {
    if t.OnInput? || t.OnInputs? {
      MessageFlags(y, th, t);
    } else if t.Clean? || t.OnCleaned? {
      CleaningFlags(y, th, t);
    } else if IsToken(t) {
      HopFlags(y, th, t);
    } else {
      OwnFlags(y, th, t);
    }
  }

  lemma StartTraces(s: State, th: Thread)
    requires Inv(s) && ClosingTraces(s) && Queue(s, th) != []
    requires Queue(s, th)[0].CloseProtocol? || (Queue(s, th)[0].AppClose? && s.core.orphan)
    ensures ClosingTraces(Next(s, Run(th)))
  {
    CloseTaskTraces(s, th);
    StepLater(s, Run(th));
    if s.core.protocolClosing && !Next(s, Run(th)).core.closeAsked {
      ImplCloseStays(s, th);
    }
  }

  lemma OtherTraces(s: State, th: Thread)
    requires Inv(s) && ClosingTraces(s) && Queue(s, th) != []
    requires !Queue(s, th)[0].CloseProtocol? && !(Queue(s, th)[0].AppClose? && s.core.orphan)
    ensures ClosingTraces(Next(s, Run(th)))
  {
    OtherStepFlags(s, th);
    StepLater(s, Run(th));
    if s.core.protocolClosing && !Next(s, Run(th)).core.closeAsked {
      ImplCloseStays(s, th);
    }
    if s.core.hungUp && !s.core.protocolClosing {
      RequestStays(s, Run(th));
    }
  }

  lemma OtherStepFlags(s: State, th: Thread)
    requires Inv(s) && Queue(s, th) != []
    requires !Queue(s, th)[0].CloseProtocol? && !(Queue(s, th)[0].AppClose? && s.core.orphan)
    ensures SameClosing(s.core, Next(s, Run(th)).core)
    ensures MayUseLoop(s.core) ==> MayUseLoop(Next(s, Run(th)).core)
  {
    RunningSees(s, th);
    NextCore(s, Run(th));
    MirrorOfTask(s, th);
    OtherTaskFlags(See(Popped(s, Run(th))), th, Queue(s, th)[0]);
  }

  lemma RunTraces(s: State, th: Thread)
    requires Inv(s) && ClosingTraces(s) && Queue(s, th) != []
    ensures ClosingTraces(Next(s, Run(th)))
  {
    if Queue(s, th)[0].CloseProtocol? || (Queue(s, th)[0].AppClose? && s.core.orphan) {
      StartTraces(s, th);
    } else {
      OtherTraces(s, th);
    }
  }

  lemma ImplCloseStays(s: State, th: Thread)
    requires Queue(s, th) != [] && ImplClose in s.externalQ && !Next(s, Run(th)).core.closeAsked
    ensures ImplClose in Next(s, Run(th)).externalQ
  {
    if th == ExternalThread && s.externalQ[0] == ImplClose {
      NextCore(s, Run(th));
      RunsImplClose(s.core, th);
    }
    TaskStays(s, Run(th), ExternalThread, ImplClose);
  }

  lemma RequestStays(s: State, l: Label)
    requires Somewhere(s, CloseProtocol) && (l.Run? && Queue(s, l.thread) != [] ==> Queue(s, l.thread)[0] != CloseProtocol)
    ensures Somewhere(Next(s, l), CloseProtocol)
  {
    var th :| CloseProtocol in Queue(s, th);
    TaskStays(s, l, th, CloseProtocol);
  }

  lemma OutsideTraces(s: State, l: Label)
    requires Inv(s) && ClosingTraces(s) && Enabled(s, l) && !l.Run?
    ensures ClosingTraces(Next(s, l))
  {
    OutsideFlags(s, l);
    if ImplClose in s.externalQ {
      TaskStays(s, l, ExternalThread, ImplClose);
    }
    if l.HangUp? {
      RequestIsPosted(s);
    } else if s.core.hungUp && !s.core.protocolClosing {
      RequestStays(s, l);
    }
  }

  lemma OutsideFlags(s: State, l: Label)
    requires Enabled(s, l) && !l.Run?
    ensures var c := Next(s, l).core;
            && c.protocolClosing == s.core.protocolClosing && c.closeAsked == s.core.closeAsked
            && (c.hungUp <==> s.core.hungUp || l.HangUp?)
            && (c.hungUp ==> c.mirror == s.core.mirror) && (l.HangUp? ==> MayUseLoop(s.core))
  {
    NextCore(s, l);
    if l.Feed? {
      FeedFlags(s);
    } else if !l.Arrive? {
      OutsideIs(s, l);
    }
  }

  lemma FeedFlags(s: State)
    requires Enabled(s, Feed)
    ensures var c := EffectOf(s, Feed).core;
            c.protocolClosing == s.core.protocolClosing && c.closeAsked == s.core.closeAsked && !c.hungUp && !s.core.hungUp
  {
    if s.core.mirror == INIT {
      FeedFirstIs(s);
    } else {
      FeedAllIs(s);
    }
  }

  lemma RequestIsPosted(s: State)
    requires Enabled(s, HangUp)
    ensures Somewhere(Next(s, HangUp), CloseProtocol)
  {
    var th := AttachedLoop(s.core);
    var posts := [Posting(th, CloseProtocol)];
    OutsideIs(s, HangUp);
    QueueAfter(s, HangUp, th);
    assert posts[1..] == [] && PostsTo(posts, th) == [CloseProtocol] + PostsTo(posts[1..], th);
    assert CloseProtocol in Queue(Next(s, HangUp), th);
  }

  lemma {:induction false} RunAllTraces(s: State, labels: seq<Label>)
    requires Inv(s) && ClosingTraces(s)
    ensures ClosingTraces(RunAll(s, labels))
    decreases |labels|
  {
    if labels != [] {
      StepKeepsInv(s, labels[0]);
      StepTraces(s, labels[0]);
      RunAllTraces(Next(s, labels[0]), labels[1..]);
    }
  }

  lemma TracesAt(r: Execution, n: nat)
    requires r.Valid()
    ensures ClosingTraces(r.state(n))
  {
    InitInv(r.ownLoop);
    StateIsReached(r, n);
    RunAllTraces(Init(r.ownLoop), FirstLabels(r.schedule, n));
  }

  lemma StepTraces(s: State, l: Label)
    requires Inv(s) && ClosingTraces(s)
    ensures ClosingTraces(Next(s, l))
  {
    if Enabled(s, l) {
      if l.Run? {
        RunTraces(s, l.thread);
      } else {
        OutsideTraces(s, l);
      }
    }
  }

  // The implementation is told.
  lemma ClosingIsAsked(r: Execution, n: nat) returns (m: nat)
    requires r.Valid()
    requires Fair(r.schedule) && r.state(n).core.protocolClosing
    ensures m >= n && r.state(m).core.closeAsked
  {
    m := n;
    if !r.state(n).core.closeAsked {
      TracesAt(r, n);
      var q := r.state(n).externalQ;
      var i: nat :| i < |q| && q[i] == ImplClose;
      var k := TaskIsRun(r, n, ExternalThread, i, ImplClose);
      AskedAt(r, k);
      m := k + 1;
    }
  }

  lemma AskedAt(r: Execution, k: nat)
    requires r.Valid()
    requires r.schedule(k) == Run(ExternalThread) && WaitsAt(r.state(k), ExternalThread, 0, ImplClose)
    ensures r.state(k + 1).core.closeAsked
  {
    HeadIsRun(r.state(k), ExternalThread, ImplClose);
    RunsImplClose(r.state(k).core, ExternalThread);
    NextState(r, k);
  }

  // A first message that comes too late.
  lemma LateInputSticks(r: Execution, n: nat, i: nat, msg: Msg) returns (m: nat)
    requires r.Valid()
    requires Fair(r.schedule) && r.state(n).core.protocolClosing
    requires WaitsAt(r.state(n), AppThread, i, OnInput(msg))
    ensures m >= n && Stuck(r.state(m))
  {
    var k := TaskIsRun(r, n, AppThread, i, OnInput(msg));
    LaterAt(r, n, k);
    SticksAt(r, k, msg);
    m := k + 1;
  }

  lemma SticksAt(r: Execution, k: nat, msg: Msg)
    requires r.Valid()
    requires r.schedule(k) == Run(AppThread) && r.state(k).core.protocolClosing
    requires WaitsAt(r.state(k), AppThread, 0, OnInput(msg))
    ensures Stuck(r.state(k + 1))
  {
    StateInv(r, k);
    RunsFirst(r.state(k));
    NextState(r, k);
  }

  lemma FirstIsPosted(s: State) returns (i: nat)
    requires Enabled(s, Feed) && s.core.mirror == INIT && AttachedLoop(s.core) == AppThread
    ensures WaitsAt(Next(s, Feed), AppThread, i, OnInput(s.core.pending[0]))
  {
    var t := OnInput(s.core.pending[0]);
    var posts := [Posting(AppThread, t)];
    FeedFirstIs(s);
    QueueAfter(s, Feed, AppThread);
    assert posts[1..] == [] && PostsTo(posts, AppThread) == [t] + PostsTo(posts[1..], AppThread);
    i := |s.appQ|;
  }

  lemma IdleIsAtApp(s: State)
    requires Inv(s) && s.core.mirror == INIT
    ensures AttachedLoop(s.core) == AppThread
  {
    assert TokenOf(See(s)) == NoToken;
  }

  // Steps other than handing over the first message let the implementation close.
  lemma MayStillClose(s: State, l: Label)
    requires Inv(s) && MayUseLoop(s.core) && !(l == Feed && s.core.mirror == INIT && Enabled(s, Feed))
    ensures MayUseLoop(Next(s, l).core)
  {
    NextCore(s, l);
    if Enabled(s, l) {
      if l.Run? {
        MirrorOfTask(s, l.thread);
      } else if l.Feed? {
        FeedAllIs(s);
      } else if !l.Arrive? {
        OutsideIs(s, l);
      }
    }
  }

  lemma MayCloseAt(r: Execution, n: nat)
    requires r.Valid()
    requires var s := r.state(n);
             MayUseLoop(s.core) && !(r.schedule(n) == Feed && s.core.mirror == INIT && Enabled(s, Feed))
    ensures MayUseLoop(r.state(n + 1).core)
  {
    StateInv(r, n);
    MayStillClose(r.state(n), r.schedule(n));
    NextState(r, n);
  }

  lemma FinishesAt(r: Execution, n: nat)
    requires r.Valid()
    requires r.schedule(n) == FinishClose
    requires var s := r.state(n); s.core.closeAsked && MayUseLoop(s.core)
    ensures r.state(n + 1).core.gone
  {
    var s := r.state(n);
    NextState(r, n);
    NextCore(s, FinishClose);
    if !s.core.gone {
      OutsideIs(s, FinishClose);
    }
  }

  lemma LateFeedSticks(r: Execution, n: nat) returns (m: nat)
    requires r.Valid() && Fair(r.schedule) && r.schedule(n) == Feed
    requires var s := r.state(n); s.core.protocolClosing && s.core.mirror == INIT && Enabled(s, Feed)
    ensures m >= n && Stuck(r.state(m))
  {
    var i := FirstIsPostedAt(r, n);
    LaterNext(r, n);
    m := LateInputSticks(r, n + 1, i, r.state(n).core.pending[0]);
  }

  lemma FirstIsPostedAt(r: Execution, n: nat) returns (i: nat)
    requires r.Valid() && r.schedule(n) == Feed
    requires var s := r.state(n); s.core.mirror == INIT && Enabled(s, Feed)
    ensures WaitsAt(r.state(n + 1), AppThread, i, OnInput(r.state(n).core.pending[0]))
  {
    StateInv(r, n);
    NextState(r, n);
    IdleIsAtApp(r.state(n));
    i := FirstIsPosted(r.state(n));
  }

  lemma {:induction false} ClosesBy(r: Execution, n: nat, k: nat) returns (m: nat)
    requires r.Valid() && Fair(r.schedule) && n <= k && r.schedule(k) == FinishClose
    requires var c := r.state(n).core; c.closeAsked && c.protocolClosing && MayUseLoop(c)
    ensures m >= n && (r.state(m).core.gone || Stuck(r.state(m)))
    decreases k - n
  {
    var s := r.state(n);
    if n == k {
      FinishesAt(r, n);
      m := n + 1;
    } else if r.schedule(n) == Feed && s.core.mirror == INIT && Enabled(s, Feed) {
      m := LateFeedSticks(r, n);
    } else {
      LaterNext(r, n);
      MayCloseAt(r, n);
      m := ClosesBy(r, n + 1, k);
    }
  }

  lemma AskedMeansClosing(s: State)
    requires Inv(s) && s.core.closeAsked
    ensures s.core.protocolClosing
  {
  }

  lemma AskedCloses(r: Execution, n: nat) returns (m: nat)
    requires r.Valid()
    requires Willing(r.schedule) && r.state(n).core.closeAsked
    ensures m >= n && (r.state(m).core.gone || Stuck(r.state(m)))
  {
    m := GoesOnOrStuck(r, n);
    LaterAt(r, n, m);
    if !Stuck(r.state(m)) {
      StateInv(r, m);
      AskedMeansClosing(r.state(m));
      assert HappensAfter(r.schedule, FinishClose, m);
      var k :| k >= m && r.schedule(k) == FinishClose;
      m := ClosesBy(r, m, k);
    }
  }

  lemma {:induction false} EndIn(th: Thread, q: seq<Task>) returns (i: nat)
    requires ViewOf(th, q).ends > 0
    ensures i < |q| && q[i] == ProtocolClosed
  {
    if q[0].ProtocolClosed? {
      i := 0;
    } else {
      i := EndIn(th, q[1..]);
      i := i + 1;
    }
  }

  lemma EndWaits(s: State) returns (th: Thread, i: nat)
    requires Inv(s) && s.core.gone && !s.core.destroyed
    ensures WaitsAt(s, th, i, ProtocolClosed)
  {
    th := if See(s).app.ends > 0 then AppThread else EngineThread;
    SeeAt(s, th);
    i := EndIn(th, Queue(s, th));
  }

  lemma EndWaitsAt(r: Execution, n: nat) returns (th: Thread, i: nat)
    requires r.Valid()
    requires var c := r.state(n).core; c.gone && !c.destroyed
    ensures WaitsAt(r.state(n), th, i, ProtocolClosed)
  {
    StateInv(r, n);
    th, i := EndWaits(r.state(n));
  }

  lemma DestroyedAt(r: Execution, k: nat, th: Thread)
    requires r.Valid()
    requires r.schedule(k) == Run(th) && WaitsAt(r.state(k), th, 0, ProtocolClosed)
    ensures r.state(k + 1).core.destroyed
  {
    HeadIsRun(r.state(k), th, ProtocolClosed);
    RunsClosed(r.state(k).core, th);
    NextState(r, k);
  }

  lemma EndIsRun(r: Execution, n: nat) returns (th: Thread, k: nat)
    requires r.Valid()
    requires Fair(r.schedule)
    requires var c := r.state(n).core; c.gone && !c.destroyed
    ensures k >= n && r.schedule(k) == Run(th) && WaitsAt(r.state(k), th, 0, ProtocolClosed)
  {
    var i;
    th, i := EndWaitsAt(r, n);
    k := TaskIsRun(r, n, th, i, ProtocolClosed);
  }

  lemma ClosedIsDestroyed(r: Execution, n: nat) returns (m: nat)
    requires r.Valid()
    requires Fair(r.schedule) && r.state(n).core.gone
    ensures m >= n && r.state(m).core.destroyed
  {
    m := n;
    if !r.state(n).core.destroyed {
      var th, k := EndIsRun(r, n);
      DestroyedAt(r, k, th);
      m := k + 1;
    }
  }

  // A connection whose protocol is told to close is destroyed in the end, unless its first
  // message freezes it.
  lemma EveryClosingEnds(r: Execution, n: nat) returns (m: nat)
    requires r.Valid()
    requires Willing(r.schedule) && r.state(n).core.protocolClosing
    ensures m >= n && (r.state(m).core.destroyed || Stuck(r.state(m)))
  {
    var asked := ClosingIsAsked(r, n);
    m := AskedCloses(r, asked);
    if !Stuck(r.state(m)) {
      m := ClosedIsDestroyed(r, m);
    }
  }

  lemma RequestIsRun(r: Execution, n: nat) returns (m: nat)
    requires r.Valid()
    requires Fair(r.schedule) && Somewhere(r.state(n), CloseProtocol)
    ensures m >= n && r.state(m).core.protocolClosing
  {
    var th :| CloseProtocol in Queue(r.state(n), th);
    var q := Queue(r.state(n), th);
    var i: nat :| i < |q| && q[i] == CloseProtocol;
    var k := TaskIsRun(r, n, th, i, CloseProtocol);
    RequestAt(r, k, th);
    m := k + 1;
  }

  lemma RequestAt(r: Execution, k: nat, th: Thread)
    requires r.Valid()
    requires r.schedule(k) == Run(th) && WaitsAt(r.state(k), th, 0, CloseProtocol)
    ensures r.state(k + 1).core.protocolClosing
  {
    StateInv(r, k);
    CloseTaskTraces(r.state(k), th);
    NextState(r, k);
  }

  // A connection whose client has left is destroyed in the end, without exception.
  lemma EveryLeftConnectionIsDestroyed(r: Execution, n: nat) returns (m: nat)
    requires r.Valid()
    requires Willing(r.schedule) && r.state(n).core.hungUp
    ensures m >= n && r.state(m).core.destroyed
  {
    TracesAt(r, n);
    var k := n;
    if !r.state(n).core.protocolClosing {
      k := RequestIsRun(r, n);
    }
    m := EveryClosingEnds(r, k);
    LaterAt(r, n, m);
    TracesAt(r, m);
  }

  // ---------- Such schedules exist ----------

  function EverythingInTurn(n: nat): Label {
    match n % 5
    case 0 => Run(AppThread)
    case 1 => Run(EngineThread)
    case 2 => Run(ExternalThread)
    case 3 => Feed
    case _ => FinishClose
  }

  lemma EverythingInTurnIsWilling()
    ensures Willing(EverythingInTurn)
  {
    forall th: Thread, n: nat
      ensures RunsAfter(EverythingInTurn, th, n)
    {
      var m := 5 * n + if th == AppThread then 0 else if th == EngineThread then 1 else 2;
      assert EverythingInTurn(m) == Run(th);
    }
    forall n: nat
      ensures HappensAfter(EverythingInTurn, Feed, n) && HappensAfter(EverythingInTurn, FinishClose, n)
    {
      assert EverythingInTurn(5 * n + 3) == Feed && EverythingInTurn(5 * n + 4) == FinishClose;
    }
  }
}
