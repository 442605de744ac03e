/**
  Every migration attempt comes to its end, whatever else the threads have to do.
 */
module MigrationProgress {
  import opened Migration
  import opened MigrationViews
  import opened MigrationSafety
  import opened MigrationTasks
  import opened MigrationRuns
  import opened MigrationLog
  import opened MigrationLaws

  // The hops that a task of the migration has still in front of it.
  function Rank(t: Task): nat {
    match t
    case OnInput(_) => 8
    case ImplMigrate(_) => 7
    case OnMigrated(_) => 6
    case Clean(_) => 5
    case ImplClean(_) => 4
    case OnCleaned(_) => 3
    case NotifyCleaned(_) => 2
    case ImplOnCleaned(_) => 1
    case _ => 0
  }

  // ---------- What a step does to the queues ----------

  function PostsTo(posts: seq<Posting>, th: Thread): seq<Task>
    decreases |posts|
  {
    if posts == [] then [] else
      (if posts[0].thread == th then [posts[0].task] else []) + PostsTo(posts[1..], th)
  }

  lemma {:induction false} PostedToIsPosted(posts: seq<Posting>, th: Thread, i: nat)
    requires i < |PostsTo(posts, th)|
    ensures Posting(th, PostsTo(posts, th)[i]) in posts
    decreases |posts|
  {
    var skipped := if posts[0].thread == th then 1 else 0;
    if i >= skipped {
      PostedToIsPosted(posts[1..], th, i - skipped);
    }
  }

  lemma {:induction false} QueueDelivered(s: State, posts: seq<Posting>, th: Thread)
    ensures Queue(Deliver(s, posts), th) == Queue(s, th) + PostsTo(posts, th)
    decreases |posts|
  {
    if posts != [] {
      var p := posts[0];
      var s1 := WithQueue(s, p.thread, Queue(s, p.thread) + [p.task]);
      var here := if p.thread == th then [p.task] else [];
      QueueDelivered(s1, posts[1..], th);
      assert Queue(s1, th) == Queue(s, th) + here;
      assert Queue(s, th) + here + PostsTo(posts[1..], th) == Queue(s, th) + (here + PostsTo(posts[1..], th));
    }
  }

  lemma QueueAfter(s: State, l: Label, th: Thread)
    requires Enabled(s, l)
    ensures Queue(Next(s, l), th) == Queue(Popped(s, l), th) + PostsTo(EffectOf(s, l).posts, th)
  {
    var e := EffectOf(s, l);
    QueueDelivered(Popped(s, l).(core := e.core), e.posts, th);
  }

  // A token waits until its thread gets to it.
  lemma TokenMovesUp(s: State, l: Label, th: Thread, i: nat, t: Task)
    requires Waits(s, th, i, t) && (l == Run(th) ==> i > 0)
    ensures Waits(Next(s, l), th, if l == Run(th) then i - 1 else i, t)
  {
    if Enabled(s, l) {
      QueueAfter(s, l, th);
    }
  }

  // A task posts only what comes after it.
  lemma PostsComeAfter(c: Core, th: Thread, t: Task, p: Posting)
    requires IsToken(t) && !t.OnInput? && p in RunTask(c, th, t).posts && IsToken(p.task)
    ensures Rank(p.task) < Rank(t)
  {
    if t.NotifyCleaned? {
      RunsNotify(c, th, t.reset);
    } else if t.Clean? {
      CleanPosts(c, th, t.cmd);
    } else if t.OnCleaned? {
      OnCleanedPosts(c, th, t.cmd);
    } else if !t.ImplOnCleaned? {
      RunsHop(c, th, t.cmd);
    }
  }

  lemma CleanPosts(c: Core, th: Thread, cmd: Msg)
    ensures RunTask(c, th, Clean(cmd)).posts == [Posting(ExternalThread, ImplClean(cmd))]
  {
    CleanIs(c, th, cmd);
    DelOrphanPosts(Assert(Assert(Effect(c, []), c.owner == th), c.attach == APP));
  }

  lemma DelOrphanPosts(e: Effect)
    ensures DelOrphan(e).posts == e.posts
  {
    if e.core.orphan {
    }
  }

  lemma OnCleanedPosts(c: Core, th: Thread, cmd: Msg)
    ensures forall p | p in RunTask(c, th, OnCleaned(cmd)).posts :: p.task.NotifyCleaned? || p.task.HandleInMsgs?
  {
    var d := AppendToEngine(Effect(c.(owner := th), []), cmd);
    assert RunTask(c, th, OnCleaned(cmd)) == UpgradeToDone(d, true);
  }

  predicate NoInput(e: Effect) {
    forall p | p in e.posts :: !p.task.OnInput?
  }

  lemma InputIsNotPosted(c: Core, th: Thread, msg: Msg)
    ensures NoInput(RunTask(c, th, OnInput(msg)))
  {
    var e := Assert(Effect(c, []), c.owner == th);
    assert NoInput(HandleInput(e, msg)) by {
      var e1 := Assert(e, e.core.migration == INIT || e.core.migration == DONE);
      var e2 := if e1.core.migration == INIT then e1.(core := e1.core.(migration := FIRST_MSG)) else e1;
      CommandPostsNoInput(e2, msg);
    }
  }

  lemma CommandPostsNoInput(e: Effect, msg: Msg)
    requires e.posts == []
    ensures NoInput(OnMsg(e, msg))
  {
    var e1 := Assert(e, e.core.attach == APP || e.core.attach == REMOTE);
    if e.core.attach == APP && msg.Cmd? {
      assert OnMsg(e, msg) == AppHandleInMsg(e1, msg);
      RoutePostsNoInput(e1, msg);
    }
  }

  lemma PostingNoInput(e: Effect, th: Thread, t: Task)
    requires NoInput(e) && !t.OnInput?
    ensures NoInput(Post(e, th, t))
  {
  }

  lemma RoutePostsNoInput(e: Effect, msg: Msg)
    requires e.posts == [] && msg.Cmd?
    ensures NoInput(AppHandleInMsg(e, msg))
  {
    var e1 := Assert(e, e.core.migration == FIRST_MSG || e.core.migration == DONE);
    match msg.route
    case ToEngine(_) => MigratingPostsNoInput(e1, msg);
    case EngineNotFound =>
      var e2 := Assert(e1, e1.core.attach == APP);
      PostingNoInput(e2.(core := e2.core.(migration := INIT)), AttachedLoop(e1.core), NotifyCleaned(true));
    case CloseApp => ClosingPostsNoInput(e1);
    case ToApp =>
    case StopGraph(found) =>
      if found {
        PostingNoInput(Log(e1, msg, SentToStop), EngineLoop(e1.core), HandleStopGraph);
      }
    case StartGraphRejected =>
  }

  lemma MigratingPostsNoInput(e: Effect, cmd: Msg)
    requires e.posts == []
    ensures NoInput(MigrateOrPush(e, cmd))
  {
    AppendingPostsNoInput(e, cmd);
    if e.core.migration == FIRST_MSG && !e.core.ownLoop {
      var d := DelOrphan(Assert(e, e.core.attach == APP));
      UpgradingPostsNoInput(d, true);
      AppendingPostsNoInput(UpgradeToDone(d, true), cmd);
    }
  }

  lemma UpgradingPostsNoInput(e: Effect, engine: bool)
    requires NoInput(e)
    ensures NoInput(UpgradeToDone(e, engine))
  {
  }

  lemma AppendingPostsNoInput(e: Effect, cmd: Msg)
    requires NoInput(e)
    ensures NoInput(AppendToEngine(e, cmd))
  {
  }

  lemma ClosingPostsNoInput(e: Effect)
    requires e.posts == []
    ensures NoInput(RequestAppClose(UpgradeToDone(e, false)))
  {
    assert NoInput(UpgradeToDone(e, false));
  }

  lemma QueueAfterRun(s: State, th: Thread, th': Thread)
    requires Queue(s, th) != []
    ensures Queue(Next(s, Run(th)), th')
         == Queue(Popped(s, Run(th)), th') + PostsTo(RunTask(s.core, th, Queue(s, th)[0]).posts, th')
  {
    QueueAfter(s, Run(th), th');
  }

  // What waits after the token was run, and did not wait before, was posted by it.
  lemma TokenWasPosted(s: State, th: Thread, t: Task, th': Thread, j: nat, t': Task)
    requires Inv(s) && Waits(s, th, 0, t) && Waits(Next(s, Run(th)), th', j, t')
    ensures Posting(th', t') in RunTask(s.core, th, t).posts
  {
    TokenWaits(s, th, 0, t);
    NewTaskWasPosted(s, th, t, th', j, t');
  }

  lemma NewTaskWasPosted(s: State, th: Thread, t: Task, th': Thread, j: nat, t': Task)
    requires Waits(s, th, 0, t) && Waits(Next(s, Run(th)), th', j, t')
    requires !Waits(s, th', if th' == th then j + 1 else j, t')
    ensures Posting(th', t') in RunTask(s.core, th, t).posts
  {
    QueueAfterRun(s, th, th');
    RestIsOld(s, th, th');
    PostedAtTheEnd(Queue(Popped(s, Run(th)), th'), RunTask(s.core, th, t).posts, th', j);
  }

  lemma PostedAtTheEnd(rest: seq<Task>, posts: seq<Posting>, th: Thread, j: nat)
    requires |rest| <= j < |rest + PostsTo(posts, th)|
    ensures Posting(th, (rest + PostsTo(posts, th))[j]) in posts
  {
    PostedToIsPosted(posts, th, j - |rest|);
  }

  lemma RestIsOld(s: State, th: Thread, th': Thread)
    requires Queue(s, th) != []
    ensures var rest := Queue(Popped(s, Run(th)), th');
            forall j | 0 <= j < |rest| && IsToken(rest[j]) :: Waits(s, th', if th' == th then j + 1 else j, rest[j])
  {
  }

  // When the thread gets to the token, what comes next is nearer to the end.
  lemma TokenIsRun(s: State, th: Thread, t: Task, th': Thread, j: nat, t': Task)
    requires Inv(s) && Waits(s, th, 0, t) && Waits(Next(s, Run(th)), th', j, t')
    ensures Rank(t') < Rank(t)
  {
    TokenWasPosted(s, th, t, th', j, t');
    NextIsNearer(s.core, th, t, Posting(th', t'));
  }

  lemma NextIsNearer(c: Core, th: Thread, t: Task, p: Posting)
    requires IsToken(t) && p in RunTask(c, th, t).posts && IsToken(p.task)
    ensures Rank(p.task) < Rank(t)
  {
    if t.OnInput? {
      InputIsNotPosted(c, th, t.msg);
    } else {
      PostsComeAfter(c, th, t, p);
    }
  }

  lemma TokenIsPassedOn(s: State, th: Thread, t: Task)
    requires Inv(s) && Waits(s, th, 0, t) && !t.OnInput?
    requires forall th', j, t' :: !Waits(Next(s, Run(th)), th', j, t')
    ensures Next(s, Run(th)).core.mirror != FIRST_MSG
  {
    var y := See(Popped(s, Run(th)));
    RunningSees(s, th);
    RunningKeepsInv(s, th);
    NoTokenWaits(Next(s, Run(th)));
    TokenGoesOn(y, th, t);
  }

  // ---------- Infinite runs ----------

  // A run that goes on for ever: what happens at every time, and the state before it.
  datatype Execution = Execution(ownLoop: bool, schedule: nat -> Label, state: nat -> State) {
    ghost predicate Valid() {
      state(0) == Init(ownLoop) && forall n: nat :: Steps(n)
    }

    ghost predicate Steps(n: nat) {
      state(n + 1) == Next(state(n), schedule(n))
    }
  }

  ghost predicate RunsAfter(schedule: nat -> Label, th: Thread, n: nat) {
    exists m: nat :: m >= n && schedule(m) == Run(th)
  }

  // Every thread gets to run again and again.
  ghost predicate Fair(schedule: nat -> Label) {
    forall th, n: nat :: RunsAfter(schedule, th, n)
  }

  // The labels of the first n steps.
  function FirstLabels(schedule: nat -> Label, n: nat): seq<Label> {
    seq(n, i requires 0 <= i < n => schedule(i))
  }

  // Every state of an infinite run is reached by a finite one.
  lemma {:induction false} StateIsReached(r: Execution, n: nat)
    requires r.Valid()
    ensures r.state(n) == Reached(r.ownLoop, FirstLabels(r.schedule, n))
  {
    if n > 0 {
      StateIsReached(r, n - 1);
      assert r.Steps(n - 1);
      RunAllLast(Init(r.ownLoop), FirstLabels(r.schedule, n - 1), r.schedule(n - 1));
      assert FirstLabels(r.schedule, n) == FirstLabels(r.schedule, n - 1) + [r.schedule(n - 1)];
    }
  }

  // Every schedule has an execution.
  function Following(ownLoop: bool, schedule: nat -> Label): Execution {
    Execution(ownLoop, schedule, (n: nat) => Reached(ownLoop, FirstLabels(schedule, n)))
  }

  lemma FollowingIsValid(ownLoop: bool, schedule: nat -> Label)
    ensures Following(ownLoop, schedule).Valid()
  {
    var r := Following(ownLoop, schedule);
    forall n: nat
      ensures r.Steps(n)
    {
      RunAllLast(Init(ownLoop), FirstLabels(schedule, n), schedule(n));
      assert FirstLabels(schedule, n + 1) == FirstLabels(schedule, n) + [schedule(n)];
    }
  }

  lemma StateInv(r: Execution, n: nat)
    requires r.Valid()
    ensures Inv(r.state(n)) && LogInv(r.state(n))
  {
    StateIsReached(r, n);
    ReachedKeepsInv(r.ownLoop, FirstLabels(r.schedule, n));
  }

  lemma NextState(r: Execution, n: nat)
    requires r.Valid()
    ensures r.state(n + 1) == Next(r.state(n), r.schedule(n))
  {
    assert r.Steps(n);
  }

  // No task of a migration waits; if t was beyond the first message, the implementation
  // protocol goes on.
  ghost predicate Ended(s: State, t: Task) {
    && (forall th, j, t' :: !Waits(s, th, j, t'))
    && (!t.OnInput? ==> s.core.mirror != FIRST_MSG)
  }

  // One step from a state with a token: the token is gone, or it is where the next token is.
  lemma TokenStep(s: State, l: Label, th: Thread, i: nat, t: Task)
    returns (gone: bool, th': Thread, i': nat, t': Task)
    requires Inv(s) && Waits(s, th, i, t)
    ensures gone ==> Ended(Next(s, l), t)
    ensures !gone ==> Waits(Next(s, l), th', i', t')
    ensures !gone && l != Run(th) ==> th' == th && i' == i && t' == t
    ensures !gone && l == Run(th) ==> Rank(t') < Rank(t) || (th' == th && i' < i && t' == t)
  {
    if l == Run(th) && i == 0 {
      gone, th', i', t' := TokenRuns(s, th, t);
    } else {
      gone, th', i', t' := false, th, if l == Run(th) then i - 1 else i, t;
      TokenMovesUp(s, l, th, i, t);
    }
  }

  lemma TokenRuns(s: State, th: Thread, t: Task)
    returns (gone: bool, th': Thread, i': nat, t': Task)
    requires Inv(s) && Waits(s, th, 0, t)
    ensures gone ==> Ended(Next(s, Run(th)), t)
    ensures !gone ==> Waits(Next(s, Run(th)), th', i', t') && Rank(t') < Rank(t)
  {
    gone, th', i', t' := true, th, 0, t;
    if th'', j: nat, t'' :| Waits(Next(s, Run(th)), th'', j, t'') {
      TokenIsRun(s, th, t, th'', j, t'');
      gone, th', i', t' := false, th'', j, t'';
    } else if !t.OnInput? {
      TokenIsPassedOn(s, th, t);
    }
  }

  lemma TokenStepAt(r: Execution, n: nat, th: Thread, i: nat, t: Task)
    returns (gone: bool, th': Thread, i': nat, t': Task)
    requires r.Valid() && Waits(r.state(n), th, i, t)
    ensures gone ==> Ended(r.state(n + 1), t)
    ensures !gone ==> Waits(r.state(n + 1), th', i', t')
    ensures !gone && r.schedule(n) != Run(th) ==> th' == th && i' == i && t' == t
    ensures !gone && r.schedule(n) == Run(th) ==> Rank(t') < Rank(t) || (th' == th && i' < i && t' == t)
  {
    StateInv(r, n);
    NextState(r, n);
    gone, th', i', t' := TokenStep(r.state(n), r.schedule(n), th, i, t);
  }

  lemma RunsAgain(schedule: nat -> Label, th: Thread, n: nat) returns (next: nat)
    requires Fair(schedule)
    ensures next >= n && schedule(next) == Run(th)
  {
    assert RunsAfter(schedule, th, n);
    next :| next >= n && schedule(next) == Run(th);
  }

  // The token at n is gone at m; next is a time, from n on, at which its thread runs.
  lemma {:induction false} TokenEnds(r: Execution, n: nat, next: nat, th: Thread, i: nat, t: Task)
    returns (m: nat)
    requires r.Valid() && Fair(r.schedule) && Waits(r.state(n), th, i, t)
    requires next >= n && r.schedule(next) == Run(th)
    ensures m > n && Ended(r.state(m), t)
    decreases Rank(t), i, next - n
  {
    var gone, th', i', t' := TokenStepAt(r, n, th, i, t);
    if gone {
      m := n + 1;
    } else if r.schedule(n) != Run(th) {
      m := TokenEnds(r, n + 1, next, th, i, t);
    } else {
      var next' := RunsAgain(r.schedule, th', n + 1);
      m := TokenEnds(r, n + 1, next', th', i', t');
    }
  }

  // Under every fair schedule an attempt that has got past its first message ends with the
  // implementation protocol going on, migrated or reset.
  lemma EveryMigrationCompletes(r: Execution, n: nat, th: Thread, i: nat, t: Task)
    returns (m: nat)
    requires r.Valid() && Fair(r.schedule) && Waits(r.state(n), th, i, t) && !t.OnInput?
    ensures m > n && MayUseLoop(r.state(m).core)
  {
    var next := RunsAgain(r.schedule, th, n);
    m := TokenEnds(r, n, next, th, i, t);
  }

  // A first message that waits is taken; then the attempt completes, or it is stuck for ever.
  lemma EveryFirstMessageIsTaken(r: Execution, n: nat, th: Thread, i: nat, msg: Msg)
    returns (m: nat)
    requires r.Valid() && Fair(r.schedule) && Waits(r.state(n), th, i, OnInput(msg))
    ensures m > n
    ensures var s := r.state(m); MayUseLoop(s.core) || Stuck(s)
  {
    var next := RunsAgain(r.schedule, th, n);
    m := TokenEnds(r, n, next, th, i, OnInput(msg));
  }

  // Such schedules exist: the threads take turns.
  function TakingTurns(n: nat): Label {
    Run(if n % 3 == 0 then AppThread else if n % 3 == 1 then EngineThread else ExternalThread)
  }

  lemma TakingTurnsIsFair()
    ensures Fair(TakingTurns)
  {
    forall th: Thread, n: nat
      ensures RunsAfter(TakingTurns, th, n)
    {
      var m := 3 * n + if th == AppThread then 0 else if th == EngineThread then 1 else 2;
      assert TakingTurns(m) == Run(th);
    }
  }
}
