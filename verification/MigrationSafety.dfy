/**
  What every interleaving of the three threads keeps, for any number of resets and messages.
 */
module MigrationSafety {
  import opened Migration
  import opened MigrationViews

  // ---------- The log ----------

  function Msgs(log: seq<Entry>): (r: seq<Msg>)
    ensures |r| == |log|
  {
    seq(|log|, i requires 0 <= i < |log| => log[i].msg)
  }

  function Entries(msgs: seq<Msg>, verdict: Verdict): (r: seq<Entry>)
    ensures |r| == |msgs|
  {
    seq(|msgs|, i requires 0 <= i < |msgs| => Entry(msgs[i], verdict))
  }

  lemma LogGrows(log: seq<Entry>, e: Entry)
    ensures Msgs(log + [e]) == Msgs(log) + [e.msg]
  {
    assert (log + [e])[..|log|] == log;
  }

  lemma {:induction false} LogGrowsBy(log: seq<Entry>, msgs: seq<Msg>, verdict: Verdict)
    ensures Msgs(log + Entries(msgs, verdict)) == Msgs(log) + msgs
  {
    if msgs == [] {
      assert log + Entries(msgs, verdict) == log;
    } else {
      var last := |msgs| - 1;
      LogGrowsBy(log, msgs[..last], verdict);
      var log1 := log + Entries(msgs[..last], verdict);
      LogGrows(log1, Entry(msgs[last], verdict));
      assert log + Entries(msgs, verdict) == log1 + [Entry(msgs[last], verdict)];
      assert msgs[..last] + [msgs[last]] == msgs;
    }
  }

  // ---------- Batches of messages ----------

  lemma {:induction false} DropAllEffect(e: Effect, msgs: seq<Msg>)
    ensures DropAll(e, msgs) == e.(core := e.core.(log := e.core.log + Entries(msgs, DroppedClosing)))
    decreases |msgs|
  {
    if msgs == [] {
      assert e.core.log + Entries(msgs, DroppedClosing) == e.core.log;
    } else {
      DropAllEffect(Log(e, msgs[0], DroppedClosing), msgs[1..]);
      assert e.core.log + [Entry(msgs[0], DroppedClosing)] + Entries(msgs[1..], DroppedClosing)
          == e.core.log + Entries(msgs, DroppedClosing);
    }
  }

  // Through a connection attached to a remote every message is given to the remote; attached to
  // the engine only, the assertion of axis_connection_on_msgs fails on each.
  lemma {:induction false} OnMsgsEffect(e: Effect, msgs: seq<Msg>)
    requires e.core.attach != APP
    ensures var verdict := if e.core.attach == REMOTE then GivenToRemote else DroppedNoRemote;
            OnMsgs(e, msgs) == e.(core := e.core.(log := e.core.log + Entries(msgs, verdict),
                                                  fault := e.core.fault || (e.core.attach == ENGINE && msgs != [])))
    decreases |msgs|
  {
    var verdict := if e.core.attach == REMOTE then GivenToRemote else DroppedNoRemote;
    if msgs == [] {
      assert e.core.log + Entries(msgs, verdict) == e.core.log;
    } else {
      OnMsgsEffect(OnMsg(e, msgs[0]), msgs[1..]);
      assert e.core.log + [Entry(msgs[0], verdict)] + Entries(msgs[1..], verdict)
          == e.core.log + Entries(msgs, verdict);
    }
  }

  // ---------- The invariant ----------

  datatype Token = NoToken | TokenAt(thread: Thread, task: Task)

  function TokenOf(x: Sight): Token {
    if x.app.tokens != [] then TokenAt(AppThread, x.app.tokens[0])
    else if x.engine.tokens != [] then TokenAt(EngineThread, x.engine.tokens[0])
    else if x.external.tokens != [] then TokenAt(ExternalThread, x.external.tokens[0])
    else NoToken
  }

  // The connection belongs to the app and no engine has heard of it.
  predicate AtApp(x: Sight) {
    var c := x.core;
    && c.attach == APP && c.owner == AppThread && !c.duplicate && !x.app.links && !x.engine.links
  }

  predicate InOrphans(c: Core) {
    if c.destroyed then !c.orphan && c.onClosed == NoCallback else c.orphan && c.onClosed == ByApp
  }

  // The connection before any migration, or after a reset.
  predicate Idle(x: Sight) {
    AtApp(x) && x.core.migration == INIT && InOrphans(x.core)
  }

  // Only the close_app command leaves a migrated connection at the app, and the protocol will
  // be closing before the next event runs.
  predicate SettledAtApp(x: Sight) {
    && AtApp(x) && InOrphans(x.core)
    && (x.core.protocolClosing || x.app.closesFirst)
  }

  // Before the connection has a remote, the task that creates it is in front of every event.
  predicate SettledAtEngine(x: Sight) {
    var c := x.core;
    var loop := At(x, EngineLoop(c));
    && c.owner == EngineLoop(c) && !c.orphan
    && (if c.destroyed then c.onClosed == NoCallback
        else c.onClosed == if c.attach == ENGINE then ByEngine else ByRemote)
    && !(if c.ownLoop then x.app else x.engine).links
    && loop.linksFirst
    && (c.attach == ENGINE ==> c.duplicate || loop.links)
  }

  // The connection after a migration, or after it was declared migrated.
  predicate Settled(x: Sight) {
    && x.core.migration == DONE
    && if x.core.attach == APP then SettledAtApp(x) else SettledAtEngine(x)
  }

  // A started migration: the connection still belongs to the app thread.
  predicate Migrating(x: Sight, orphan: bool) {
    var c := x.core;
    && AtApp(x) && c.ownLoop && c.migration == FIRST_MSG
    && c.orphan == orphan && c.onClosed == (if orphan then ByApp else NoCallback)
  }

  // The first message was consumed without any notification being sent.
  predicate Stalled(x: Sight) {
    var c := x.core;
    && AtApp(x) && c.orphan && c.onClosed == ByApp
    && (c.migration == FIRST_MSG || (c.migration == INIT && c.protocolClosing))
  }

  predicate NoEvents(x: Sight) {
    x.app.events == [] && x.engine.events == [] && x.external.events == []
  }

  predicate IsMigratable(cmd: Msg) {
    cmd.Cmd? && cmd.route.ToEngine?
  }

  // The command a migration takes along.
  predicate IsHop(t: Task) {
    t.ImplMigrate? || t.OnMigrated? || t.Clean? || t.ImplClean? || t.OnCleaned?
  }

  // The connection leaves the orphan list halfway through the migration.
  predicate BeforeClean(t: Task) {
    t.ImplMigrate? || t.OnMigrated? || t.Clean?
  }

  predicate HopThread(t: Task, th: Thread) {
    th == if t.Clean? then AppThread else if t.OnMigrated? || t.OnCleaned? then EngineThread else ExternalThread
  }

  // What holds of the connection while a token is under way.
  predicate TokenPhase(x: Sight, th: Thread, t: Task) {
    if t.OnInput? then
      th == AppThread && Idle(x) && LastIs(x.app.events, t)
    else if IsHop(t) then
      HopThread(t, th) && Migrating(x, BeforeClean(t)) && NoEvents(x) && IsMigratable(t.cmd)
    else if t.NotifyCleaned? || t.ImplOnCleaned? then
      && NoEvents(x)
      && th == (if t.NotifyCleaned? then AttachedLoop(x.core) else ExternalThread)
      && if t.reset then Idle(x) else Settled(x)
    else
      false
  }

  predicate Phase(x: Sight) {
    var c := x.core;
    match TokenOf(x)
    case NoToken =>
      && (c.mirror == INIT ==> Idle(x))
      && (c.mirror == FIRST_MSG ==> Stalled(x) && NoEvents(x) && !c.gone && !c.destroyed)
      && (c.mirror == DONE ==> Settled(x))
    case TokenAt(th, t) =>
      c.mirror == FIRST_MSG && !c.gone && !c.destroyed && TokenPhase(x, th, t)
  }

  // Events wait for the owner of the connection and for nobody else.
  predicate EventsAtOwner(x: Sight) {
    && x.external.events == []
    && (x.core.owner != AppThread ==> x.app.events == [])
    && (x.core.owner != EngineThread ==> x.engine.events == [])
    && x.core.owner == AttachedLoop(x.core)
  }

  // The closing of the implementation is the last event of the connection.
  predicate ClosingOrder(x: Sight) {
    var c := x.core;
    && (c.closeAsked || x.external.implCloses ==> c.protocolClosing)
    && (c.gone ==> c.closeAsked)
    && (c.destroyed ==> c.gone && NoEvents(x) && !x.app.links && !x.engine.links)
    && (!c.gone ==> x.app.ends == 0 && x.engine.ends == 0)
    && (c.gone && !c.destroyed ==> x.app.ends + x.engine.ends == 1 && x.app.endsLast && x.engine.endsLast)
    && (c.appClosing && c.orphan ==> c.protocolClosing || x.app.closes)
  }

  // The implementation protocol waits for a notification that is not on its way.
  predicate Unanswered(x: Sight) {
    x.core.mirror == FIRST_MSG && x.app.tokens == [] && x.engine.tokens == [] && x.external.tokens == []
  }

  function Tokens(x: Sight): nat {
    |x.app.tokens| + |x.engine.tokens| + |x.external.tokens|
  }

  predicate Queues(x: Sight) {
    && Tokens(x) <= 1
    && x.app.placed && x.engine.placed && x.external.placed
    && (x.app.batches || x.engine.batches ==> x.core.mirror == DONE)
    && (x.app.stops || x.engine.stops ==> Unanswered(x))
  }

  // Everything about the queues and the closing, apart from the phase.
  predicate Order(x: Sight) {
    && Queues(x) && EventsAtOwner(x) && ClosingOrder(x)
    && (x.core.fault ==> x.core.duplicate || Unanswered(x))
  }

  // The state of the connection, the queues and the implementation protocol fit together.
  predicate Control(x: Sight) {
    Order(x) && Phase(x)
  }

  // No message is lost, duplicated or overtaken.
  predicate Conserved(x: Sight) {
    x.core.arrived == Msgs(x.core.log) + (Flight(x) + x.core.pending)
  }

  function Flight(x: Sight): seq<Msg> {
    x.app.flight + x.engine.flight + x.external.flight
  }

  predicate Inv(s: State) {
    Control(See(s)) && Conserved(See(s))
  }

  predicate AllCoherent(x: Sight) {
    Coherent(x.app) && Coherent(x.engine) && Coherent(x.external)
  }

  lemma InitInv(ownLoop: bool)
    ensures Inv(Init(ownLoop))
  {
  }

  // ---------- Steps of the environment and of the external thread ----------

  lemma AfterOne(x: Sight, c: Core, th: Thread, t: Task)
    ensures After(x, Post(Effect(c, []), th, t)) == WithView(x.(core := c), th, AtEnd(th, At(x, th), t))
  {
    var p := Posting(th, t);
    assert [] + [p] == [p] && [p][1..] == [];
    var y := x.(core := c);
    assert Posted(y, [p]) == Posted(WithView(y, th, AtEnd(th, At(y, th), t)), []);
  }

  // A task of the closing came or went.
  predicate ViewAlike(v: View, w: View) {
    && v.tokens == w.tokens && v.links == w.links && v.ends == w.ends
    && (v.linksFirst ==> w.linksFirst) && (v.endsLast ==> w.endsLast) && (v.placed ==> w.placed)
    && (v.events == [] ==> w.events == []) && (w.batches ==> v.batches) && (w.stops ==> v.stops)
    && (v.tokens != [] && v.tokens[0].OnInput? && LastIs(v.events, v.tokens[0]) ==> LastIs(w.events, v.tokens[0]))
  }

  predicate CoreAlike(c: Core, d: Core) {
    && c.attach == d.attach && c.owner == d.owner && c.ownLoop == d.ownLoop && c.duplicate == d.duplicate
    && c.orphan == d.orphan && c.onClosed == d.onClosed && c.destroyed == d.destroyed && c.migration == d.migration
    && c.mirror == d.mirror && c.gone == d.gone && (d.fault ==> c.fault)
    && (c.protocolClosing ==> d.protocolClosing) && (c.closeAsked ==> d.closeAsked)
  }

  // y is x, or a little further in its closing.
  predicate Alike(x: Sight, y: Sight) {
    && CoreAlike(x.core, y.core)
    && ViewAlike(x.app, y.app) && ViewAlike(x.engine, y.engine) && ViewAlike(x.external, y.external)
    && (x.app.closesFirst ==> y.app.closesFirst || y.core.protocolClosing || y.core.attach != APP || y.core.migration != DONE)
    && (y.core.closeAsked || y.external.implCloses ==> y.core.protocolClosing)
    && (y.core.appClosing && y.core.orphan ==> y.core.protocolClosing || y.app.closes)
  }

  lemma PhaseKept(x: Sight, y: Sight)
    requires Phase(x) && Alike(x, y)
    ensures Phase(y)
  {
    assert NoEvents(x) ==> NoEvents(y);
    assert Idle(x) ==> Idle(y);
    assert Stalled(x) ==> Stalled(y);
    assert Settled(x) ==> Settled(y);
  }

  lemma OrderKept(x: Sight, y: Sight)
    requires Order(x) && Alike(x, y)
    ensures Order(y)
  {
  }

  lemma ControlKept(x: Sight, y: Sight)
    requires Control(x) && Alike(x, y)
    ensures Control(y)
  {
    PhaseKept(x, y);
    OrderKept(x, y);
  }

  predicate IsClosing(t: Task) {
    t.AppClose? || t.CloseProtocol? || t.ImplClose?
  }

  lemma ClosingTaken(th: Thread, t: Task, v: View)
    requires IsClosing(t)
    ensures ViewAlike(InFront(th, t, v), v)
  {
    OtherTasksDoNotCount(th, v, t);
    if t.CloseProtocol? {
      var w := InFront(th, t, v);
      assert w.events == [t] + v.events;
      assert forall u: Task | u.OnInput? && LastIs(w.events, u) :: LastIs(v.events, u);
    }
  }

  lemma ClosingPosted(th: Thread, v: View, t: Task)
    requires (t.AppClose? && th == AppThread) || (t.ImplClose? && th == ExternalThread)
    ensures ViewAlike(v, AtEnd(th, v, t))
  {
    OtherTasksDoNotCount(th, v, t);
  }

  lemma ArriveKeeps(x: Sight, c: Core, msg: Msg)
    requires Control(x) && c == x.core.(arrived := x.core.arrived + [msg], pending := x.core.pending + [msg])
    ensures Control(x.(core := c))
  {
    ControlKept(x, x.(core := c));
  }

  lemma AskAppCloseKeeps(x: Sight, c: Core)
    requires Control(x) && AllCoherent(x) && !x.core.appClosing && c == x.core.(appClosing := true)
    ensures Control(WithView(x.(core := c), AppThread, AtEnd(AppThread, x.app, AppClose)))
  {
    ClosingPosted(AppThread, x.app, AppClose);
    ControlKept(x, WithView(x.(core := c), AppThread, AtEnd(AppThread, x.app, AppClose)));
  }

  // Posting an event to the attached loop while the mirror allows it.
  lemma EventKeeps(x: Sight, c: Core, t: Task)
    requires Control(x) && AllCoherent(x) && MayUseLoop(x.core) && !x.core.gone && IsLateEvent(x.core, c, t)
    ensures var th := AttachedLoop(x.core);
            Control(WithView(x.(core := c), th, AtEnd(th, At(x, th), t)))
  {
    var th := AttachedLoop(x.core);
    var z := WithView(x.(core := c), th, AtEnd(th, At(x, th), t));
    EventOrder(x, c, t);
    EventPhases(x, c, t);
    assert TokenOf(x) == NoToken && TokenOf(z) == NoToken;
  }

  // An event other than the first message, and the core after posting it.
  predicate IsLateEvent(before: Core, c: Core, t: Task) {
    || (t.CloseProtocol? && c == before.(hungUp := true))
    || (t.ProtocolClosed? && before.closeAsked && c == before.(gone := true))
    || (t.OnInputs? && before.mirror == DONE && c == before.(pending := []))
  }

  lemma EventOrder(x: Sight, c: Core, t: Task)
    requires Order(x) && AllCoherent(x) && MayUseLoop(x.core) && !x.core.gone && IsLateEvent(x.core, c, t)
    ensures var th := AttachedLoop(x.core);
            Order(WithView(x.(core := c), th, AtEnd(th, At(x, th), t)))
  {
    EventQueues(x, c, t);
    EventAtOwner(x, c, t);
    EventClosing(x, c, t);
  }

  lemma EventQueues(x: Sight, c: Core, t: Task)
    requires Queues(x) && MayUseLoop(x.core) && IsLateEvent(x.core, c, t)
    ensures var th := AttachedLoop(x.core);
            Queues(WithView(x.(core := c), th, AtEnd(th, At(x, th), t)))
  {
    OtherTasksDoNotCount(AttachedLoop(x.core), At(x, AttachedLoop(x.core)), t);
  }

  lemma EventAtOwner(x: Sight, c: Core, t: Task)
    requires EventsAtOwner(x) && IsLateEvent(x.core, c, t)
    ensures var th := AttachedLoop(x.core);
            EventsAtOwner(WithView(x.(core := c), th, AtEnd(th, At(x, th), t)))
  {
  }

  lemma EventClosing(x: Sight, c: Core, t: Task)
    requires ClosingOrder(x) && AllCoherent(x) && !x.core.gone && IsLateEvent(x.core, c, t)
    ensures var th := AttachedLoop(x.core);
            ClosingOrder(WithView(x.(core := c), th, AtEnd(th, At(x, th), t)))
  {
  }

  lemma EventPhases(x: Sight, c: Core, t: Task)
    requires AllCoherent(x) && IsLateEvent(x.core, c, t)
    ensures var th := AttachedLoop(x.core);
            var z := WithView(x.(core := c), th, AtEnd(th, At(x, th), t));
            (Settled(x) ==> Settled(z)) && (Idle(x) ==> Idle(z))
  {
  }

  lemma FeedFirstKeeps(x: Sight, c: Core, msg: Msg)
    requires Control(x) && AllCoherent(x) && x.core.mirror == INIT && !x.core.gone
    requires x.core.pending != [] && msg == x.core.pending[0]
    requires c == x.core.(mirror := FIRST_MSG, pending := x.core.pending[1..])
    ensures var th := AttachedLoop(x.core);
            Control(WithView(x.(core := c), th, AtEnd(th, At(x, th), OnInput(msg))))
  {
  }

  // ---------- Tasks of a migration attempt ----------

  lemma AfterNone(x: Sight, c: Core)
    ensures After(x, Effect(c, [])) == x.(core := c)
  {
  }

  lemma AfterTwo(x: Sight, c: Core, th: Thread, t: Task, th': Thread, t': Task)
    ensures var y := WithView(x.(core := c), th, AtEnd(th, At(x, th), t));
            After(x, Effect(c, [Posting(th, t), Posting(th', t')])) == WithView(y, th', AtEnd(th', At(y, th'), t'))
  {
    var p, p' := Posting(th, t), Posting(th', t');
    assert [p, p'][1..] == [p'] && [p'][1..] == [];
    var x1 := x.(core := c);
    var y := WithView(x1, th, AtEnd(th, At(x1, th), t));
    assert Posted(x1, [p, p']) == Posted(y, [p']);
    assert Posted(y, [p']) == Posted(WithView(y, th', AtEnd(th', At(y, th'), t')), []);
  }

  // The sight before the head t of the queue of th was taken.
  function Before(y: Sight, th: Thread, t: Task): Sight {
    WithView(y, th, InFront(th, t, At(y, th)))
  }

  // The head is the only token; nothing else of the attempt waits anywhere.
  lemma HeadToken(y: Sight, th: Thread, t: Task)
    requires Control(Before(y, th, t)) && AllCoherent(y) && IsToken(t)
    ensures TokenOf(Before(y, th, t)) == TokenAt(th, t) && TokenPhase(Before(y, th, t), th, t)
    ensures y.app.tokens == [] && y.engine.tokens == [] && y.external.tokens == []
    ensures NoEvents(y)
    ensures y.app.flight == [] && y.engine.flight == [] && y.external.flight == []
  {
    var x := Before(y, th, t);
    assert |At(x, th).tokens| == 1 + |At(y, th).tokens|;
    assert At(x, th).tokens[0] == t;
    if t.OnInput? {
      assert LastIs(x.app.events, t);
      assert x.app.events == [t] + y.app.events;
      assert y.app.events == [] || LastIs(y.app.events, t);
    }
  }

  // A task came or went that is neither an event nor part of the closing.
  predicate QueueAlike(v: View, w: View) {
    && v.events == w.events && v.ends == w.ends && (v.endsLast ==> w.endsLast) && (v.placed ==> w.placed)
    && (w.links ==> v.links) && (w.batches ==> v.batches) && (w.stops ==> v.stops)
    && (w.implCloses ==> v.implCloses) && (v.closes ==> w.closes)
  }

  predicate QueuesAlike(x: Sight, z: Sight) {
    QueueAlike(x.app, z.app) && QueueAlike(x.engine, z.engine) && QueueAlike(x.external, z.external)
  }

  lemma TakenQueue(th: Thread, t: Task, v: View)
    requires !IsEvent(t) && !IsClosing(t)
    ensures QueueAlike(InFront(th, t, v), v)
  {
    OtherTasksDoNotCount(th, v, t);
  }

  lemma PostedQueue(th: Thread, v: View, t: Task)
    requires IsToken(t) && !IsEvent(t) && MayWaitIn(th, t)
    ensures QueueAlike(v, AtEnd(th, v, t))
  {
    OtherTasksDoNotCount(th, v, t);
  }

  lemma TakenQueues(y: Sight, th: Thread, t: Task)
    requires !IsEvent(t) && !IsClosing(t)
    ensures QueuesAlike(Before(y, th, t), y) && Before(y, th, t).core == y.core
  {
    TakenQueue(th, t, At(y, th));
    QueueIsAlike(y.app);
    QueueIsAlike(y.engine);
    QueueIsAlike(y.external);
  }

  lemma QueueIsAlike(v: View)
    ensures QueueAlike(v, v)
  {
  }

  lemma PostedQueues(y: Sight, th: Thread, t: Task)
    requires IsToken(t) && !IsEvent(t) && MayWaitIn(th, t)
    ensures var z := WithView(y, th, AtEnd(th, At(y, th), t)); QueuesAlike(y, z) && z.core == y.core
  {
    PostedQueue(th, At(y, th), t);
  }

  predicate SameTokens(x: Sight, z: Sight) {
    x.app.tokens == z.app.tokens && x.engine.tokens == z.engine.tokens && x.external.tokens == z.external.tokens
  }

  lemma OnlyToken(y: Sight, th: Thread, t: Task)
    requires y.app.tokens == [] && y.engine.tokens == [] && y.external.tokens == [] && IsToken(t)
    ensures var z := WithView(y, th, AtEnd(th, At(y, th), t));
            TokenOf(z) == TokenAt(th, t) && Tokens(z) == 1
  {
  }

  // Consumed without a notification: the implementation protocol stays frozen.
  lemma SilentInputKeeps(y: Sight, msg: Msg, c: Core, verdict: Verdict)
    requires Control(Before(y, AppThread, OnInput(msg))) && AllCoherent(y)
    requires || (verdict == DroppedClosing && y.core.protocolClosing && c == y.core.(log := y.core.log + [Entry(msg, verdict)]))
             || c == y.core.(migration := FIRST_MSG, log := y.core.log + [Entry(msg, verdict)])
    ensures Control(y.(core := c)) && TokenOf(y.(core := c)) == NoToken && c.mirror == FIRST_MSG
  {
    HeadToken(y, AppThread, OnInput(msg));
    assert Stalled(y.(core := c));
  }

  // The same for stop_graph, which leaves a task for the engine.
  lemma StopInputKeeps(y: Sight, msg: Msg, c: Core)
    requires Control(Before(y, AppThread, OnInput(msg))) && AllCoherent(y)
    requires c == y.core.(migration := FIRST_MSG, log := y.core.log + [Entry(msg, SentToStop)])
    ensures var th := EngineLoop(y.core);
            var z := WithView(y.(core := c), th, AtEnd(th, At(y, th), HandleStopGraph));
            Control(z) && TokenOf(z) == NoToken && c.mirror == FIRST_MSG
  {
    HeadToken(y, AppThread, OnInput(msg));
    var th := EngineLoop(y.core);
    var z := WithView(y.(core := c), th, AtEnd(th, At(y, th), HandleStopGraph));
    assert TokenOf(z) == NoToken;
    assert Stalled(z);
  }

  lemma NotFoundInputKeeps(y: Sight, msg: Msg, c: Core)
    requires Control(Before(y, AppThread, OnInput(msg))) && AllCoherent(y)
    requires msg.Cmd? && msg.route.EngineNotFound?
    requires c == y.core.(log := y.core.log + [Entry(msg, GraphNotFound)])
    ensures var z := WithView(y.(core := c), AppThread, AtEnd(AppThread, y.app, NotifyCleaned(true)));
            Control(z) && TokenOf(z).TokenAt?
  {
    HeadToken(y, AppThread, OnInput(msg));
    var z := WithView(y.(core := c), AppThread, AtEnd(AppThread, y.app, NotifyCleaned(true)));
    assert TokenOf(z) == TokenAt(AppThread, NotifyCleaned(true));
    assert Idle(z);
  }

  lemma MigrateInputKeeps(y: Sight, msg: Msg, c: Core)
    requires Control(Before(y, AppThread, OnInput(msg))) && AllCoherent(y)
    requires y.core.ownLoop && IsMigratable(msg)
    requires c == y.core.(migration := FIRST_MSG)
    ensures var z := WithView(y.(core := c), ExternalThread, AtEnd(ExternalThread, y.external, ImplMigrate(msg)));
            Control(z) && TokenOf(z).TokenAt?
  {
    HeadToken(y, AppThread, OnInput(msg));
    var z := WithView(y.(core := c), ExternalThread, AtEnd(ExternalThread, y.external, ImplMigrate(msg)));
    assert TokenOf(z) == TokenAt(ExternalThread, ImplMigrate(msg));
    assert Migrating(z, true);
  }

  // The app is told to close, unless it was before, behind the notification.
  function AppClosedSight(y: Sight, c: Core): Sight {
    var v := AtEnd(AppThread, y.app, NotifyCleaned(false));
    if y.core.appClosing then y.(core := c, app := v)
    else y.(core := c, app := AtEnd(AppThread, v, AppClose))
  }

  // The close_app command declares the connection migrated while it stays with the app.
  lemma CloseAppInputKeeps(y: Sight, msg: Msg, c: Core)
    requires Control(Before(y, AppThread, OnInput(msg))) && AllCoherent(y) && !y.core.protocolClosing
    requires msg.Cmd? && msg.route.CloseApp?
    requires c == y.core.(migration := DONE, appClosing := true, log := y.core.log + [Entry(msg, ClosedApp)])
    ensures var z := AppClosedSight(y, c);
            Control(z) && TokenOf(z).TokenAt?
  {
    HeadToken(y, AppThread, OnInput(msg));
    var z := AppClosedSight(y, c);
    assert y.core.appClosing ==> y.app.closes;
    assert TokenOf(z) == TokenAt(AppThread, NotifyCleaned(false));
    assert Settled(z);
  }

  // An engine without its own loop takes the connection over at once.
  lemma TakenOverInputKeeps(y: Sight, msg: Msg, c: Core)
    requires Control(Before(y, AppThread, OnInput(msg))) && AllCoherent(y)
    requires !y.core.ownLoop && IsMigratable(msg)
    requires c == y.core.(migration := DONE, attach := ENGINE, onClosed := ByEngine, orphan := false,
                          log := y.core.log + [Entry(msg, QueuedInEngine)])
    ensures var v := AtEnd(AppThread, y.app, NotifyCleaned(false));
            var z := y.(core := c, app := AtEnd(AppThread, v, HandleInMsgs(IsDuplicate(msg))));
            Control(z) && TokenOf(z).TokenAt?
  {
    HeadToken(y, AppThread, OnInput(msg));
    var v := AtEnd(AppThread, y.app, NotifyCleaned(false));
    var z := y.(core := c, app := AtEnd(AppThread, v, HandleInMsgs(IsDuplicate(msg))));
    assert TokenOf(z) == TokenAt(AppThread, NotifyCleaned(false));
    assert Settled(z);
  }

  // One hop of the migration, from thread to thread.
  lemma HopKeeps(y: Sight, th: Thread, t: Task, c: Core, th': Thread, t': Task)
    requires Control(Before(y, th, t)) && AllCoherent(y) && IsHop(t) && IsHop(t') && t'.cmd == t.cmd
    requires HopThread(t', th') && MayWaitIn(th', t')
    requires if t.Clean? then c == y.core.(orphan := false, onClosed := NoCallback) && !BeforeClean(t')
             else c == y.core && BeforeClean(t) == BeforeClean(t')
    ensures var z := WithView(y.(core := c), th', AtEnd(th', At(y, th'), t'));
            Control(z) && TokenOf(z).TokenAt?
  {
    HopTokens(y, th, t, c, th', t');
    Hopped(Before(y, th, t), th, t, WithView(y.(core := c), th', AtEnd(th', At(y, th'), t')), th', t');
  }

  lemma HopTokens(y: Sight, th: Thread, t: Task, c: Core, th': Thread, t': Task)
    requires Control(Before(y, th, t)) && AllCoherent(y) && IsHop(t) && IsHop(t') && MayWaitIn(th', t')
    ensures var z := WithView(y.(core := c), th', AtEnd(th', At(y, th'), t'));
            && QueuesAlike(Before(y, th, t), z) && Before(y, th, t).core == y.core && z.core == c
            && TokenOf(Before(y, th, t)) == TokenAt(th, t) && TokenOf(z) == TokenAt(th', t') && Tokens(z) == 1
  {
    HeadToken(y, th, t);
    OnlyToken(y.(core := c), th', t');
    TokenMoves(y, th, t, c, th', t');
  }

  lemma TokenMoves(y: Sight, th: Thread, t: Task, c: Core, th': Thread, t': Task)
    requires IsToken(t) && !IsEvent(t) && IsToken(t') && !IsEvent(t') && MayWaitIn(th', t')
    ensures var z := WithView(y.(core := c), th', AtEnd(th', At(y, th'), t'));
            QueuesAlike(Before(y, th, t), z) && Before(y, th, t).core == y.core && z.core == c
  {
    TakenQueues(y, th, t);
    PostedQueues(y.(core := c), th', t');
    StillAlike(Before(y, th, t), y, WithView(y.(core := c), th', AtEnd(th', At(y, th'), t')));
  }

  lemma StillAlike(x: Sight, y: Sight, z: Sight)
    requires QueuesAlike(x, y) && QueuesAlike(y.(core := z.core), z)
    ensures QueuesAlike(x, z)
  {
  }

  lemma Hopped(x: Sight, th: Thread, t: Task, z: Sight, th': Thread, t': Task)
    requires Control(x) && IsHop(t) && IsHop(t') && t'.cmd == t.cmd && HopThread(t', th')
    requires TokenOf(x) == TokenAt(th, t) && TokenOf(z) == TokenAt(th', t') && Tokens(z) == 1 && QueuesAlike(x, z)
    requires var c := x.core;
             if t.Clean? then z.core == c.(orphan := false, onClosed := NoCallback) && !BeforeClean(t')
             else z.core == c && BeforeClean(t) == BeforeClean(t')
    ensures Control(z)
  {
    assert Migrating(z, BeforeClean(t')) && NoEvents(z) by { assert TokenPhase(x, th, t); }
    HoppedOrder(x, z);
  }

  lemma HoppedOrder(x: Sight, z: Sight)
    requires Order(x) && QueuesAlike(x, z) && AtApp(x) && Tokens(x) == 1 && Tokens(z) == 1
    requires z.core == x.core.(orphan := z.core.orphan, onClosed := z.core.onClosed) && (z.core.orphan ==> x.core.orphan)
    ensures Order(z)
  {
  }

  // The engine becomes the owner.
  lemma OnCleanedKeeps(y: Sight, cmd: Msg, c: Core)
    requires Control(Before(y, EngineThread, OnCleaned(cmd))) && AllCoherent(y)
    requires IsTakenOver(y.core, cmd, c)
    ensures var z := CleanedSight(y, cmd, c);
            Control(z) && TokenOf(z).TokenAt?
  {
    HeadToken(y, EngineThread, OnCleaned(cmd));
    OnCleanedOrder(y, cmd, c);
    assert Settled(CleanedSight(y, cmd, c));
  }

  predicate IsTakenOver(before: Core, cmd: Msg, c: Core) {
    c == before.(owner := EngineThread, migration := DONE, attach := ENGINE, onClosed := ByEngine,
                 log := before.log + [Entry(cmd, QueuedInEngine)])
  }

  // The command waits at the engine, and the notification behind it.
  function CleanedSight(y: Sight, cmd: Msg, c: Core): Sight {
    var v := AtEnd(EngineThread, y.engine, HandleInMsgs(IsDuplicate(cmd)));
    y.(core := c, engine := AtEnd(EngineThread, v, NotifyCleaned(false)))
  }

  lemma OnCleanedOrder(y: Sight, cmd: Msg, c: Core)
    requires Order(Before(y, EngineThread, OnCleaned(cmd))) && IsTakenOver(y.core, cmd, c)
    requires y.core.ownLoop && !y.core.orphan && !y.core.duplicate && NoEvents(y)
    requires y.app.tokens == [] && y.engine.tokens == [] && y.external.tokens == [] && !y.core.destroyed && !y.core.gone
    ensures var z := CleanedSight(y, cmd, c);
            Order(z) && TokenOf(z) == TokenAt(EngineThread, NotifyCleaned(false))
  {
    OtherTasksDoNotCount(EngineThread, y.engine, HandleInMsgs(IsDuplicate(cmd)));
  }

  lemma NotifyCleanedKeeps(y: Sight, th: Thread, reset: bool)
    requires Control(Before(y, th, NotifyCleaned(reset))) && AllCoherent(y)
    ensures var z := WithView(y, ExternalThread, AtEnd(ExternalThread, y.external, ImplOnCleaned(reset)));
            Control(z) && TokenOf(z).TokenAt?
  {
    var z := WithView(y, ExternalThread, AtEnd(ExternalThread, y.external, ImplOnCleaned(reset)));
    NotifyTokens(y, th, reset);
    Notified(Before(y, th, NotifyCleaned(reset)), th, z, reset);
  }

  lemma NotifyTokens(y: Sight, th: Thread, reset: bool)
    requires Control(Before(y, th, NotifyCleaned(reset))) && AllCoherent(y)
    ensures var x := Before(y, th, NotifyCleaned(reset));
            var z := WithView(y, ExternalThread, AtEnd(ExternalThread, y.external, ImplOnCleaned(reset)));
            && NotifiedAlike(x, z) && Tokens(z) == 1
            && TokenOf(x) == TokenAt(th, NotifyCleaned(reset)) && TokenOf(z) == TokenAt(ExternalThread, ImplOnCleaned(reset))
  {
    HeadToken(y, th, NotifyCleaned(reset));
    OnlyToken(y, ExternalThread, ImplOnCleaned(reset));
    NotifyAlike(y, th, reset);
  }

  lemma NotifyAlike(y: Sight, th: Thread, reset: bool)
    ensures var z := WithView(y, ExternalThread, AtEnd(ExternalThread, y.external, ImplOnCleaned(reset)));
            NotifiedAlike(Before(y, th, NotifyCleaned(reset)), z)
  {
    TokenMoves(y, th, NotifyCleaned(reset), y.core, ExternalThread, ImplOnCleaned(reset));
  }

  predicate NotifiedViewAlike(v: View, w: View) {
    v.links == w.links && v.linksFirst == w.linksFirst && v.closesFirst == w.closesFirst
  }

  // Only the notification has moved.
  predicate NotifiedAlike(x: Sight, z: Sight) {
    && QueuesAlike(x, z) && z.core == x.core
    && NotifiedViewAlike(x.app, z.app) && NotifiedViewAlike(x.engine, z.engine)
  }

  lemma Notified(x: Sight, th: Thread, z: Sight, reset: bool)
    requires Control(x) && NotifiedAlike(x, z) && Tokens(z) == 1
    requires TokenOf(x) == TokenAt(th, NotifyCleaned(reset)) && TokenOf(z) == TokenAt(ExternalThread, ImplOnCleaned(reset))
    ensures Control(z)
  {
    NotifiedOrder(x, z);
    assert TokenPhase(z, ExternalThread, ImplOnCleaned(reset)) by {
      assert TokenPhase(x, th, NotifyCleaned(reset));
      assert Idle(x) ==> Idle(z);
      assert Settled(x) ==> Settled(z);
    }
  }

  lemma NotifiedOrder(x: Sight, z: Sight)
    requires Order(x) && QueuesAlike(x, z) && z.core == x.core && Tokens(x) == 1 && Tokens(z) == 1
    ensures Order(z)
  {
  }

  lemma ImplOnCleanedKeeps(y: Sight, reset: bool, c: Core)
    requires Control(Before(y, ExternalThread, ImplOnCleaned(reset))) && AllCoherent(y)
    requires c == y.core.(mirror := if reset then INIT else DONE)
    ensures Control(y.(core := c)) && TokenOf(y.(core := c)) == NoToken
  {
    HeadToken(y, ExternalThread, ImplOnCleaned(reset));
    var x := Before(y, ExternalThread, ImplOnCleaned(reset));
    var z := y.(core := c);
    assert Idle(x) ==> Idle(z);
    assert Settled(x) ==> Settled(z);
  }

  // ---------- Other tasks ----------

  // Taking a task that is no token, without touching what the phases look at.
  lemma TokenStays(y: Sight, th: Thread, t: Task)
    requires !IsToken(t)
    ensures SameTokens(Before(y, th, t), y) && TokenOf(y) == TokenOf(Before(y, th, t))
  {
    assert At(Before(y, th, t), th).tokens == At(y, th).tokens;
  }

  // A batch reaches a connection that is attached to its remote, unless the protocol is
  // closing or the channel is a duplicate.
  lemma InputsReachRemote(y: Sight, th: Thread, msgs: seq<Msg>)
    requires Control(Before(y, th, OnInputs(msgs))) && AllCoherent(y)
    ensures var c := y.core;
            && c.owner == th && c.migration == DONE && c.mirror == DONE
            && (c.protocolClosing || c.attach == REMOTE || (c.attach == ENGINE && c.duplicate))
  {
    var x := Before(y, th, OnInputs(msgs));
    TokenStays(y, th, OnInputs(msgs));
    assert At(x, th).batches && At(x, th).events != [];
  }

  lemma InputsKeep(y: Sight, th: Thread, msgs: seq<Msg>, c: Core, verdict: Verdict)
    requires Control(Before(y, th, OnInputs(msgs))) && AllCoherent(y)
    requires c == y.core.(log := y.core.log + Entries(msgs, verdict), fault := c.fault)
    requires (c.fault ==> c.duplicate) && (y.core.fault ==> c.fault)
    requires || (verdict == DroppedClosing && c.protocolClosing)
             || (verdict == GivenToRemote && c.attach == REMOTE)
             || (verdict == DroppedNoRemote && c.attach == ENGINE && (msgs != [] ==> c.fault))
    ensures Control(y.(core := c))
  {
    TokenStays(y, th, OnInputs(msgs));
    InputsReachRemote(y, th, msgs);
    InputsOrder(y, th, msgs, c);
    assert Settled(y.(core := c));
  }

  lemma InputsOrder(y: Sight, th: Thread, msgs: seq<Msg>, c: Core)
    requires Order(Before(y, th, OnInputs(msgs))) && SameTokens(Before(y, th, OnInputs(msgs)), y)
    requires c == y.core.(log := c.log, fault := c.fault) && (c.fault ==> c.duplicate)
    ensures Order(y.(core := c))
  {
  }

  // The first command waits at the engine only for a migrated connection.
  lemma LinksMeanSettled(y: Sight, th: Thread, duplicate: bool)
    requires Control(Before(y, th, HandleInMsgs(duplicate)))
    ensures Settled(Before(y, th, HandleInMsgs(duplicate))) && y.core.attach != APP && !y.core.destroyed
  {
    var x := Before(y, th, HandleInMsgs(duplicate));
    assert At(x, th).links && x.core == y.core;
    assert th != ExternalThread by { assert At(x, th).placed; }
    LinkedMeansSettled(x);
  }

  lemma LinkedMeansSettled(x: Sight)
    requires Control(x) && (x.app.links || x.engine.links)
    ensures Settled(x) && x.core.attach != APP && !x.core.destroyed
  {
  }

  lemma LinkKeeps(y: Sight, th: Thread, duplicate: bool, c: Core)
    requires Control(Before(y, th, HandleInMsgs(duplicate))) && AllCoherent(y)
    requires c == if duplicate then y.core.(duplicate := true) else y.core.(attach := REMOTE, onClosed := c.onClosed)
    requires c.onClosed == if duplicate || y.core.attach == REMOTE then y.core.onClosed else ByRemote
    ensures Control(y.(core := c))
  {
    LinksMeanSettled(y, th, duplicate);
    LinkOrder(y, th, duplicate, c);
    LinkPhase(y, th, duplicate, c);
  }

  lemma LinkPhase(y: Sight, th: Thread, duplicate: bool, c: Core)
    requires Phase(Before(y, th, HandleInMsgs(duplicate))) && Settled(Before(y, th, HandleInMsgs(duplicate)))
    requires y.core.attach != APP && !y.core.destroyed
    requires c == if duplicate then y.core.(duplicate := true) else y.core.(attach := REMOTE, onClosed := c.onClosed)
    requires c.onClosed == if duplicate || y.core.attach == REMOTE then y.core.onClosed else ByRemote
    ensures Phase(y.(core := c))
  {
    var x := Before(y, th, HandleInMsgs(duplicate));
    TokenStays(y, th, HandleInMsgs(duplicate));
    TakenQueues(y, th, HandleInMsgs(duplicate));
    LinkSettles(y, th, duplicate, c);
    SettledPhaseKept(x, y.(core := c));
  }

  lemma LinkOrder(y: Sight, th: Thread, duplicate: bool, c: Core)
    requires Order(Before(y, th, HandleInMsgs(duplicate))) && y.core.attach != APP
    requires c == if duplicate then y.core.(duplicate := true) else y.core.(attach := REMOTE, onClosed := c.onClosed)
    ensures Order(y.(core := c))
  {
    TokenStays(y, th, HandleInMsgs(duplicate));
    TakenQueues(y, th, HandleInMsgs(duplicate));
    LinkOrderKept(Before(y, th, HandleInMsgs(duplicate)), y.(core := c));
  }

  lemma LinkOrderKept(x: Sight, z: Sight)
    requires Order(x) && QueuesAlike(x, z) && SameTokens(x, z) && x.core.attach != APP && z.core.attach != APP
    requires z.core == x.core.(duplicate := z.core.duplicate, attach := z.core.attach, onClosed := z.core.onClosed)
    requires x.core.duplicate ==> z.core.duplicate
    ensures Order(z)
  {
  }

  lemma SettledPhaseKept(x: Sight, z: Sight)
    requires Phase(x) && Settled(x) && Settled(z) && TokenOf(x) == TokenOf(z) && (NoEvents(x) ==> NoEvents(z))
    requires x.core.mirror == z.core.mirror && x.core.gone == z.core.gone && x.core.destroyed == z.core.destroyed
    requires AttachedLoop(x.core) == AttachedLoop(z.core)
    ensures Phase(z)
  {
  }

  lemma LinkSettles(y: Sight, th: Thread, duplicate: bool, c: Core)
    requires Settled(Before(y, th, HandleInMsgs(duplicate))) && y.core.attach != APP && !y.core.destroyed
    requires c == if duplicate then y.core.(duplicate := true) else y.core.(attach := REMOTE, onClosed := c.onClosed)
    requires c.onClosed == if duplicate || y.core.attach == REMOTE then y.core.onClosed else ByRemote
    ensures Settled(y.(core := c))
  {
    LinksWaitAtEngine(y, th, duplicate);
    assert c.attach == ENGINE ==> c.duplicate;
    assert c.onClosed == if c.attach == ENGINE then ByEngine else ByRemote;
  }

  lemma LinksWaitAtEngine(y: Sight, th: Thread, duplicate: bool)
    requires SettledAtEngine(Before(y, th, HandleInMsgs(duplicate)))
    ensures var other := if y.core.ownLoop then y.app else y.engine; !other.links
    ensures At(y, EngineLoop(y.core)).linksFirst && y.core.owner == EngineLoop(y.core) && !y.core.orphan
    ensures !y.core.destroyed ==> y.core.onClosed == if y.core.attach == ENGINE then ByEngine else ByRemote
  {
    assert Before(y, th, HandleInMsgs(duplicate)).core == y.core;
  }

  // The protocol starts to close, because the app closes or because the implementation asked.
  lemma ProtocolCloseKeeps(y: Sight, th: Thread, t: Task, c: Core)
    requires Control(Before(y, th, t)) && (t.AppClose? || t.CloseProtocol?)
    requires c == y.core.(protocolClosing := true)
    ensures Control(WithView(y.(core := c), ExternalThread, AtEnd(ExternalThread, y.external, ImplClose)))
  {
    CloseTakenKeeps(y, th, t, c);
    ToldToCloseKeeps(y.(core := c));
  }

  lemma ToldToCloseKeeps(y: Sight)
    requires Control(y) && y.core.protocolClosing
    ensures Control(WithView(y, ExternalThread, AtEnd(ExternalThread, y.external, ImplClose)))
  {
    ClosingPosted(ExternalThread, y.external, ImplClose);
    ControlKept(y, WithView(y, ExternalThread, AtEnd(ExternalThread, y.external, ImplClose)));
  }

  lemma CloseTakenKeeps(y: Sight, th: Thread, t: Task, c: Core)
    requires Control(Before(y, th, t)) && (t.AppClose? || t.CloseProtocol?)
    requires c == y.core.(protocolClosing := true)
    ensures Control(y.(core := c))
  {
    CloseTakenAlike(y, th, t, c);
    ControlKept(Before(y, th, t), y.(core := c));
  }

  lemma CloseTakenAlike(y: Sight, th: Thread, t: Task, c: Core)
    requires (t.AppClose? || t.CloseProtocol?) && c == y.core.(protocolClosing := true)
    ensures Alike(Before(y, th, t), y.(core := c))
  {
    ClosingTaken(th, t, At(y, th));
  }

  lemma ClosingAlreadyKeeps(y: Sight, th: Thread, t: Task)
    requires Control(Before(y, th, t)) && (t.AppClose? || t.CloseProtocol?)
    requires y.core.protocolClosing || (t.AppClose? && !y.core.orphan)
    ensures Control(y)
  {
    if y.core.protocolClosing {
      assert y.core == y.core.(protocolClosing := true);
      CloseTakenKeeps(y, th, t, y.core);
    } else {
      OnlyMigratedAreNoOrphans(Before(y, th, t));
      assert At(Before(y, th, t), th).placed;
      assert Before(y, th, t) == Before(y, AppThread, AppClose);
      NothingToClose(y);
      ControlKept(Before(y, AppThread, AppClose), y);
    }
  }

  lemma OnlyMigratedAreNoOrphans(x: Sight)
    requires Control(x) && !x.core.orphan && !x.core.protocolClosing
    ensures x.core.attach != APP || x.core.migration != DONE
  {
  }

  lemma NothingToClose(y: Sight)
    requires Order(Before(y, AppThread, AppClose)) && !y.core.orphan
    requires y.core.attach != APP || y.core.migration != DONE
    ensures Alike(Before(y, AppThread, AppClose), y)
  {
    ClosingTaken(AppThread, AppClose, y.app);
  }

  // stop_graph reaches the engine through a connection that is still the app's.
  lemma StopsMeanStalled(y: Sight, th: Thread)
    requires Control(Before(y, th, HandleStopGraph)) && AllCoherent(y)
    ensures var x := Before(y, th, HandleStopGraph);
            && Stalled(x) && NoEvents(x) && TokenOf(x) == NoToken && x.core.mirror == FIRST_MSG
            && y.core.migration != DONE
  {
    TokenStays(y, th, HandleStopGraph);
    assert At(Before(y, th, HandleStopGraph), th).stops;
  }

  lemma StopTaskKeeps(y: Sight, th: Thread, c: Core)
    requires Control(Before(y, th, HandleStopGraph)) && AllCoherent(y) && c == y.core.(fault := true)
    ensures Control(y.(core := c))
  {
    StopsMeanStalled(y, th);
    TokenStays(y, th, HandleStopGraph);
    TakenQueues(y, th, HandleStopGraph);
    StopTaken(Before(y, th, HandleStopGraph), y.(core := c));
  }

  lemma StopTaken(x: Sight, z: Sight)
    requires Control(x) && QueuesAlike(x, z) && SameTokens(x, z) && z.core == x.core.(fault := true)
    requires Stalled(x) && NoEvents(x) && TokenOf(x) == NoToken && x.core.mirror == FIRST_MSG
    ensures Control(z)
  {
    StopOrderKept(x, z);
    assert Stalled(z) && NoEvents(z);
  }

  lemma StopOrderKept(x: Sight, z: Sight)
    requires Order(x) && QueuesAlike(x, z) && SameTokens(x, z) && z.core == x.core.(fault := true) && Unanswered(x)
    ensures Order(z)
  {
  }

  lemma ImplCloseKeeps(y: Sight, th: Thread, c: Core)
    requires Control(Before(y, th, ImplClose)) && c == y.core.(closeAsked := true)
    ensures Control(y.(core := c))
  {
    assert At(Before(y, th, ImplClose), th).placed;
    assert Before(y, ExternalThread, ImplClose).external.implCloses;
    ImplCloseAlike(y, c);
    ControlKept(Before(y, ExternalThread, ImplClose), y.(core := c));
  }

  lemma ImplCloseAlike(y: Sight, c: Core)
    requires var x := Before(y, ExternalThread, ImplClose); Order(x) && x.external.implCloses
    requires c == y.core.(closeAsked := true)
    ensures Alike(Before(y, ExternalThread, ImplClose), y.(core := c))
  {
    ClosingTaken(ExternalThread, ImplClose, y.external);
  }

  // The last event: no other event waits, no migration is under way, a callback is set.
  lemma ProtocolClosedIsLast(y: Sight, th: Thread)
    requires Control(Before(y, th, ProtocolClosed)) && AllCoherent(y)
    ensures var c := y.core;
            && c.owner == th && c.gone && !c.destroyed && c.mirror != FIRST_MSG && c.onClosed != NoCallback
            && NoEvents(y) && !y.app.links && !y.engine.links && TokenOf(y) == NoToken
  {
    TokenStays(y, th, ProtocolClosed);
    var x := Before(y, th, ProtocolClosed);
    assert At(x, th).ends > 0 && At(x, th).events != [];
  }

  lemma ProtocolClosedKeeps(y: Sight, th: Thread, c: Core)
    requires Control(Before(y, th, ProtocolClosed)) && AllCoherent(y)
    requires c == y.core.(destroyed := true, orphan := false, onClosed := NoCallback)
    ensures Control(y.(core := c))
  {
    ProtocolClosedIsLast(y, th);
    TokenStays(y, th, ProtocolClosed);
  }
}
