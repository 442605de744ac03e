/**
  A summary of a task queue, computed from either end: what the invariants of the migration
  need to know about the tasks that wait.
 */
module MigrationViews {
  import opened Migration

  // The tasks of one migration attempt, from the first message to the final notification.
  predicate IsToken(t: Task) {
    t.OnInput? || t.ImplMigrate? || t.OnMigrated? || t.Clean? || t.ImplClean? || t.OnCleaned?
    || t.NotifyCleaned? || t.ImplOnCleaned?
  }

  // The tasks the external thread posts to the attached runloop.
  predicate IsEvent(t: Task) {
    t.OnInput? || t.OnInputs? || t.CloseProtocol? || t.ProtocolClosed?
  }

  // The messages a task takes along.
  function Carried(t: Task): seq<Msg> {
    match t
    case OnInput(msg) => [msg]
    case OnInputs(msgs) => msgs
    case ImplMigrate(cmd) => [cmd]
    case OnMigrated(cmd) => [cmd]
    case Clean(cmd) => [cmd]
    case ImplClean(cmd) => [cmd]
    case OnCleaned(cmd) => [cmd]
    case _ => []
  }

  // Tasks wait only in the queue of a thread that runs them.
  predicate MayWaitIn(th: Thread, t: Task) {
    match t
    case AppClose => th == AppThread
    case ImplClose => th == ExternalThread
    case ImplOnCleaned(_) => th == ExternalThread
    case ImplMigrate(_) => th == ExternalThread
    case ImplClean(_) => th == ExternalThread
    case OnMigrated(_) => th == EngineThread
    case OnCleaned(_) => th == EngineThread
    case Clean(_) => th == AppThread
    case _ => th != ExternalThread
  }

  datatype View = View(
    tokens: seq<Task>,   // the tokens, in order
    events: seq<Task>,   // the events, in order
    flight: seq<Msg>,    // the messages under way, in order
    links: bool,         // some HandleInMsgs waits
    linksFirst: bool,    // no event waits in front of a HandleInMsgs
    closes: bool,        // AppClose waits
    closesFirst: bool,   // AppClose waits in front of every event
    implCloses: bool,    // ImplClose waits
    batches: bool,       // some OnInputs waits
    ends: nat,           // how many ProtocolClosed wait
    endsLast: bool,      // no event waits behind a ProtocolClosed
    stops: bool,         // some HandleStopGraph waits
    placed: bool)        // every task waits where it may

  const EmptyView := View([], [], [], false, true, false, false, false, false, 0, true, false, true)

  function If<T>(condition: bool, t: T): seq<T> {
    if condition then [t] else []
  }

  // The view after putting t in front.
  function InFront(th: Thread, t: Task, v: View): View {
    View(If(IsToken(t), t) + v.tokens,
         If(IsEvent(t), t) + v.events,
         Carried(t) + v.flight,
         t.HandleInMsgs? || v.links,
         v.linksFirst && (IsEvent(t) ==> !v.links),
         t.AppClose? || v.closes,
         t.AppClose? || (v.closesFirst && !IsEvent(t)),
         t.ImplClose? || v.implCloses,
         t.OnInputs? || v.batches,
         (if t.ProtocolClosed? then 1 else 0) + v.ends,
         v.endsLast && (t.ProtocolClosed? ==> v.events == []),
         t.HandleStopGraph? || v.stops,
         MayWaitIn(th, t) && v.placed)
  }

  // The view after posting t at the end.
  function AtEnd(th: Thread, v: View, t: Task): View {
    View(v.tokens + If(IsToken(t), t),
         v.events + If(IsEvent(t), t),
         v.flight + Carried(t),
         v.links || t.HandleInMsgs?,
         v.linksFirst && (t.HandleInMsgs? ==> v.events == []),
         v.closes || t.AppClose?,
         v.closesFirst || (t.AppClose? && v.events == []),
         v.implCloses || t.ImplClose?,
         v.batches || t.OnInputs?,
         v.ends + (if t.ProtocolClosed? then 1 else 0),
         v.endsLast && (IsEvent(t) ==> v.ends == 0),
         v.stops || t.HandleStopGraph?,
         v.placed && MayWaitIn(th, t))
  }

  // What a task does not contribute to.
  lemma OtherTasksDoNotCount(th: Thread, v: View, t: Task)
    ensures !IsToken(t) ==> AtEnd(th, v, t).tokens == v.tokens && InFront(th, t, v).tokens == v.tokens
    ensures !IsEvent(t) ==> AtEnd(th, v, t).events == v.events && InFront(th, t, v).events == v.events
    ensures Carried(t) == [] ==> AtEnd(th, v, t).flight == v.flight && InFront(th, t, v).flight == v.flight
  {
    NothingAdded(v.tokens);
    NothingAdded(v.events);
    NothingAdded(v.flight);
  }

  lemma NothingAdded<T>(s: seq<T>)
    ensures [] + s == s && s + [] == s
  {
  }

  function ViewOf(th: Thread, q: seq<Task>): View {
    if q == [] then EmptyView else InFront(th, q[0], ViewOf(th, q[1..]))
  }

  lemma Associative<T>(a: seq<T>, b: seq<T>, c: seq<T>)
    ensures a + (b + c) == a + b + c
  {
  }

  lemma FrontAndEndCommute(th: Thread, h: Task, v: View, t: Task)
    ensures InFront(th, h, AtEnd(th, v, t)) == AtEnd(th, InFront(th, h, v), t)
  {
    Associative(If(IsToken(h), h), v.tokens, If(IsToken(t), t));
    Associative(If(IsEvent(h), h), v.events, If(IsEvent(t), t));
    Associative(Carried(h), v.flight, Carried(t));
    var l, r := InFront(th, h, AtEnd(th, v, t)), AtEnd(th, InFront(th, h, v), t);
    assert l.tokens == r.tokens && l.events == r.events && l.flight == r.flight;
    assert l.linksFirst == r.linksFirst && l.closesFirst == r.closesFirst;
    assert l.endsLast == r.endsLast;
  }

  lemma {:induction false} ViewOfPosted(th: Thread, q: seq<Task>, t: Task)
    ensures ViewOf(th, q + [t]) == AtEnd(th, ViewOf(th, q), t)
  {
    if q == [] {
      assert (q + [t])[1..] == [];
      assert InFront(th, t, EmptyView) == AtEnd(th, EmptyView, t);
    } else {
      assert (q + [t])[1..] == q[1..] + [t];
      ViewOfPosted(th, q[1..], t);
      FrontAndEndCommute(th, q[0], ViewOf(th, q[1..]), t);
    }
  }

  function LastIs(events: seq<Task>, t: Task): bool {
    events != [] && events[|events| - 1] == t
  }

  // Facts that hold of the view of any queue.
  predicate Coherent(v: View) {
    && (v.events != [] && v.events[|v.events| - 1].OnInput? ==> v.tokens != [])
    && (v.tokens == [] && !v.batches ==> v.flight == [])
    && (v.batches ==> v.events != [])
    && (!v.links ==> v.linksFirst)
    && (v.closesFirst ==> v.closes)
    && (v.closes && v.events == [] ==> v.closesFirst)
    && (v.ends == 0 ==> v.endsLast)
    && (v.ends > 0 ==> v.events != [])
  }

  lemma {:induction false} ViewsAreCoherent(th: Thread, q: seq<Task>)
    ensures Coherent(ViewOf(th, q))
  {
    if q != [] {
      ViewsAreCoherent(th, q[1..]);
    }
  }

  // ---------- A state seen through its views ----------

  datatype Sight = Sight(core: Core, app: View, engine: View, external: View)

  function See(s: State): Sight {
    Sight(s.core, ViewOf(AppThread, s.appQ), ViewOf(EngineThread, s.engineQ), ViewOf(ExternalThread, s.externalQ))
  }

  function At(x: Sight, th: Thread): View {
    match th
    case AppThread => x.app
    case EngineThread => x.engine
    case ExternalThread => x.external
  }

  function WithView(x: Sight, th: Thread, v: View): Sight {
    match th
    case AppThread => x.(app := v)
    case EngineThread => x.(engine := v)
    case ExternalThread => x.(external := v)
  }

  function Posted(x: Sight, posts: seq<Posting>): Sight
    decreases |posts|
  {
    if posts == [] then x
    else
      var p := posts[0];
      Posted(WithView(x, p.thread, AtEnd(p.thread, At(x, p.thread), p.task)), posts[1..])
  }

  lemma SeePosted(s: State, th: Thread, t: Task)
    ensures See(WithQueue(s, th, Queue(s, th) + [t])) == WithView(See(s), th, AtEnd(th, At(See(s), th), t))
  {
    ViewOfPosted(th, Queue(s, th), t);
  }

  lemma {:induction false} SeeDelivered(s: State, posts: seq<Posting>)
    ensures See(Deliver(s, posts)) == Posted(See(s), posts)
    decreases |posts|
  {
    if posts != [] {
      var p := posts[0];
      SeePosted(s, p.thread, p.task);
      SeeDelivered(WithQueue(s, p.thread, Queue(s, p.thread) + [p.task]), posts[1..]);
    }
  }

  // The sight after an effect.
  function After(x: Sight, e: Effect): Sight {
    Posted(x.(core := e.core), e.posts)
  }

  lemma SeeNext(s: State, l: Label)
    requires Enabled(s, l)
    ensures See(Next(s, l)) == After(See(Popped(s, l)), EffectOf(s, l))
  {
    SeeDelivered(Popped(s, l).(core := EffectOf(s, l).core), EffectOf(s, l).posts);
  }

  lemma SeeRunning(s: State, th: Thread)
    requires Queue(s, th) != []
    ensures var rest := See(Popped(s, Run(th)));
            See(s) == WithView(rest, th, InFront(th, Queue(s, th)[0], At(rest, th)))
            && Coherent(rest.app) && Coherent(rest.engine) && Coherent(rest.external)
  {
    var rest := Popped(s, Run(th));
    ViewsAreCoherent(AppThread, rest.appQ);
    ViewsAreCoherent(EngineThread, rest.engineQ);
    ViewsAreCoherent(ExternalThread, rest.externalQ);
  }
}
