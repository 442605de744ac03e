/**
  The three-stage closing flow (core/include_internal/axis_runtime/app/close.h).

  Resources form a tree of any shape: node 0 is the top-level resource and every other node
  names its container, which has a smaller number. A step is either a closing request made on
  some resource, or the delivery of one pending notification; deliveries happen in any order.
 */
module Closing {

  // `cascade[p]`: p starts to close by itself when one of its resources has closed, as
  // connections and remotes do.
  datatype Tree = Tree(parent: seq<int>, cascade: seq<bool>) {
    ghost predicate Valid() {
      && |parent| > 0 && |cascade| == |parent|
      && forall i :: 1 <= i < |parent| ==> 0 <= parent[i] < i
    }

    predicate IsNode(i: int) {
      0 <= i < |parent|
    }

    // c is a resource directly contained in p.
    predicate Contains(p: int, c: int)
      requires |parent| > 0
    {
      1 <= c < |parent| && parent[c] == p
    }
  }

  datatype State = State(
    closing: seq<bool>,   // is_closing
    closed: seq<bool>,    // is_closed
    notify: seq<bool>,    // "we are going to close" is on its way to the resource
    report: seq<bool>,    // "I am closed" is on its way to the container
    seen: seq<bool>,      // the container has received "I am closed"
    doCloses: seq<nat>,   // how often xxx_do_close() ran
    destroys: nat)        // how often the top-level resource triggered 'destroy'

  ghost predicate Shape(t: Tree, s: State) {
    && t.Valid()
    && |s.closing| == |s.closed| == |s.notify| == |s.report| == |s.seen| == |s.doCloses| == |t.parent|
  }

  function Init(t: Tree): (s: State)
    requires t.Valid()
  {
    var no := seq(|t.parent|, i => false);
    State(no, no, no, no, no, seq(|t.parent|, i => 0), 0)
  }

  // xxx_could_be_close(): all contained resources have reported.
  predicate CouldBeClose(t: Tree, s: State, i: int)
    requires Shape(t, s)
  {
    forall c | 1 <= c < |t.parent| :: t.Contains(i, c) ==> s.seen[c]
  }

  // xxx_do_close(): the resource is closed and tells its container; the top destroys all.
  function DoClose(t: Tree, s: State, i: int): State
    requires Shape(t, s) && t.IsNode(i)
  {
    s.(closed := s.closed[i := true],
       doCloses := s.doCloses[i := s.doCloses[i] + 1],
       report := if i == 0 then s.report else s.report[i := true],
       destroys := if i == 0 then s.destroys + 1 else s.destroys)
  }

  // xxx_on_close()
  function OnClose(t: Tree, s: State, i: int): State
    requires Shape(t, s) && t.IsNode(i)
  {
    if CouldBeClose(t, s, i) then DoClose(t, s, i) else s
  }

  // Notification of every contained resource that has not reported yet.
  function NotifyContained(t: Tree, s: State, i: int): State
    requires Shape(t, s)
  {
    s.(notify := seq(|t.parent|, c requires 0 <= c < |t.parent| =>
                  s.notify[c] || (t.Contains(i, c) && !s.seen[c])))
  }

  // xxx_close(): only the first call has an effect; a resource with nothing left to wait for
  // goes on to its own closing at once.
  function Close(t: Tree, s: State, i: int): State
    requires Shape(t, s) && t.IsNode(i)
  {
    if s.closing[i] then s
    else
      var s1 := s.(closing := s.closing[i := true]);
      if CouldBeClose(t, s1, i) then DoClose(t, s1, i) else NotifyContained(t, s1, i)
  }

  datatype Step = Request(node: int) | Notify(node: int) | Report(node: int)

  predicate Enabled(t: Tree, s: State, step: Step)
    requires Shape(t, s)
  {
    && t.IsNode(step.node)
    && match step
       case Request(i) => !s.closing[i]
       case Notify(i) => s.notify[i]
       case Report(i) => s.report[i]
  }

  // A step that is not enabled changes nothing.
  function Next(t: Tree, s: State, step: Step): (s': State)
    requires Shape(t, s)
    ensures Shape(t, s')
  {
    if !Enabled(t, s, step) then s
    else
      match step
      case Request(i) => Close(t, s, i)
      case Notify(i) => Close(t, s.(notify := s.notify[i := false]), i)
      case Report(i) =>
        var s1 := s.(report := s.report[i := false], seen := s.seen[i := true]);
        var p := t.parent[i];
        if !t.IsNode(p) then s1
        else if s1.closing[p] then OnClose(t, s1, p)
        else if t.cascade[p] then Close(t, s1, p)
        else s1
  }

  function Run(t: Tree, s: State, steps: seq<Step>): (s': State)
    requires Shape(t, s)
    ensures Shape(t, s')
    decreases |steps|
  {
    if steps == [] then s else Run(t, Next(t, s, steps[0]), steps[1..])
  }

  // ---------- The invariant ----------

  ghost predicate NodeInv(t: Tree, s: State, i: int)
    requires Shape(t, s) && t.IsNode(i)
  {
    && (s.closed[i] ==> s.closing[i])
    && (s.seen[i] ==> s.closed[i] && !s.report[i])
    && (s.report[i] ==> s.closed[i] && i > 0)
    && (s.closed[i] && i > 0 ==> s.report[i] || s.seen[i])
    && (s.closed[i] ==> CouldBeClose(t, s, i))
    && (s.closing[i] && !s.closed[i] ==> !CouldBeClose(t, s, i))
    && s.doCloses[i] == (if s.closed[i] then 1 else 0)
  }

  ghost predicate EdgeInv(t: Tree, s: State, c: int)
    requires Shape(t, s) && 1 <= c < |t.parent|
  {
    var p := t.parent[c];
    && (s.closing[p] ==> s.seen[c] || s.notify[c] || s.closing[c])
    && (s.seen[c] && t.cascade[p] ==> s.closing[p])
    && (s.notify[c] ==> s.closing[p])
  }

  ghost predicate Inv(t: Tree, s: State) {
    && Shape(t, s)
    && (forall i :: 0 <= i < |t.parent| ==> NodeInv(t, s, i))
    && (forall c :: 1 <= c < |t.parent| ==> EdgeInv(t, s, c))
    && !s.notify[0]
    && s.destroys == (if s.closed[0] then 1 else 0)
  }

  // What holds of every node and edge while resource i is about to change state.
  ghost predicate InvExcept(t: Tree, s: State, i: int) {
    && Shape(t, s) && t.IsNode(i)
    && (forall j :: 0 <= j < |t.parent| && j != i ==> NodeInv(t, s, j))
    && (forall c :: 1 <= c < |t.parent| && c != i && t.parent[c] != i ==> EdgeInv(t, s, c))
    && !s.notify[0]
    && s.destroys == (if s.closed[0] then 1 else 0)
    && !s.closed[i] && !s.seen[i] && !s.report[i] && s.doCloses[i] == 0
    && (i > 0 && s.notify[i] ==> s.closing[t.parent[i]])
  }

  lemma DoCloseKeepsInv(t: Tree, s: State, i: int)
    requires InvExcept(t, s, i) && s.closing[i] && CouldBeClose(t, s, i)
    requires forall c :: 1 <= c < |t.parent| && t.parent[c] == i ==> EdgeInv(t, s, c)
    ensures Inv(t, DoClose(t, s, i))
  {
    var s' := DoClose(t, s, i);
    forall j | 0 <= j < |t.parent| ensures NodeInv(t, s', j) {
      assert CouldBeClose(t, s', j) == CouldBeClose(t, s, j);
      assert j != i ==> NodeInv(t, s, j);
    }
    forall c | 1 <= c < |t.parent| ensures EdgeInv(t, s', c) {
      assert c != i ==> EdgeInv(t, s, c);
    }
  }

  lemma CloseKeepsInv(t: Tree, s: State, i: int)
    requires InvExcept(t, s, i) && !s.closing[i]
    requires forall c :: 1 <= c < |t.parent| && t.parent[c] == i ==> !s.notify[c]
    ensures Inv(t, Close(t, s, i))
  {
    var s1 := s.(closing := s.closing[i := true]);
    assert CouldBeClose(t, s1, i) == CouldBeClose(t, s, i);
    forall j | 0 <= j < |t.parent| && j != i ensures NodeInv(t, s1, j) {
      assert NodeInv(t, s, j);
      assert CouldBeClose(t, s1, j) == CouldBeClose(t, s, j);
    }
    forall c | 1 <= c < |t.parent| && c != i && t.parent[c] != i ensures EdgeInv(t, s1, c) {
      assert EdgeInv(t, s, c);
    }
    if CouldBeClose(t, s1, i) {
      forall c | 1 <= c < |t.parent| && t.parent[c] == i ensures EdgeInv(t, s1, c) {
        assert t.Contains(i, c);
      }
      DoCloseKeepsInv(t, s1, i);
    } else {
      NotifyKeepsInv(t, s1, i);
    }
  }

  lemma NotifyKeepsInv(t: Tree, s: State, i: int)
    requires InvExcept(t, s, i) && s.closing[i] && !CouldBeClose(t, s, i)
    requires forall c :: 1 <= c < |t.parent| && t.parent[c] == i ==> !s.notify[c]
    ensures Inv(t, NotifyContained(t, s, i))
  {
    var s' := NotifyContained(t, s, i);
    forall j | 0 <= j < |t.parent| ensures NodeInv(t, s', j) {
      assert CouldBeClose(t, s', j) == CouldBeClose(t, s, j);
      assert j != i ==> NodeInv(t, s, j);
    }
    forall c | 1 <= c < |t.parent| ensures EdgeInv(t, s', c) {
      assert c != i && t.parent[c] != i ==> EdgeInv(t, s, c);
      assert t.Contains(i, c) <==> t.parent[c] == i;
    }
  }

  // An invariant state allows the node changes named by InvExcept.
  lemma InvAllowsChange(t: Tree, s: State, i: int)
    requires Inv(t, s) && t.IsNode(i) && !s.closing[i]
    ensures InvExcept(t, s, i)
    ensures forall c :: 1 <= c < |t.parent| && t.parent[c] == i ==> !s.notify[c]
  {
    assert NodeInv(t, s, i);
    assert i > 0 ==> EdgeInv(t, s, i);
    forall c | 1 <= c < |t.parent| && t.parent[c] == i ensures !s.notify[c] {
      assert EdgeInv(t, s, c);
    }
  }

  lemma RequestKeepsInv(t: Tree, s: State, i: int)
    requires Inv(t, s) && Enabled(t, s, Request(i))
    ensures Inv(t, Next(t, s, Request(i)))
  {
    InvAllowsChange(t, s, i);
    CloseKeepsInv(t, s, i);
  }

  lemma NotifyStepKeepsInv(t: Tree, s: State, i: int)
    requires Inv(t, s) && Enabled(t, s, Notify(i))
    ensures Inv(t, Next(t, s, Notify(i)))
  {
    var s1 := s.(notify := s.notify[i := false]);
    forall j | 0 <= j < |t.parent| ensures NodeInv(t, s1, j) {
      assert NodeInv(t, s, j);
      assert CouldBeClose(t, s1, j) == CouldBeClose(t, s, j);
    }
    forall c | 1 <= c < |t.parent| && (c != i || s.closing[i]) ensures EdgeInv(t, s1, c) {
      assert EdgeInv(t, s, c);
    }
    if !s.closing[i] {
      InvAllowsChange(t, s, i);
      CloseKeepsInv(t, s1, i);
    }
  }

  lemma ReportStepKeepsInv(t: Tree, s: State, i: int)
    requires Inv(t, s) && Enabled(t, s, Report(i))
    ensures Inv(t, Next(t, s, Report(i)))
  {
    assert NodeInv(t, s, i);
    var p := t.parent[i];
    var s1 := s.(report := s.report[i := false], seen := s.seen[i := true]);
    assert NodeInv(t, s, p);
    assert t.Contains(p, i) && !CouldBeClose(t, s, p);
    forall j | 0 <= j < |t.parent| && j != p ensures NodeInv(t, s1, j) {
      assert NodeInv(t, s, j);
      forall c | 1 <= c < |t.parent| && t.Contains(j, c) ensures s1.seen[c] == s.seen[c] {
      }
      assert CouldBeClose(t, s1, j) == CouldBeClose(t, s, j);
    }
    forall c | 1 <= c < |t.parent| && c != i ensures EdgeInv(t, s1, c) {
      assert EdgeInv(t, s, c);
    }
    assert EdgeInv(t, s, i);
    assert p > 0 ==> EdgeInv(t, s, p);
    if s1.closing[p] {
      if CouldBeClose(t, s1, p) {
        DoCloseKeepsInv(t, s1, p);
      }
    } else if t.cascade[p] {
      forall c | 1 <= c < |t.parent| && t.parent[c] == p ensures !s1.notify[c] {
        assert EdgeInv(t, s, c);
      }
      CloseKeepsInv(t, s1, p);
    }
  }

  lemma StepKeepsInv(t: Tree, s: State, step: Step)
    requires Inv(t, s)
    ensures Inv(t, Next(t, s, step))
  {
    if Enabled(t, s, step) {
      match step
      case Request(i) => RequestKeepsInv(t, s, i);
      case Notify(i) => NotifyStepKeepsInv(t, s, i);
      case Report(i) => ReportStepKeepsInv(t, s, i);
    }
  }

  lemma InitInv(t: Tree)
    requires t.Valid()
    ensures Inv(t, Init(t))
  {
    var s := Init(t);
    forall i | 0 <= i < |t.parent| ensures NodeInv(t, s, i) {
    }
  }

  lemma {:induction false} RunKeepsInv(t: Tree, s: State, steps: seq<Step>)
    requires Inv(t, s)
    ensures Inv(t, Run(t, s, steps))
    decreases |steps|
  {
    if steps != [] {
      StepKeepsInv(t, s, steps[0]);
      RunKeepsInv(t, Next(t, s, steps[0]), steps[1..]);
    }
  }

  // ---------- Safety ----------

  // i is p or lies somewhere below it.
  ghost predicate Within(t: Tree, p: int, i: int)
    requires t.Valid() && t.IsNode(i)
    decreases i
  {
    i == p || (i > 0 && Within(t, p, t.parent[i]))
  }

  lemma {:induction false} ClosedMeansAllWithinClosed(t: Tree, s: State, p: int, i: int)
    requires Inv(t, s) && t.IsNode(p) && t.IsNode(i) && Within(t, p, i) && s.closed[p]
    ensures s.closed[i]
    decreases i
  {
    if i != p {
      var q := t.parent[i];
      ClosedMeansAllWithinClosed(t, s, p, q);
      assert NodeInv(t, s, q) && t.Contains(q, i);
      assert NodeInv(t, s, i);
    }
  }

  lemma {:induction false} RootContainsAll(t: Tree, i: int)
    requires t.Valid() && t.IsNode(i)
    ensures Within(t, 0, i)
    decreases i
  {
    if i > 0 {
      RootContainsAll(t, t.parent[i]);
    }
  }

  // Whatever the interleaving: a closed resource is closing, everything inside it is closed,
  // it closed exactly once, and 'destroy' runs at most once, only when all resources are closed.
  lemma ClosingIsSafe(t: Tree, steps: seq<Step>)
    requires t.Valid()
    ensures var s := Run(t, Init(t), steps);
            && (forall i :: 0 <= i < |t.parent| ==> (s.closed[i] ==> s.closing[i]) && s.doCloses[i] <= 1)
            && (forall p, i :: t.IsNode(p) && t.IsNode(i) && Within(t, p, i) && s.closed[p] ==> s.closed[i])
            && s.destroys <= 1
            && (s.destroys == 1 ==> forall i :: 0 <= i < |t.parent| ==> s.closed[i])
  {
    InitInv(t);
    RunKeepsInv(t, Init(t), steps);
    var s := Run(t, Init(t), steps);
    forall p, i | t.IsNode(p) && t.IsNode(i) && Within(t, p, i) && s.closed[p] ensures s.closed[i] {
      ClosedMeansAllWithinClosed(t, s, p, i);
    }
    forall i | 0 <= i < |t.parent| ensures (s.closed[i] ==> s.closing[i]) && s.doCloses[i] <= 1 {
      assert NodeInv(t, s, i);
    }
    forall i | 0 <= i < |t.parent| && s.destroys == 1 ensures s.closed[i] {
      RootContainsAll(t, i);
      ClosedMeansAllWithinClosed(t, s, 0, i);
    }
  }

  // ---------- Progress ----------

  predicate IsDelivery(step: Step) {
    step.Notify? || step.Report?
  }

  // Inside a resource that is closing but not closed, some delivery is pending.
  lemma {:induction false} SomeDeliveryEnabled(t: Tree, s: State, i: int) returns (step: Step)
    requires Inv(t, s) && t.IsNode(i) && s.closing[i] && !s.closed[i]
    ensures IsDelivery(step) && Enabled(t, s, step) && Within(t, i, step.node)
    decreases |t.parent| - i
  {
    assert NodeInv(t, s, i) && !CouldBeClose(t, s, i);
    var c :| 1 <= c < |t.parent| && t.Contains(i, c) && !s.seen[c];
    assert EdgeInv(t, s, c) && NodeInv(t, s, c);
    assert Within(t, i, c);
    if s.notify[c] {
      step := Notify(c);
    } else if s.closed[c] {
      step := Report(c);
    } else {
      step := SomeDeliveryEnabled(t, s, c);
      WithinTransitive(t, i, c, step.node);
    }
  }

  lemma {:induction false} WithinTransitive(t: Tree, a: int, b: int, c: int)
    requires t.Valid() && t.IsNode(b) && t.IsNode(c) && Within(t, a, b) && Within(t, b, c)
    ensures Within(t, a, c)
    decreases c
  {
    if c != b {
      WithinTransitive(t, a, b, t.parent[c]);
    }
  }

  ghost predicate Quiet(t: Tree, s: State)
    requires Shape(t, s)
  {
    forall step :: IsDelivery(step) ==> !Enabled(t, s, step)
  }

  // Potential of one resource: the closing work and the notifications still to come.
  function Potential(t: Tree, s: State, i: int): nat
    requires Shape(t, s) && t.IsNode(i)
  {
    (if s.closing[i] then 0 else 1) + (if s.closed[i] then 0 else 2)
    + (if s.notify[i] then 1 else 0) + (if s.report[i] then 1 else 0)
    + (if i > 0 && s.closing[t.parent[i]] then 0 else 1)
  }

  function SumTo(t: Tree, s: State, n: nat): nat
    requires Shape(t, s) && n <= |t.parent|
  {
    if n == 0 then 0 else SumTo(t, s, n - 1) + Potential(t, s, n - 1)
  }

  function Measure(t: Tree, s: State): nat
    requires Shape(t, s)
  {
    SumTo(t, s, |t.parent|)
  }

  lemma {:induction false} SumDecreases(t: Tree, s: State, s': State, i: int, n: nat)
    requires Shape(t, s) && Shape(t, s') && t.IsNode(i) && n <= |t.parent|
    requires forall j :: 0 <= j < |t.parent| ==> Potential(t, s', j) <= Potential(t, s, j)
    requires Potential(t, s', i) < Potential(t, s, i)
    ensures SumTo(t, s', n) <= SumTo(t, s, n)
    ensures i < n ==> SumTo(t, s', n) < SumTo(t, s, n)
  {
    if n > 0 {
      SumDecreases(t, s, s', i, n - 1);
    }
  }

  lemma CloseLowersPotential(t: Tree, s: State, i: int)
    requires InvExcept(t, s, i) && !s.closing[i]
    ensures var s' := Close(t, s, i);
            && (forall j :: 0 <= j < |t.parent| ==> Potential(t, s', j) <= Potential(t, s, j))
            && Potential(t, s', i) < Potential(t, s, i)
  {
    var s1 := s.(closing := s.closing[i := true]);
    if CouldBeClose(t, s1, i) {
      DoCloseLowersPotential(t, s, i);
    } else {
      NotifyingLowersPotential(t, s, i);
    }
  }

  lemma DoCloseLowersPotential(t: Tree, s: State, i: int)
    requires InvExcept(t, s, i) && !s.closing[i]
    ensures var s' := DoClose(t, s.(closing := s.closing[i := true]), i);
            && (forall j :: 0 <= j < |t.parent| ==> Potential(t, s', j) <= Potential(t, s, j))
            && Potential(t, s', i) < Potential(t, s, i)
  {
  }

  lemma NotifyingLowersPotential(t: Tree, s: State, i: int)
    requires InvExcept(t, s, i) && !s.closing[i]
    ensures var s' := NotifyContained(t, s.(closing := s.closing[i := true]), i);
            && (forall j :: 0 <= j < |t.parent| ==> Potential(t, s', j) <= Potential(t, s, j))
            && Potential(t, s', i) < Potential(t, s, i)
  {
    var s' := NotifyContained(t, s.(closing := s.closing[i := true]), i);
    forall j | 0 <= j < |t.parent| ensures Potential(t, s', j) <= Potential(t, s, j) {
      assert t.Contains(i, j) <==> j >= 1 && t.parent[j] == i;
    }
  }

  lemma StepLowersMeasure(t: Tree, s: State, step: Step)
    requires Inv(t, s) && Enabled(t, s, step)
    ensures Measure(t, Next(t, s, step)) < Measure(t, s)
  {
    var s' := Next(t, s, step);
    match step
    case Request(i) =>
      InvAllowsChange(t, s, i);
      RequestLowersPotential(t, s, i);
      SumDecreases(t, s, s', i, |t.parent|);
    case Notify(i) =>
      NotifyLowersPotential(t, s, i);
      SumDecreases(t, s, s', i, |t.parent|);
    case Report(i) =>
      ReportLowersPotential(t, s, i);
      SumDecreases(t, s, s', i, |t.parent|);
  }

  ghost predicate Lowers(t: Tree, s: State, s': State, i: int)
    requires Shape(t, s) && Shape(t, s') && t.IsNode(i)
  {
    && (forall j :: 0 <= j < |t.parent| ==> Potential(t, s', j) <= Potential(t, s, j))
    && Potential(t, s', i) < Potential(t, s, i)
  }

  lemma RequestLowersPotential(t: Tree, s: State, i: int)
    requires Inv(t, s) && Enabled(t, s, Request(i))
    ensures Lowers(t, s, Next(t, s, Request(i)), i)
  {
    InvAllowsChange(t, s, i);
    CloseLowersPotential(t, s, i);
  }

  lemma SameCouldBeClose(t: Tree, s: State, s': State, i: int)
    requires Shape(t, s) && Shape(t, s') && s.seen == s'.seen
    ensures CouldBeClose(t, s, i) == CouldBeClose(t, s', i)
  {
  }

  lemma NotifyLowersPotential(t: Tree, s: State, i: int)
    requires Inv(t, s) && Enabled(t, s, Notify(i))
    ensures Lowers(t, s, Next(t, s, Notify(i)), i)
  {
    var s1 := s.(notify := s.notify[i := false]);
    assert Lowers(t, s, s1, i);
    if !s.closing[i] {
      InvAllowsChange(t, s, i);
      forall j | 0 <= j < |t.parent| && j != i ensures NodeInv(t, s1, j) {
        assert NodeInv(t, s, j);
        SameCouldBeClose(t, s, s1, j);
      }
      forall c | 1 <= c < |t.parent| && c != i && t.parent[c] != i ensures EdgeInv(t, s1, c) {
        assert EdgeInv(t, s, c);
      }
      CloseLowersPotential(t, s1, i);
    }
  }

  lemma ReportLowersPotential(t: Tree, s: State, i: int)
    requires Inv(t, s) && Enabled(t, s, Report(i))
    ensures Lowers(t, s, Next(t, s, Report(i)), i)
  {
    assert NodeInv(t, s, i);
    var p := t.parent[i];
    var s1 := s.(report := s.report[i := false], seen := s.seen[i := true]);
    assert Lowers(t, s, s1, i);
    assert NodeInv(t, s, p) && t.Contains(p, i);
    assert !s.closed[p];
    if !s.closing[p] && t.cascade[p] {
      InvAllowsChange(t, s, p);
      ReportAllowsChange(t, s, i);
      CloseLowersPotential(t, s1, p);
    }
  }

  // While a report is taken, nothing changes away from the container that gets it.
  lemma ReportAllowsChange(t: Tree, s: State, i: int)
    requires Inv(t, s) && Enabled(t, s, Report(i)) && i > 0
    requires InvExcept(t, s, t.parent[i])
    ensures InvExcept(t, s.(report := s.report[i := false], seen := s.seen[i := true]), t.parent[i])
  {
    var p := t.parent[i];
    var s1 := s.(report := s.report[i := false], seen := s.seen[i := true]);
    forall j | 0 <= j < |t.parent| && j != p ensures NodeInv(t, s1, j) {
      assert NodeInv(t, s, j);
      assert CouldBeClose(t, s1, j) == CouldBeClose(t, s, j);
    }
    forall c | 1 <= c < |t.parent| && c != p && t.parent[c] != p ensures EdgeInv(t, s1, c) {
      assert EdgeInv(t, s, c);
    }
  }

  predicate AllEnabled(t: Tree, s: State, steps: seq<Step>)
    requires Shape(t, s)
    decreases |steps|
  {
    steps == [] || (Enabled(t, s, steps[0]) && AllEnabled(t, Next(t, s, steps[0]), steps[1..]))
  }

  // The measure bounds the length of every run of enabled steps.
  lemma {:induction false} RunsAreBounded(t: Tree, s: State, steps: seq<Step>)
    requires Inv(t, s) && AllEnabled(t, s, steps)
    ensures |steps| + Measure(t, Run(t, s, steps)) <= Measure(t, s)
    decreases |steps|
  {
    if steps != [] {
      StepLowersMeasure(t, s, steps[0]);
      StepKeepsInv(t, s, steps[0]);
      RunsAreBounded(t, Next(t, s, steps[0]), steps[1..]);
    }
  }

  lemma {:induction false} InitSum(t: Tree, n: nat)
    requires t.Valid() && n <= |t.parent|
    ensures SumTo(t, Init(t), n) == 4 * n
  {
    if n > 0 {
      InitSum(t, n - 1);
    }
  }

  // Every run ends: over n resources there are at most 4n steps, and once no delivery is
  // pending, every resource that was told to close is closed. If the top was told, all are
  // closed and 'destroy' has run exactly once.
  lemma ClosingCompletes(t: Tree, steps: seq<Step>)
    requires t.Valid() && AllEnabled(t, Init(t), steps)
    ensures var s := Run(t, Init(t), steps);
            && |steps| <= 4 * |t.parent|
            && (Quiet(t, s) ==> forall i :: 0 <= i < |t.parent| && s.closing[i] ==> s.closed[i])
            && (Quiet(t, s) && s.closing[0] ==>
                  s.destroys == 1 && forall i :: 0 <= i < |t.parent| ==> s.closed[i])
  {
    InitInv(t);
    InitSum(t, |t.parent|);
    RunsAreBounded(t, Init(t), steps);
    RunKeepsInv(t, Init(t), steps);
    var s := Run(t, Init(t), steps);
    if Quiet(t, s) {
      forall i | 0 <= i < |t.parent| && s.closing[i] ensures s.closed[i] {
        if !s.closed[i] {
          var step := SomeDeliveryEnabled(t, s, i);
        }
      }
      forall i | 0 <= i < |t.parent| && s.closing[0] ensures s.closed[i] {
        RootContainsAll(t, i);
        ClosedMeansAllWithinClosed(t, s, 0, i);
      }
    }
  }

  // From any state the pending deliveries, in some order, come to an end.
  lemma {:induction false} DeliveriesEnd(t: Tree, s: State) returns (steps: seq<Step>)
    requires Inv(t, s)
    ensures AllEnabled(t, s, steps) && (forall step | step in steps :: IsDelivery(step)) && Quiet(t, Run(t, s, steps))
    decreases Measure(t, s)
  {
    if Quiet(t, s) {
      steps := [];
    } else {
      var step :| IsDelivery(step) && Enabled(t, s, step);
      StepKeepsInv(t, s, step);
      StepLowersMeasure(t, s, step);
      var rest := DeliveriesEnd(t, Next(t, s, step));
      steps := [step] + rest;
      assert steps[1..] == rest;
    }
  }

  // ---------- What a request comes to ----------

  // A request closes the resource it names, and no step takes that back.
  lemma RequestIsHeard(t: Tree, s: State, i: int)
    requires Inv(t, s) && t.IsNode(i)
    ensures Next(t, s, Request(i)).closing[i]
  {
  }

  lemma ClosingStays(t: Tree, s: State, step: Step, i: int)
    requires Shape(t, s) && t.IsNode(i) && s.closing[i]
    ensures Next(t, s, step).closing[i]
  {
  }

  lemma {:induction false} RequestsAreHeard(t: Tree, s: State, steps: seq<Step>, i: int)
    requires Inv(t, s) && t.IsNode(i) && (s.closing[i] || Request(i) in steps)
    ensures Run(t, s, steps).closing[i]
    decreases |steps|
  {
    if steps != [] {
      StepKeepsInv(t, s, steps[0]);
      if s.closing[i] {
        ClosingStays(t, s, steps[0], i);
      } else if steps[0] == Request(i) {
        RequestIsHeard(t, s, i);
      }
      RequestsAreHeard(t, Next(t, s, steps[0]), steps[1..], i);
    }
  }

  // At rest, whatever was asked to close is closed, with everything inside it, and so is every
  // container that starts to close by itself when a resource of its own has closed.
  lemma RequestedIsClosed(t: Tree, steps: seq<Step>)
    requires t.Valid() && Quiet(t, Run(t, Init(t), steps))
    ensures var s := Run(t, Init(t), steps);
            && (forall i | t.IsNode(i) && Request(i) in steps :: s.closed[i])
            && (forall c | 1 <= c < |t.parent| && s.closed[t.parent[c]] :: s.closed[c])
            && (forall c | 1 <= c < |t.parent| && s.closed[c] && t.cascade[t.parent[c]] :: s.closed[t.parent[c]])
  {
    var s := Run(t, Init(t), steps);
    InitInv(t);
    RunKeepsInv(t, Init(t), steps);
    RestMeansClosed(t, s);
    forall i | t.IsNode(i) && Request(i) in steps
      ensures s.closed[i]
    {
      RequestsAreHeard(t, Init(t), steps, i);
    }
    forall c | 1 <= c < |t.parent|
      ensures s.closed[t.parent[c]] ==> s.closed[c]
      ensures s.closed[c] && t.cascade[t.parent[c]] ==> s.closed[t.parent[c]]
    {
      assert NodeInv(t, s, c) && NodeInv(t, s, t.parent[c]) && EdgeInv(t, s, c);
      assert t.Contains(t.parent[c], c);
      assert !Enabled(t, s, Report(c));
    }
  }

  lemma RestMeansClosed(t: Tree, s: State)
    requires Inv(t, s) && Quiet(t, s)
    ensures forall i | t.IsNode(i) :: s.closing[i] == s.closed[i]
  {
    forall i | t.IsNode(i)
      ensures s.closing[i] == s.closed[i]
    {
      assert NodeInv(t, s, i);
      if s.closing[i] && !s.closed[i] {
        var step := SomeDeliveryEnabled(t, s, i);
      }
    }
  }

  // ---------- The outcome does not depend on the interleaving ----------

  // A set of resources that closing cannot leave: downwards always, upwards where it cascades.
  ghost predicate Spread(t: Tree, nodes: set<int>)
    requires t.Valid()
  {
    forall c :: 1 <= c < |t.parent| ==>
      && (t.parent[c] in nodes ==> c in nodes)
      && (c in nodes && t.cascade[t.parent[c]] ==> t.parent[c] in nodes)
  }

  ghost predicate Confined(t: Tree, s: State, nodes: set<int>) {
    Shape(t, s) && forall i :: 0 <= i < |t.parent| && (s.closing[i] || s.notify[i]) ==> i in nodes
  }

  // The resources named by the closing requests among the steps.
  function Named(t: Tree, steps: seq<Step>): set<int> {
    set step | step in steps && step.Request? && t.IsNode(step.node) :: step.node
  }

  lemma {:induction false} ClosingStaysConfined(t: Tree, s: State, steps: seq<Step>, nodes: set<int>)
    requires Inv(t, s) && Spread(t, nodes) && Confined(t, s, nodes) && Named(t, steps) <= nodes
    ensures Confined(t, Run(t, s, steps), nodes)
    decreases |steps|
  {
    if steps != [] {
      StepKeepsInv(t, s, steps[0]);
      assert steps[0] in steps && forall step | step in steps[1..] :: step in steps;
      StepStaysConfined(t, s, steps[0], nodes);
      ClosingStaysConfined(t, Next(t, s, steps[0]), steps[1..], nodes);
    }
  }

  lemma StepStaysConfined(t: Tree, s: State, step: Step, nodes: set<int>)
    requires Inv(t, s) && Spread(t, nodes) && Confined(t, s, nodes)
    requires step.Request? && t.IsNode(step.node) ==> step.node in nodes
    ensures Confined(t, Next(t, s, step), nodes)
  {
    if Enabled(t, s, step) {
      assert NodeInv(t, s, step.node);
    }
  }

  ghost function ClosedSet(t: Tree, s: State): set<int>
    requires Shape(t, s)
  {
    set i | 0 <= i < |t.parent| && s.closed[i]
  }

  // At rest, the closed resources are the least set that contains those named by the requests
  // and that closing cannot leave.
  lemma RestIsLeastSpread(t: Tree, steps: seq<Step>, nodes: set<int>)
    requires t.Valid() && Quiet(t, Run(t, Init(t), steps)) && Named(t, steps) <= nodes && Spread(t, nodes)
    ensures var s := Run(t, Init(t), steps);
            Named(t, steps) <= ClosedSet(t, s) <= nodes && Spread(t, ClosedSet(t, s))
  {
    InitInv(t);
    RunKeepsInv(t, Init(t), steps);
    RequestedIsClosed(t, steps);
    RestMeansClosed(t, Run(t, Init(t), steps));
    ClosingStaysConfined(t, Init(t), steps, nodes);
  }

  // Two runs at rest that were given the same requests have closed the same resources, however
  // their requests and deliveries were interleaved.
  lemma OutcomeIsUnique(t: Tree, steps: seq<Step>, others: seq<Step>)
    requires t.Valid()
    requires Quiet(t, Run(t, Init(t), steps)) && Quiet(t, Run(t, Init(t), others))
    requires forall i | t.IsNode(i) :: Request(i) in steps <==> Request(i) in others
    ensures ClosedSet(t, Run(t, Init(t), steps)) == ClosedSet(t, Run(t, Init(t), others))
  {
    var s, s' := Run(t, Init(t), steps), Run(t, Init(t), others);
    assert Named(t, steps) == Named(t, others);
    var all := set i | 0 <= i < |t.parent| && t.IsNode(i);
    RestIsLeastSpread(t, steps, all);
    RestIsLeastSpread(t, others, all);
    RestIsLeastSpread(t, steps, ClosedSet(t, s'));
    RestIsLeastSpread(t, others, ClosedSet(t, s));
  }

  // ---------- The repository's own tree ----------

  // An app, an engine, a remote and its connection: a connection that closes takes its remote
  // with it, and a remote its engine, and an engine its app, except in long running mode.
  function AppTree(appRunsLong: bool, engineRunsLong: bool): Tree {
    Tree([-1, 0, 1, 2], [!appRunsLong, !engineRunsLong, true, true])
  }

  // The stream breaks, and nothing else is asked to close.
  lemma BrokenStream(appRunsLong: bool, engineRunsLong: bool, steps: seq<Step>)
    requires var t := AppTree(appRunsLong, engineRunsLong);
             && t.Valid() && Quiet(t, Run(t, Init(t), steps))
             && forall i | t.IsNode(i) :: Request(i) in steps <==> i == 3
    ensures var t := AppTree(appRunsLong, engineRunsLong);
            ClosedSet(t, Run(t, Init(t), steps))
            == if engineRunsLong then {2, 3} else if appRunsLong then {1, 2, 3} else {0, 1, 2, 3}
  {
    var t := AppTree(appRunsLong, engineRunsLong);
    var expected := if engineRunsLong then {2, 3} else if appRunsLong then {1, 2, 3} else {0, 1, 2, 3};
    assert Request(3) in steps && t.IsNode(3);
    assert Named(t, steps) == {3};
    RestIsLeastSpread(t, steps, expected);
    var s := Run(t, Init(t), steps);
    RequestedIsClosed(t, steps);
    assert s.closed[3] && t.parent[3] == 2 && t.cascade[2] && t.parent[2] == 1 && t.parent[1] == 0;
  }

  // The app closes, and so does everything.
  lemma ClosedApp(t: Tree, steps: seq<Step>)
    requires t.Valid() && Quiet(t, Run(t, Init(t), steps)) && Request(0) in steps
    ensures var s := Run(t, Init(t), steps); s.destroys == 1 && forall i | t.IsNode(i) :: s.closed[i]
  {
    var s := Run(t, Init(t), steps);
    InitInv(t);
    RunKeepsInv(t, Init(t), steps);
    RequestedIsClosed(t, steps);
    forall i | t.IsNode(i)
      ensures s.closed[i]
    {
      RootContainsAll(t, i);
      ClosedMeansAllWithinClosed(t, s, 0, i);
    }
  }

  // ---------- The flow as code ----------

  // The flags of all resources and the notifications under way, updated in place.
  class Resources {
    const tree: Tree
    var closing: seq<bool>
    var closed: seq<bool>
    var notify: seq<bool>
    var report: seq<bool>
    var seen: seq<bool>
    var doCloses: seq<nat>
    var destroys: nat

    ghost function Snapshot(): State
      reads this
    {
      State(closing, closed, notify, report, seen, doCloses, destroys)
    }

    ghost predicate Valid()
      reads this
    {
      Inv(tree, Snapshot())
    }

    constructor (tree: Tree)
      requires tree.Valid()
      ensures this.tree == tree && Valid() && Snapshot() == Init(tree)
    {
      this.tree := tree;
      var n := |tree.parent|;
      var no := seq(n, i => false);
      closing, closed, notify, report, seen := no, no, no, no, no;
      doCloses, destroys := seq(n, i => 0), 0;
      new;
      assert Snapshot() == Init(tree);
      InitInv(tree);
    }

    // xxx_could_be_close()
    method MayClose(i: int) returns (r: bool)
      requires Shape(tree, Snapshot()) && tree.IsNode(i)
      ensures r == CouldBeClose(tree, Snapshot(), i)
    {
      var c := 1;
      while c < |tree.parent|
        invariant 1 <= c <= |tree.parent|
        invariant forall d :: 1 <= d < c ==> tree.Contains(i, d) ==> seen[d]
      {
        if tree.parent[c] == i && !seen[c] {
          assert tree.Contains(i, c);
          return false;
        }
        c := c + 1;
      }
      return true;
    }

    // xxx_do_close()
    method PerformClose(i: int)
      requires Shape(tree, Snapshot()) && tree.IsNode(i)
      modifies this
      ensures Snapshot() == DoClose(tree, old(Snapshot()), i)
    {
      closed := closed[i := true];
      doCloses := doCloses[i := doCloses[i] + 1];
      if i == 0 {
        destroys := destroys + 1;
      } else {
        report := report[i := true];
      }
    }

    // xxx_on_close()
    method OnResourceClose(i: int)
      requires Shape(tree, Snapshot()) && tree.IsNode(i)
      modifies this
      ensures Snapshot() == OnClose(tree, old(Snapshot()), i)
    {
      var ready := MayClose(i);
      if ready {
        PerformClose(i);
      }
    }

    // xxx_close()
    method CloseResource(i: int)
      requires Shape(tree, Snapshot()) && tree.IsNode(i)
      modifies this
      ensures Snapshot() == Close(tree, old(Snapshot()), i)
    {
      if closing[i] {
        return;
      }
      closing := closing[i := true];
      var ready := MayClose(i);
      if ready {
        PerformClose(i);
        return;
      }
      ghost var before := notify;
      var c := 1;
      while c < |tree.parent|
        invariant 1 <= c <= |tree.parent| && |notify| == |before|
        invariant Snapshot() == old(Snapshot()).(closing := closing, notify := notify)
        invariant closing == old(closing)[i := true]
        invariant forall d :: 0 <= d < |before| ==>
            notify[d] == (before[d] || (d < c && tree.Contains(i, d) && !seen[d]))
      {
        if tree.parent[c] == i && !seen[c] {
          notify := notify[c := true];
        }
        c := c + 1;
      }
      assert notify == NotifyContained(tree, old(Snapshot()), i).notify;
    }

    // A request from outside the tree, ex: the app is told to close, or a stream is broken.
    method RequestClose(i: int)
      requires Valid() && tree.IsNode(i)
      modifies this
      ensures Valid() && Snapshot() == Next(tree, old(Snapshot()), Request(i))
      ensures closing[i]
    {
      if !closing[i] {
        CloseResource(i);
      }
      StepKeepsInv(tree, old(Snapshot()), Request(i));
    }

    // The container's notification reaches the resource.
    method DeliverNotify(i: int)
      requires Valid() && tree.IsNode(i)
      modifies this
      ensures Valid() && Snapshot() == Next(tree, old(Snapshot()), Notify(i))
    {
      if notify[i] {
        notify := notify[i := false];
        CloseResource(i);
      }
      StepKeepsInv(tree, old(Snapshot()), Notify(i));
    }

    // "I am closed" reaches the container: it goes on with its own closing, or starts it.
    method DeliverReport(i: int)
      requires Valid() && tree.IsNode(i)
      modifies this
      ensures Valid() && Snapshot() == Next(tree, old(Snapshot()), Report(i))
    {
      if report[i] {
        report := report[i := false];
        seen := seen[i := true];
        var p := tree.parent[i];
        if tree.IsNode(p) {
          if closing[p] {
            OnResourceClose(p);
          } else if tree.cascade[p] {
            CloseResource(p);
          }
        }
      }
      StepKeepsInv(tree, old(Snapshot()), Report(i));
    }
  }
}
