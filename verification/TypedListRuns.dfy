/**
  Whole runs over two typed lists, against sequences used as double-ended queues, and what
  the structural invariant says about the two pointer chains.
 */
module TypedListRuns {
  import opened TypedListNode
  import opened TypedList

  // ---------- The two chains ----------

  // i steps along `next` from the front; the walk leaves the list after exactly |nodes| steps,
  // so the chain has no cycle.
  ghost function ForwardAt<T>(l: List<T>, i: nat): (n: Node?<T>)
    requires l.Valid()
    reads l, l.nodes
    ensures n == NodeAt(l.nodes, i)
  {
    if i == 0 then l.front
    else
      var n := ForwardAt(l, i - 1);
      if n == null then null else n.next
  }

  // i steps along `prev` from the back.
  ghost function BackwardAt<T>(l: List<T>, i: nat): (n: Node?<T>)
    requires l.Valid()
    reads l, l.nodes
    ensures n == NodeAt(l.nodes, |l.nodes| - 1 - i)
  {
    if i == 0 then l.back
    else
      var n := BackwardAt(l, i - 1);
      if n == null then null else n.prev
  }

  // The backward chain is the forward chain reversed, and both end after `size` nodes.
  lemma ChainsMirror<T>(l: List<T>, i: nat)
    requires l.Valid() && i < l.size
    ensures ForwardAt(l, i) != null && ForwardAt(l, i) == BackwardAt(l, l.size - 1 - i)
    ensures ForwardAt(l, l.size) == null == BackwardAt(l, l.size)
  {
  }

  // ---------- The run-time check is weaker ----------

  // Three nodes whose middle `prev` is wrong: the check accepts the list, but no sequence of
  // nodes explains its fields.
  method CheckIntegrityAcceptsBrokenList(x: Node<int>, y: Node<int>, z: Node<int>) returns (l: List<int>)
    requires x != y && y != z && x != z && x.live && y.live && z.live
    modifies x, y, z
    ensures l.CheckIntegrity()
    ensures forall ns: seq<Node<int>> :: !Linked(l.front, l.back, l.size, ns)
  {
    l := new List<int>.Init();
    x.next, y.next, z.next := y, z, null;
    x.prev, y.prev, z.prev := null, z, y;
    l.front, l.back, l.size := x, z, 3;
    forall ns: seq<Node<int>> ensures !Linked(l.front, l.back, l.size, ns) {
      if |ns| == 3 {
        // The successor of the front and the predecessor of that successor refute Linked.
        var successor, predecessor := ns[0].next, ns[1].prev;
      }
    }
  }

  // Up to one node the check says everything: it is the structural invariant.
  lemma CheckIntegrityIsExactUpToOneNode<T>(l: List<T>)
    requires l.size <= 1 && (l.front != null ==> l.front.live)
    ensures l.CheckIntegrity() <==>
            Linked(l.front, l.back, l.size, if l.size == 1 && l.front != null then [l.front] else [])
  {
    if l.CheckIntegrity() && l.size == 1 {
      var ns := [l.front];
      assert Linked(l.front, l.back, l.size, ns);
    }
    if l.size == 1 && l.front != null && Linked(l.front, l.back, 1, [l.front]) {
      assert [l.front][0].next == null && [l.front][0].prev == null;
    }
  }

  // ---------- Runs of operations ----------

  datatype Op<T> =
    | OpPushFront(item: T)
    | OpPushBack(item: T)
    | OpPopFront
    | OpPopBack
    | OpSwap
    | OpConcat

  // The contents of two lists and the values popped so far, oldest first.
  datatype Lists<T> = Lists(first: seq<T>, second: seq<T>, popped: seq<T>)

  function Apply<T>(op: Op<T>, s: Lists<T>): Lists<T> {
    match op
    case OpPushFront(item) => s.(first := [item] + s.first)
    case OpPushBack(item) => s.(first := s.first + [item])
    case OpPopFront =>
      if s.first == [] then s
      else s.(first := s.first[1..], popped := s.popped + [s.first[0]])
    case OpPopBack =>
      if s.first == [] then s
      else
        var last := |s.first| - 1;
        s.(first := s.first[..last], popped := s.popped + [s.first[last]])
    case OpSwap => s.(first := s.second, second := s.first)
    case OpConcat => s.(first := s.first + s.second, second := [])
  }

  function ApplyAll<T>(ops: seq<Op<T>>, s: Lists<T>): Lists<T> {
    if ops == [] then s else ApplyAll(ops[1..], Apply(ops[0], s))
  }

  ghost predicate Apart<T>(first: List<T>, second: List<T>)
    reads first, second, first.nodes, second.nodes
  {
    && first != second && first.Valid() && second.Valid()
    && forall n | n in first.nodes :: n !in second.nodes
  }

  method Push<T>(first: List<T>, second: List<T>, callbacks: Callbacks<T>, item: T, atFront: bool)
    requires Apart(first, second)
    modifies first, first.nodes
    ensures Apart(first, second)
    ensures forall n | n in first.nodes :: n in old(first.nodes) || fresh(n)
    ensures first.Data() == if atFront then [item] + old(first.Data()) else old(first.Data()) + [item]
    ensures second.nodes == old(second.nodes) && second.Data() == old(second.Data())
  {
    var node := new Node<T>.Create(item, callbacks);
    if atFront {
      first.PushFront(node);
    } else {
      first.PushListNodeBack(node);
    }
    forall j | 0 <= j < |second.nodes| ensures unchanged(second.nodes[j]) {
      assert second.nodes[j] in old(second.nodes);
    }
  }

  method Pop<T>(first: List<T>, second: List<T>, popped: seq<T>, atFront: bool)
    returns (popped': seq<T>)
    requires Apart(first, second)
    modifies first, first.nodes
    ensures Apart(first, second)
    ensures forall n | n in first.nodes :: n in old(first.nodes)
    ensures Lists(first.Data(), second.Data(), popped') ==
            Apply(if atFront then OpPopFront else OpPopBack, old(Lists(first.Data(), second.Data(), popped)))
    ensures second.nodes == old(second.nodes)
  {
    var node: Node?<T>;
    if atFront {
      node := first.PopFront();
    } else {
      node := first.PopBack();
    }
    popped' := if node != null then popped + [node.data] else popped;
    forall j | 0 <= j < |second.nodes| ensures unchanged(second.nodes[j]) {
      assert second.nodes[j] in old(second.nodes);
    }
  }

  // One operation on real lists does to the contents what it does to the sequences.
  method Step<T>(first: List<T>, second: List<T>, callbacks: Callbacks<T>, op: Op<T>, popped: seq<T>)
    returns (popped': seq<T>)
    requires Apart(first, second)
    modifies first, second, first.nodes, second.nodes
    ensures Apart(first, second)
    ensures forall j | 0 <= j < |first.nodes| ::
        first.nodes[j] in old(first.nodes) || first.nodes[j] in old(second.nodes) || fresh(first.nodes[j])
    ensures forall j | 0 <= j < |second.nodes| ::
        second.nodes[j] in old(first.nodes) || second.nodes[j] in old(second.nodes) || fresh(second.nodes[j])
    ensures Lists(first.Data(), second.Data(), popped') ==
            Apply(op, old(Lists(first.Data(), second.Data(), popped)))
  {
    popped' := popped;
    if op.OpPushFront? || op.OpPushBack? {
      Push(first, second, callbacks, op.item, op.OpPushFront?);
    } else if op.OpPopFront? || op.OpPopBack? {
      popped' := Pop(first, second, popped, op.OpPopFront?);
    } else if op.OpSwap? {
      first.Swap(second);
    } else {
      first.Concat(second);
    }
  }

  // Every run of pushes, pops, swaps and concatenations refines the run on sequences, keeps
  // both lists structurally valid and therefore never trips the run-time check.
  method RunAll<T>(first: List<T>, second: List<T>, callbacks: Callbacks<T>, ops: seq<Op<T>>)
    returns (popped: seq<T>)
    requires Apart(first, second)
    modifies first, second, first.nodes, second.nodes
    ensures Apart(first, second) && first.CheckIntegrity() && second.CheckIntegrity()
    ensures Lists(first.Data(), second.Data(), popped) ==
            ApplyAll(ops, old(Lists(first.Data(), second.Data(), [])))
  {
    popped := [];
    var i := 0;
    ghost var start := Lists(first.Data(), second.Data(), []);
    while i < |ops|
      invariant i <= |ops|
      invariant Apart(first, second)
      invariant forall j | 0 <= j < |first.nodes| ::
        first.nodes[j] in old(first.nodes) || first.nodes[j] in old(second.nodes) || fresh(first.nodes[j])
      invariant forall j | 0 <= j < |second.nodes| ::
        second.nodes[j] in old(first.nodes) || second.nodes[j] in old(second.nodes) || fresh(second.nodes[j])
      invariant ApplyAll(ops[i..], Lists(first.Data(), second.Data(), popped)) == ApplyAll(ops, start)
    {
      assert ops[i..][0] == ops[i] && ops[i..][1..] == ops[i + 1..];
      popped := Step(first, second, callbacks, ops[i], popped);
      i := i + 1;
    }
    first.ValidPassesCheckIntegrity();
    second.ValidPassesCheckIntegrity();
  }

  // ---------- Laws of whole runs ----------

  function Pushed<T>(op: Op<T>): seq<T> {
    if op.OpPushFront? || op.OpPushBack? then [op.item] else []
  }

  function PushedBy<T>(ops: seq<Op<T>>): seq<T> {
    if ops == [] then [] else Pushed(ops[0]) + PushedBy(ops[1..])
  }

  ghost function Held<T>(s: Lists<T>): multiset<T> {
    multiset(s.first) + multiset(s.second) + multiset(s.popped)
  }

  // No run loses or duplicates a value.
  lemma {:induction false} RunConserves<T>(ops: seq<Op<T>>, s: Lists<T>)
    ensures Held(ApplyAll(ops, s)) == Held(s) + multiset(PushedBy(ops))
  {
    if ops != [] {
      StepConserves(ops[0], s);
      RunConserves(ops[1..], Apply(ops[0], s));
    }
  }

  lemma StepConserves<T>(op: Op<T>, s: Lists<T>)
    ensures Held(Apply(op, s)) == Held(s) + multiset(Pushed(op))
  {
    if op.OpPopFront? || op.OpPopBack? {
      PopConserves(op, s);
    } else if op.OpPushFront? {
      assert multiset([op.item] + s.first) == multiset{op.item} + multiset(s.first);
    } else if op.OpPushBack? {
      assert multiset(s.first + [op.item]) == multiset(s.first) + multiset{op.item};
    } else if op.OpConcat? {
      assert multiset(s.first + s.second) == multiset(s.first) + multiset(s.second);
    }
  }

  lemma PopConserves<T>(op: Op<T>, s: Lists<T>)
    requires op.OpPopFront? || op.OpPopBack?
    ensures Held(Apply(op, s)) == Held(s)
  {
    if s.first != [] {
      var n := |s.first|;
      if op.OpPopFront? {
        assert s.first == [s.first[0]] + s.first[1..];
        assert multiset(s.first) == multiset{s.first[0]} + multiset(s.first[1..]);
      } else {
        assert s.first == s.first[..n - 1] + [s.first[n - 1]];
        assert multiset(s.first) == multiset(s.first[..n - 1]) + multiset{s.first[n - 1]};
      }
    }
  }

  lemma {:induction false} ApplyAllConcat<T>(xs: seq<Op<T>>, ys: seq<Op<T>>, s: Lists<T>)
    ensures ApplyAll(xs + ys, s) == ApplyAll(ys, ApplyAll(xs, s))
  {
    if xs == [] {
      assert xs + ys == ys;
    } else {
      assert (xs + ys)[1..] == xs[1..] + ys;
      ApplyAllConcat(xs[1..], ys, Apply(xs[0], s));
    }
  }

  function PushBacks<T>(xs: seq<T>): seq<Op<T>> {
    seq(|xs|, i requires 0 <= i < |xs| => OpPushBack(xs[i]))
  }

  function Repeat<T>(op: Op<T>, n: nat): seq<Op<T>> {
    seq(n, i => op)
  }

  function Reverse<T>(xs: seq<T>): seq<T> {
    if xs == [] then [] else Reverse(xs[1..]) + [xs[0]]
  }

  lemma {:induction false} PushBacksAppend<T>(xs: seq<T>, s: Lists<T>)
    ensures ApplyAll(PushBacks(xs), s) == s.(first := s.first + xs)
  {
    if xs == [] {
      assert s.first + xs == s.first;
    } else {
      assert PushBacks(xs)[1..] == PushBacks(xs[1..]);
      PushBacksAppend(xs[1..], Apply(OpPushBack(xs[0]), s));
      assert s.first + [xs[0]] + xs[1..] == s.first + xs;
    }
  }

  lemma {:induction false} PopFrontsDrain<T>(s: Lists<T>)
    ensures ApplyAll(Repeat(OpPopFront, |s.first|), s) == Lists([], s.second, s.popped + s.first)
    decreases |s.first|
  {
    if s.first == [] {
      assert s.popped + s.first == s.popped;
    } else {
      assert Repeat(OpPopFront, |s.first|)[1..] == Repeat<T>(OpPopFront, |s.first| - 1);
      PopFrontsDrain(Apply(OpPopFront, s));
      assert s.popped + [s.first[0]] + s.first[1..] == s.popped + s.first;
    }
  }

  lemma {:induction false} PopBacksDrain<T>(s: Lists<T>)
    ensures ApplyAll(Repeat(OpPopBack, |s.first|), s) == Lists([], s.second, s.popped + Reverse(s.first))
    decreases |s.first|
  {
    if s.first == [] {
      assert s.popped + Reverse(s.first) == s.popped;
    } else {
      var last := |s.first| - 1;
      assert Repeat(OpPopBack, |s.first|)[1..] == Repeat<T>(OpPopBack, last);
      PopBacksDrain(Apply(OpPopBack, s));
      ReverseLast(s.first);
      assert s.popped + [s.first[last]] + Reverse(s.first[..last]) == s.popped + Reverse(s.first);
    }
  }

  lemma {:induction false} ReverseLast<T>(xs: seq<T>)
    requires xs != []
    ensures Reverse(xs) == [xs[|xs| - 1]] + Reverse(xs[..|xs| - 1])
  {
    if |xs| > 1 {
      ReverseLast(xs[1..]);
      assert xs[1..][..|xs| - 2] == xs[..|xs| - 1][1..];
    }
  }

  // Pushing at the back and draining from the front is a queue, draining from the back a
  // stack, whatever the list held before.
  lemma DrainOrder<T>(xs: seq<T>, s: Lists<T>)
    ensures ApplyAll(PushBacks(xs) + Repeat(OpPopFront, |s.first| + |xs|), s) ==
            Lists([], s.second, s.popped + (s.first + xs))
    ensures ApplyAll(PushBacks(xs) + Repeat(OpPopBack, |s.first| + |xs|), s) ==
            Lists([], s.second, s.popped + Reverse(s.first + xs))
  {
    var full := s.(first := s.first + xs);
    var n := |full.first|;
    DrainOrderBy(xs, s, OpPopFront);
    DrainOrderBy(xs, s, OpPopBack);
    PopFrontsDrain(full);
    PopBacksDrain(full);
  }

  lemma DrainOrderBy<T>(xs: seq<T>, s: Lists<T>, op: Op<T>)
    ensures ApplyAll(PushBacks(xs) + Repeat(op, |s.first| + |xs|), s) ==
            ApplyAll(Repeat(op, |s.first| + |xs|), s.(first := s.first + xs))
  {
    PushBacksAppend(xs, s);
    ApplyAllConcat(PushBacks(xs), Repeat(op, |s.first| + |xs|), s);
  }
}
