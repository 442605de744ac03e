/**
  The typed intrusive doubly-linked list (core/include/ten_utils/lib/typed_list.h).

  `nodes` is the list as a mathematical sequence. `Linked` is the full structural invariant;
  the run-time `CheckIntegrity` of the source looks at the two ends only.
 */
module TypedList {
  import opened TypedListNode

  // The fields describe exactly the node sequence ns: forward chain, backward chain, both
  // ends, no repetition, the recorded size, and no freed node.
  ghost predicate Linked<T>(front: Node?<T>, back: Node?<T>, size: nat, ns: seq<Node<T>>)
    reads ns
  {
    && size == |ns|
    && front == NodeAt(ns, 0)
    && back == NodeAt(ns, |ns| - 1)
    && (forall i, j :: 0 <= i < j < |ns| ==> ns[i] != ns[j])
    && (forall i {:trigger ns[i].next} :: 0 <= i < |ns| ==> ns[i].next == NodeAt(ns, i + 1))
    && (forall i {:trigger ns[i].prev} :: 0 <= i < |ns| ==> ns[i].prev == NodeAt(ns, i - 1))
    && (forall i {:trigger ns[i].live} :: 0 <= i < |ns| ==> ns[i].live)
  }

  // A chain of live nodes, with what its ends point at.
  ghost predicate Chain<T>(ns: seq<Node<T>>, before: Node?<T>, after: Node?<T>)
    reads ns
  {
    && (forall i, j :: 0 <= i < j < |ns| ==> ns[i] != ns[j])
    && (forall i {:trigger ns[i].next} :: 0 <= i < |ns| ==> ns[i].next == if i == |ns| - 1 then after else ns[i + 1])
    && (forall i {:trigger ns[i].prev} :: 0 <= i < |ns| ==> ns[i].prev == if i == 0 then before else ns[i - 1])
    && (forall i {:trigger ns[i].live} :: 0 <= i < |ns| ==> ns[i].live)
  }

  // The node at a position, null outside of the sequence.
  ghost function NodeAt<T>(ns: seq<Node<T>>, i: int): Node?<T> {
    if 0 <= i < |ns| then ns[i] else null
  }

  ghost function DataOf<T>(ns: seq<Node<T>>): (data: seq<T>)
    reads ns
    ensures |data| == |ns|
  {
    seq(|ns|, i requires 0 <= i < |ns| reads ns => ns[i].data)
  }

  // The record of the source: `next` is fetched ahead of the loop body.
  datatype Iterator<T> = Iterator(prev: Node?<T>, node: Node?<T>, next: Node?<T>, index: nat)

  class List<T> {
    var front: Node?<T>
    var back: Node?<T>
    var size: nat
    ghost var nodes: seq<Node<T>>

    ghost predicate Valid()
      reads this, nodes
    {
      Linked(front, back, size, nodes)
    }

    ghost function Data(): seq<T>
      reads this, nodes
    {
      DataOf(nodes)
    }

    constructor Init()
      ensures Valid() && nodes == []
    {
      front, back, size, nodes := null, null, 0, [];
    }

    // ten_typed_list_check_integrity
    predicate CheckIntegrity()
      reads this, front, back
    {
      if size == 0 then
        front == null && back == null
      else
        && front != null && back != null
        && (size == 1 ==> front == back && front.prev == null && front.next == null)
        && front.prev == null
        && back.next == null
    }

    lemma ValidPassesCheckIntegrity()
      requires Valid()
      ensures CheckIntegrity()
    {
      assert size > 0 ==> nodes[0].prev == null && nodes[size - 1].next == null;
    }

    // ---------- Linking ----------

    method PushFront(node: Node<T>)
      requires Valid() && node.live && node !in nodes
      modifies this, nodes, node
      ensures Valid() && nodes == [node] + old(nodes)
      ensures Data() == [old(node.data)] + old(Data())
    {
      if size == 0 {
        StartWith(node);
      } else {
        TieFront(node);
        JoinedIsLinked([node], nodes);
        DataOfFront(node, nodes);
        front := node;
        size := size + 1;
        nodes := [node] + nodes;
      }
    }

    method StartWith(node: Node<T>)
      requires size == 0 && nodes == [] && node.live
      modifies this, node
      ensures Valid() && nodes == [node] && node.data == old(node.data)
    {
      front, back := node, node;
      node.prev, node.next := null, null;
      size := 1;
      nodes := [node];
    }

    static lemma DataOfFront(node: Node<T>, ns: seq<Node<T>>)
      ensures DataOf([node] + ns) == [node.data] + DataOf(ns)
    {
    }

    method TieFront(node: Node<T>)
      requires Valid() && nodes != [] && node.live && node !in nodes
      modifies nodes, node
      ensures Chain([node], null, front) && Chain(nodes, node, null) && node.live
      ensures Data() == old(Data()) && node.data == old(node.data)
    {
      assert front == nodes[0];
      node.next := front;
      node.prev := null;
      front.prev := node;
    }

    method PushListNodeBack(node: Node<T>)
      requires Valid() && node.live && node !in nodes
      modifies this, nodes, node
      ensures Valid() && nodes == old(nodes) + [node]
      ensures Data() == old(Data()) + [old(node.data)]
    {
      if size == 0 {
        StartWith(node);
      } else {
        TieBack(node);
        JoinedIsLinked(nodes, [node]);
        DataOfBack(nodes, node);
        back := node;
        size := size + 1;
        nodes := nodes + [node];
      }
    }

    static lemma DataOfBack(ns: seq<Node<T>>, node: Node<T>)
      ensures DataOf(ns + [node]) == DataOf(ns) + [node.data]
    {
    }

    method TieBack(node: Node<T>)
      requires Valid() && nodes != [] && node.live && node !in nodes
      modifies nodes, node
      ensures Chain(nodes, null, node) && Chain([node], back, null) && node.live
      ensures Data() == old(Data()) && node.data == old(node.data)
    {
      assert back == nodes[|nodes| - 1];
      node.next := null;
      node.prev := back;
      back.next := node;
    }

    method PushBack(item: T, callbacks: Callbacks<T>)
      requires Valid()
      modifies this, nodes
      ensures Valid() && |nodes| == |old(nodes)| + 1 && nodes[..|old(nodes)|] == old(nodes)
      ensures fresh(nodes[|old(nodes)|]) && nodes[|old(nodes)|].callbacks == callbacks
      ensures Data() == old(Data()) + [item]
    {
      var node := new Node.Create(item, callbacks);
      PushListNodeBack(node);
    }

    // The popped node is fully detached.
    method PopFront() returns (node: Node?<T>)
      requires Valid()
      modifies this, nodes
      ensures Valid()
      ensures old(nodes) == [] ==> node == null && nodes == []
      ensures old(nodes) != [] ==>
                && node == old(nodes)[0] && nodes == old(nodes)[1..]
                && node.next == null && node.prev == null && node.live
                && node.data == old(Data())[0] && Data() == old(Data())[1..]
    {
      if size == 0 {
        return null;
      }
      node := front;
      if size == 1 {
        back, front := null, null;
        node.prev, node.next := null, null;
      } else {
        assert nodes[0].next == nodes[1];
        front := front.next;
        front.prev := null;
        node.next := null;
        RestIsLinked(nodes);
      }
      size := size - 1;
      nodes := nodes[1..];
    }

    method PopBack() returns (node: Node?<T>)
      requires Valid()
      modifies this, nodes
      ensures Valid()
      ensures old(nodes) == [] ==> node == null && nodes == []
      ensures old(nodes) != [] ==>
                && node == old(nodes)[|old(nodes)| - 1] && nodes == old(nodes)[..|old(nodes)| - 1]
                && node.next == null && node.prev == null && node.live
                && node.data == old(Data())[|old(nodes)| - 1]
                && Data() == old(Data())[..|old(nodes)| - 1]
    {
      if size == 0 {
        return null;
      }
      node := back;
      if size == 1 {
        front, back := null, null;
        node.prev, node.next := null, null;
      } else {
        assert nodes[size - 1].prev == nodes[size - 2];
        back := back.prev;
        back.next := null;
        node.prev := null;
        FrontIsLinked(nodes);
      }
      size := size - 1;
      nodes := nodes[..|nodes| - 1];
    }

    // All nodes but the first, with the ends cut off.
    static lemma RestIsLinked(ns: seq<Node<T>>)
      requires |ns| >= 2 && forall i, j | 0 <= i < j < |ns| :: ns[i] != ns[j]
      requires forall i {:trigger ns[i].next} | 1 <= i < |ns| :: ns[i].next == NodeAt(ns, i + 1) && ns[i].live
      requires forall i {:trigger ns[i].prev} | 1 <= i < |ns| :: ns[i].prev == if i == 1 then null else ns[i - 1]
      ensures Linked(ns[1], ns[|ns| - 1], |ns| - 1, ns[1..])
      ensures DataOf(ns[1..]) == DataOf(ns)[1..]
    {
      var rest := ns[1..];
      forall i | 0 <= i < |rest|
        ensures rest[i].next == NodeAt(rest, i + 1) && rest[i].prev == NodeAt(rest, i - 1) && rest[i].live
      {
        assert rest[i] == ns[i + 1];
      }
    }

    // All nodes but the last.
    static lemma FrontIsLinked(ns: seq<Node<T>>)
      requires |ns| >= 2 && forall i, j | 0 <= i < j < |ns| :: ns[i] != ns[j]
      requires var last := |ns| - 1;
               forall i {:trigger ns[i].next} | 0 <= i < last :: ns[i].next == (if i == last - 1 then null else ns[i + 1]) && ns[i].live
      requires forall i {:trigger ns[i].prev} | 0 <= i < |ns| - 1 :: ns[i].prev == NodeAt(ns, i - 1)
      ensures Linked(ns[0], ns[|ns| - 2], |ns| - 1, ns[..|ns| - 1])
      ensures DataOf(ns[..|ns| - 1]) == DataOf(ns)[..|ns| - 1]
    {
      var rest := ns[..|ns| - 1];
      forall i | 0 <= i < |rest|
        ensures rest[i].next == NodeAt(rest, i + 1) && rest[i].prev == NodeAt(rest, i - 1) && rest[i].live
      {
        assert rest[i] == ns[i];
      }
    }

    method Swap(target: List<T>)
      requires Valid() && target.Valid()
      modifies this, target
      ensures Valid() && target.Valid()
      ensures nodes == old(target.nodes) && target.nodes == old(nodes)
      ensures Data() == old(target.Data()) && target.Data() == old(Data())
    {
      var selfFront, selfBack, selfSize := front, back, size;
      ghost var selfNodes := nodes;
      front, back, size := target.front, target.back, target.size;
      nodes := target.nodes;
      target.front, target.back, target.size := selfFront, selfBack, selfSize;
      target.nodes := selfNodes;
    }

    // Two different lists are joined and the target is emptied. A list joined to itself loses
    // all of its nodes: they are left in a ring that nothing refers to.
    method Concat(target: List<T>)
      requires Valid() && target.Valid()
      requires this != target ==> forall n | n in nodes :: n !in target.nodes
      modifies this, target, nodes, target.nodes
      ensures Valid() && target.Valid() && target.nodes == []
      ensures this != target ==> nodes == old(nodes + target.nodes)
      ensures this != target ==> Data() == old(Data() + target.Data())
      ensures this == target && old(nodes) != [] ==>
                old(nodes)[|old(nodes)| - 1].next == old(nodes)[0]
    {
      NothingJoined(nodes);
      NothingJoined(target.nodes);
      if target.size == 0 {
        return;
      }
      if size == 0 {
        Swap(target);
        return;
      }
      Join(target);
    }

    static lemma NothingJoined(ns: seq<Node<T>>)
      ensures ns + [] == ns && [] + ns == ns
      ensures DataOf(ns) + DataOf<T>([]) == DataOf(ns) && DataOf<T>([]) + DataOf(ns) == DataOf(ns)
    {
    }

    // Both lists have nodes.
    method Join(target: List<T>)
      requires Valid() && target.Valid() && nodes != [] && target.nodes != []
      requires this != target ==> forall n | n in nodes :: n !in target.nodes
      modifies this, target, nodes, target.nodes
      ensures Valid() && target.Valid() && target.nodes == []
      ensures this != target ==> nodes == old(nodes + target.nodes)
      ensures this != target ==> Data() == old(Data() + target.Data())
      ensures this == target ==> old(nodes)[|old(nodes)| - 1].next == old(nodes)[0]
    {
      ghost var first, second := nodes, target.nodes;
      Tie(target);
      if this != target {
        JoinedIsLinked(first, second);
      }
      TakeNodes(target);
    }

    // The other list gives up its nodes.
    method TakeNodes(target: List<T>)
      requires this != target ==> Linked(front, target.back, size + target.size, nodes + target.nodes)
      modifies this, target
      ensures Valid() && target.Valid() && target.nodes == []
      ensures this != target ==> nodes == old(nodes + target.nodes) && Data() == old(DataOf(nodes + target.nodes))
    {
      back := target.back;
      size := size + target.size;
      nodes := nodes + target.nodes;
      target.front, target.back, target.size := null, null, 0;
      target.nodes := [];
    }

    // The last node of this list and the first one of the other point at each other.
    method Tie(target: List<T>)
      requires Valid() && target.Valid() && nodes != [] && target.nodes != []
      requires this != target ==> forall n | n in nodes :: n !in target.nodes
      modifies nodes, target.nodes
      ensures this != target ==> Chain(nodes, null, target.front) && Chain(target.nodes, back, null)
      ensures this != target ==> Data() == old(Data()) && target.Data() == old(target.Data())
      ensures this == target ==> nodes[|nodes| - 1].next == nodes[0]
    {
      if this != target {
        forall i, j | 0 <= i < |nodes| && 0 <= j < |target.nodes| ensures nodes[i] != target.nodes[j] {
          assert nodes[i] in nodes && target.nodes[j] in target.nodes;
        }
      }
      assert back == nodes[|nodes| - 1] && target.front == target.nodes[0];
      back.next := target.front;
      target.front.prev := back;
    }

    static lemma JoinedIsLinked(first: seq<Node<T>>, second: seq<Node<T>>)
      requires first != [] && second != [] && forall n | n in first :: n !in second
      requires Chain(first, null, second[0]) && Chain(second, first[|first| - 1], null)
      ensures Linked(first[0], second[|second| - 1], |first| + |second|, first + second)
      ensures DataOf(first + second) == DataOf(first) + DataOf(second)
    {
      var ns := first + second;
      forall i, j | 0 <= i < j < |ns| ensures ns[i] != ns[j] {
        assert i < |first| ==> first[i] in first;
        assert j >= |first| ==> second[j - |first|] in second;
      }
      forall i | 0 <= i < |ns| ensures ns[i].next == NodeAt(ns, i + 1) && ns[i].prev == NodeAt(ns, i - 1) && ns[i].live {
        if i < |first| {
          assert ns[i] == first[i];
        } else {
          assert ns[i] == second[i - |first|];
        }
      }
    }

    // ---------- Iteration ----------

    // ten_typed_list_begin, which is also the initial record of foreach
    function Begin(): Iterator<T>
      requires Valid()
      reads this, nodes
    {
      Iterator(null, front, if front != null then front.GetNext() else null, 0)
    }

    // The step of the foreach macro: the prefetched node becomes current and its own
    // successor is fetched.
    static function Advance(it: Iterator<T>): Iterator<T>
      requires it.next != null ==> it.next.live
      reads it.next
    {
      Iterator(it.node, it.next, if it.next != null then it.next.GetNext() else null, it.index + 1)
    }

    // ten_typed_list_iterator_next: the successor is taken from the old current node.
    static function IteratorNext(it: Iterator<T>): Iterator<T>
      requires it.node != null ==> it.node.live
      reads it.node
    {
      Iterator(it.node, it.next, if it.node != null then it.node.GetNext() else null, it.index + 1)
    }

    // The iterator after i calls of IteratorNext is at node ceil(i / 2), and holds node
    // floor(i / 2) + 1 as the next one.
    ghost function IteratorAt(i: nat): (it: Iterator<T>)
      requires Valid()
      reads this, nodes
      ensures it.node == NodeAt(nodes, (i + 1) / 2)
      ensures it.next == NodeAt(nodes, i / 2 + 1)
      ensures it.index == i
    {
      if i == 0 then Begin()
      else
        var it := IteratorAt(i - 1);
        assert (i - 1 + 1) / 2 == i / 2 && (i - 1) / 2 + 1 == (i + 1) / 2;
        IteratorNext(it)
    }

    // The walk by IteratorNext over k >= 1 nodes is at its end after exactly 2k - 1 positions.
    lemma IteratorEndsAt(i: nat)
      requires Valid()
      ensures IteratorAt(i).node == null <==> nodes == [] || i >= 2 * |nodes| - 1
    {
      assert (i + 1) / 2 >= |nodes| <==> i >= 2 * |nodes| - 1;
    }

    // The record of foreach at position i: one node per position.
    ghost function ForeachAt(i: nat): (it: Iterator<T>)
      requires Valid()
      reads this, nodes
      ensures it.prev == NodeAt(nodes, i - 1)
      ensures it.node == NodeAt(nodes, i) && it.next == NodeAt(nodes, i + 1) && it.index == i
    {
      if i == 0 then Begin() else Advance(ForeachAt(i - 1))
    }

    // The nodes seen by `for (it = begin; !is_end(it); it = iterator_next(it))`.
    method WalkByIterator() returns (visited: seq<Node<T>>)
      requires Valid()
      ensures visited == Stuttered(nodes)
    {
      var it := Begin();
      visited := [];
      ghost var i := 0;
      assert it == IteratorAt(0);
      while it.node != null
        invariant it == IteratorAt(i)
        invariant i <= |Stuttered(nodes)|
        invariant visited == Stuttered(nodes)[..i]
        decreases |Stuttered(nodes)| - i
      {
        IteratorEndsAt(i);
        StutteredAt(nodes, i);
        visited := visited + [it.node];
        it := IteratorNext(it);
        i := i + 1;
      }
      IteratorEndsAt(i);
    }

    // The nodes seen by foreach.
    method WalkByForeach() returns (visited: seq<Node<T>>)
      requires Valid()
      ensures visited == nodes
    {
      var it := Begin();
      visited := [];
      while it.node != null
        invariant it.index <= |nodes|
        invariant it == ForeachAt(it.index)
        invariant visited == nodes[..it.index]
        decreases |nodes| - it.index
      {
        visited := visited + [it.node];
        it := Advance(it);
      }
    }

    // ten_typed_list_find: the first match in list order, null exactly when there is none.
    method Find(item: T, compare: (T, T) -> bool) returns (found: Node?<T>)
      requires Valid()
      ensures found == null <==> forall n | n in nodes :: !compare(n.data, item)
      ensures found != null ==>
                exists k | 0 <= k < |nodes| :: found == nodes[k] && compare(nodes[k].data, item)
                  && forall j | 0 <= j < k :: !compare(nodes[j].data, item)
    {
      var it := Begin();
      while it.node != null
        invariant it.index <= |nodes|
        invariant it == ForeachAt(it.index)
        invariant forall j | 0 <= j < it.index :: !compare(nodes[j].data, item)
        decreases |nodes| - it.index
      {
        if compare(it.node.GetData(), item) {
          return it.node;
        }
        it := Advance(it);
      }
      return null;
    }

    // ---------- Destruction and copying ----------

    // The first k nodes are destroyed; the others are as they were, and can still be walked.
    ghost predicate DestroyedUpTo(k: nat, payloads: seq<(Callbacks<T>, T)>)
      reads this, nodes
    {
      && k <= |nodes| == |payloads|
      && (forall j {:trigger nodes[j].live} | 0 <= j < |nodes| :: nodes[j].live <==> k <= j)
      && (forall j {:trigger nodes[j].next} | 0 <= j < |nodes| :: nodes[j].next == NodeAt(nodes, j + 1))
      && (forall j {:trigger nodes[j].data} | 0 <= j < |nodes| ::
            nodes[j].data == payloads[j].1 && nodes[j].callbacks == payloads[j].0)
      && (forall i, j | 0 <= i < j < |nodes| :: nodes[i] != nodes[j])
    }

    // ten_typed_list_clear: every node is destroyed once, in list order. The values destructed
    // are those of exactly the nodes that have the callback, in list order.
    method Clear(heap: Allocator<T>)
      requires Valid()
      modifies this, nodes, heap
      ensures Valid() && nodes == []
      ensures heap.freed == old(heap.freed) + old(nodes)
      ensures (forall n | n in old(nodes) :: n.callbacks.destruct) ==> heap.destructed == old(heap.destructed) + old(Data())
      ensures GrewByDestructed(old(heap.destructed), heap.destructed, old(nodes), old(Data()))
      ensures forall n | n in old(nodes) :: !n.live
    {
      ghost var payloads, before, data := Payloads(nodes), heap.destructed, Data();
      DestroyNodes(heap);
      LogGrew(before, heap.destructed, nodes, payloads, data);
      size := 0;
      front := null;
      back := null;
      nodes := [];
    }

    // The loop. It reads only nodes that are still live, because the successor is fetched
    // before the body frees.
    method DestroyNodes(heap: Allocator<T>)
      requires Valid()
      modifies nodes, heap
      ensures heap.freed == old(heap.freed) + nodes
      ensures heap.destructed == old(heap.destructed) + old(DestructedBy(Payloads(nodes)))
      ensures forall n | n in nodes :: !n.live
    {
      ghost var payloads := Payloads(nodes);
      var it := Begin();
      while it.node != null
        invariant Clearing(it, payloads)
        invariant heap.freed == old(heap.freed) + nodes[..it.index]
        invariant heap.destructed == old(heap.destructed) + DestructedBy(payloads[..it.index])
        decreases |nodes| - it.index
      {
        DestructOneMore(old(heap.destructed), payloads, it.index);
        TakeOneMore(old(heap.freed), nodes, it.index);
        it := ClearStep(it, payloads, heap);
      }
      assert payloads[..|nodes|] == payloads;
    }

    // The record of the loop: its node is the first one that is left.
    ghost predicate Clearing(it: Iterator<T>, payloads: seq<(Callbacks<T>, T)>)
      reads this, nodes
    {
      && DestroyedUpTo(it.index, payloads)
      && it.node == NodeAt(nodes, it.index) && it.next == NodeAt(nodes, it.index + 1)
    }

    // The body of the loop, and the step.
    method ClearStep(it: Iterator<T>, ghost payloads: seq<(Callbacks<T>, T)>, heap: Allocator<T>) returns (next: Iterator<T>)
      requires Clearing(it, payloads) && it.node != null
      modifies nodes, heap
      ensures Clearing(next, payloads) && next.index == it.index + 1
      ensures heap.freed == old(heap.freed) + [it.node]
      ensures var (callbacks, data) := payloads[it.index];
              heap.destructed == old(heap.destructed) + Destructed(callbacks, data)
    {
      DestroyAt(it.node, it.index, payloads, heap);
      AheadIsLive(it, payloads);
      next := Advance(it);
    }

    // The node fetched ahead is not destroyed yet, and leads to the one behind it.
    lemma AheadIsLive(it: Iterator<T>, payloads: seq<(Callbacks<T>, T)>)
      requires it.index < |nodes| && DestroyedUpTo(it.index + 1, payloads) && it.next == NodeAt(nodes, it.index + 1)
      ensures it.next != null ==> it.next.live && it.next.next == NodeAt(nodes, it.index + 2)
    {
    }

    static lemma DestructOneMore(before: seq<T>, payloads: seq<(Callbacks<T>, T)>, i: nat)
      requires i < |payloads|
      ensures before + DestructedBy(payloads[..i + 1])
           == before + DestructedBy(payloads[..i]) + Destructed(payloads[i].0, payloads[i].1)
    {
      assert payloads[..i + 1][..i] == payloads[..i];
    }

    method DestroyAt(node: Node<T>, ghost k: nat, ghost payloads: seq<(Callbacks<T>, T)>, heap: Allocator<T>)
      requires k < |nodes| && node == nodes[k] && DestroyedUpTo(k, payloads)
      modifies node`live, heap
      ensures DestroyedUpTo(k + 1, payloads)
      ensures heap.freed == old(heap.freed) + [node]
      ensures heap.destructed == old(heap.destructed) + Destructed(payloads[k].0, payloads[k].1)
    {
      node.Destroy(heap);
      assert forall j | 0 <= j < |nodes| && j != k :: nodes[j] != node && nodes[j].live == old(nodes[j].live);
      assert forall j | 0 <= j < |nodes| :: nodes[j].next == old(nodes[j].next) && nodes[j].data == old(nodes[j].data);
    }

    // The body of the copy loop.
    method AppendClone(node: Node<T>)
      requires Valid() && node.live && node.callbacks.copy.Some?
      modifies this, nodes
      ensures Valid() && |nodes| == |old(nodes)| + 1 && nodes[..|old(nodes)|] == old(nodes)
      ensures fresh(nodes[|old(nodes)|]) && nodes[|old(nodes)|].callbacks == node.callbacks
      ensures Data() == old(Data()) + [node.callbacks.copy.value(old(node.data))]
    {
      var clone := node.Clone();
      PushListNodeBack(clone);
    }

    // ten_typed_list_copy. Copying a list onto itself is covered for at most one node; for two
    // or more nodes see SelfCopySteps.
    method Copy(target: List<T>)
      requires Valid() && target.Valid()
      requires if this == target then |nodes| <= 1 else forall n | n in nodes :: n !in target.nodes
      requires forall n | n in target.nodes :: n.callbacks.copy.Some?
      modifies this, nodes
      ensures Valid() && target.Valid()
      ensures |nodes| == |old(nodes)| + |old(target.nodes)| && nodes[..|old(nodes)|] == old(nodes)
      ensures forall j | |old(nodes)| <= j < |nodes| :: fresh(nodes[j])
      ensures Data()[..|old(nodes)|] == old(Data())
      ensures AreCopies(Data()[|old(nodes)|..], old(target.nodes), old(target.Data()))
      ensures CallbacksOf(nodes[|old(nodes)|..]) == CallbacksOf(old(target.nodes))
      ensures this != target ==> target.nodes == old(target.nodes) && target.Data() == old(target.Data())
    {
      CopiesAreCopies(target.nodes);
      ghost var before, sources, data, copies := Data(), target.nodes, target.Data(), CopiesOf(target.nodes);
      if this == target {
        CopySelf();
        CopiesAre(before, sources, data, copies, Data());
      } else {
        CopyOther(target);
        CopiesAre(before, sources, data, copies, Data());
      }
    }

    // A list of at most one node onto itself: the successor of the only node was fetched
    // before the clone was appended.
    method CopySelf()
      requires Valid() && |nodes| <= 1 && forall n | n in nodes :: n.callbacks.copy.Some?
      modifies this, nodes
      ensures Valid() && |nodes| == 2 * |old(nodes)| && nodes[..|old(nodes)|] == old(nodes)
      ensures forall j | |old(nodes)| <= j < |nodes| :: fresh(nodes[j])
      ensures Data() == old(Data()) + old(CopiesOf(nodes))
      ensures CallbacksOf(nodes[|old(nodes)|..]) == CallbacksOf(old(nodes))
    {
      var it := Begin();
      if it.node != null {
        AppendClone(it.node);
        it := Advance(it);
        assert it.node == null;
      }
    }

    static lemma CopiesAre(before: seq<T>, sources: seq<Node<T>>, data: seq<T>, copies: seq<T>, after: seq<T>)
      requires AreCopies(copies, sources, data) && after == before + copies
      ensures after[..|before|] == before && AreCopies(after[|before|..], sources, data)
    {
      assert after[|before|..] == copies;
    }

    // The loop of ten_typed_list_copy over another list.
    method CopyOther(target: List<T>)
      requires Valid() && target.Valid() && this != target
      requires forall n | n in nodes :: n !in target.nodes
      requires forall n | n in target.nodes :: n.callbacks.copy.Some?
      modifies this, nodes
      ensures Valid() && target.Valid()
      ensures |nodes| == |old(nodes)| + |target.nodes| && nodes[..|old(nodes)|] == old(nodes)
      ensures forall j | |old(nodes)| <= j < |nodes| :: fresh(nodes[j])
      ensures Data() == old(Data()) + old(CopiesOf(target.nodes))
      ensures CallbacksOf(nodes[|old(nodes)|..]) == CallbacksOf(target.nodes)
      ensures target.nodes == old(target.nodes) && target.Data() == old(target.Data())
    {
      ghost var clones: seq<Node<T>>, sources := [], target.nodes;
      ghost var original, copies, before := nodes, CopiesOf(target.nodes), Data();
      var it := target.Begin();
      while it.node != null
        invariant forall j | 0 <= j < |clones| :: fresh(clones[j])
        invariant |clones| <= |sources| && CallbacksOf(clones) == CallbacksOf(sources[..|clones|])
        invariant it.index == |clones| && Copied(target, original, clones, before, copies)
        invariant target.nodes == sources && target.Data() == old(target.Data())
        invariant it == target.ForeachAt(it.index)
        decreases |target.nodes| - it.index
      {
        ghost var node;
        it, node := CopyOneMore(target, it, original, clones, before, copies);
        ghost var prior := clones;
        LastOf(prior, node);
        OneMoreCallback(prior, node, sources);
        clones := prior + [node];
        forall j | 0 <= j < |clones| ensures fresh(clones[j]) {
          if j == |prior| {
            assert clones[j] == node;
          } else {
            assert fresh(prior[j]);
          }
        }
      }
    }

    static lemma OneMoreCallback(clones: seq<Node<T>>, node: Node<T>, sources: seq<Node<T>>)
      requires |clones| < |sources| && node.callbacks == sources[|clones|].callbacks
      requires CallbacksOf(clones) == CallbacksOf(sources[..|clones|])
      ensures CallbacksOf(clones + [node]) == CallbacksOf(sources[..|clones| + 1])
    {
      var n := |clones|;
      forall j | 0 <= j <= n
        ensures CallbacksOf(clones + [node])[j] == CallbacksOf(sources[..n + 1])[j]
      {
        if j < n {
          assert CallbacksOf(clones)[j] == CallbacksOf(sources[..n])[j];
        }
      }
    }

    static lemma LastOf(clones: seq<Node<T>>, node: Node<T>)
      ensures var more := clones + [node];
              more[|clones|] == node && forall j | 0 <= j < |clones| :: more[j] == clones[j]
    {
    }

    // The clones of the first nodes of the other list follow the original nodes.
    ghost predicate Copied(target: List<T>, original: seq<Node<T>>, clones: seq<Node<T>>, before: seq<T>, copies: seq<T>)
      reads this, nodes, target, target.nodes
    {
      && Valid() && target.Valid() && this != target
      && (forall n | n in nodes :: n !in target.nodes)
      && (forall n | n in target.nodes :: n.callbacks.copy.Some?)
      && CopiesOf(target.nodes) == copies && |clones| <= |copies|
      && nodes == original + clones && Data() == before + copies[..|clones|]
    }

    static lemma TakeOneMore<U>(before: seq<U>, copies: seq<U>, i: nat)
      requires i < |copies|
      ensures before + copies[..i + 1] == before + copies[..i] + [copies[i]]
    {
    }

    // The body of the loop, and the step.
    method CopyOneMore(target: List<T>, it: Iterator<T>, ghost original: seq<Node<T>>, ghost clones: seq<Node<T>>,
                       ghost before: seq<T>, ghost copies: seq<T>)
      returns (next: Iterator<T>, ghost node: Node<T>)
      requires Copied(target, original, clones, before, copies)
      requires it.index == |clones| < |target.nodes| && it == target.ForeachAt(it.index)
      modifies this, nodes
      ensures Copied(target, original, clones + [node], before, copies) && fresh(node)
      ensures node.callbacks == it.node.callbacks
      ensures target.nodes == old(target.nodes) && target.Data() == old(target.Data())
      ensures next.index == it.index + 1 && next == target.ForeachAt(it.index + 1)
    {
      next, node := CopyStep(target, it);
      TakeOneMore(before, copies, |clones|);
      MoveBracket(original, clones, node);
    }

    static lemma MoveBracket(original: seq<Node<T>>, clones: seq<Node<T>>, node: Node<T>)
      ensures original + clones + [node] == original + (clones + [node])
    {
    }

    // One iteration of that loop: the other list, and the records over it, are not affected.
    method CopyStep(target: List<T>, it: Iterator<T>)
      returns (next: Iterator<T>, ghost node: Node<T>)
      requires Valid() && target.Valid() && this != target
      requires forall n | n in nodes :: n !in target.nodes
      requires forall n | n in target.nodes :: n.callbacks.copy.Some?
      requires it.index < |target.nodes| && it == target.ForeachAt(it.index)
      modifies this, nodes
      ensures Valid() && nodes == old(nodes) + [node] && fresh(node) && node.callbacks == it.node.callbacks
      ensures forall n | n in nodes :: n !in target.nodes
      ensures Data() == old(Data()) + [old(CopiesOf(target.nodes)[it.index])]
      ensures target.nodes == old(target.nodes) && target.Valid()
      ensures target.Data() == old(target.Data()) && CopiesOf(target.nodes) == old(CopiesOf(target.nodes))
      ensures next.index == it.index + 1 && next == target.ForeachAt(it.index + 1)
    {
      AppendClone(it.node);
      node := nodes[|nodes| - 1];
      forall j | 0 <= j < |target.nodes| ensures unchanged(target.nodes[j]) {
        assert target.nodes[j] in target.nodes;
      }
      next := Advance(it);
    }

    // Copying a list of two or more nodes onto itself: after any number of iterations the loop
    // of ten_typed_list_copy has another node to visit, having appended one node per iteration.
    method SelfCopySteps(steps: nat) returns (it: Iterator<T>)
      requires Valid() && |nodes| >= 2
      requires forall n | n in nodes :: n.callbacks.copy.Some?
      modifies this, nodes
      ensures Valid() && |nodes| == |old(nodes)| + steps && nodes[..|old(nodes)|] == old(nodes)
      ensures it.node == nodes[steps] && it.next == nodes[steps + 1]
    {
      it := Begin();
      while it.index < steps
        invariant Valid() && it.index <= steps
        invariant |nodes| == |old(nodes)| + it.index && nodes[..|old(nodes)|] == old(nodes)
        invariant it.node == nodes[it.index] && it.next == nodes[it.index + 1]
        invariant forall n | n in nodes :: n.callbacks.copy.Some?
        invariant forall j | |old(nodes)| <= j < |nodes| :: fresh(nodes[j])
      {
        it := SelfCopyStep(it);
      }
    }

    // The node fetched ahead is never the last one when its own successor is fetched.
    method SelfCopyStep(it: Iterator<T>) returns (next: Iterator<T>)
      requires Valid() && it.index + 1 < |nodes| && it.node == nodes[it.index] && it.next == nodes[it.index + 1]
      requires forall n | n in nodes :: n.callbacks.copy.Some?
      modifies this, nodes
      ensures Valid() && |nodes| == |old(nodes)| + 1 && nodes[..|old(nodes)|] == old(nodes)
      ensures fresh(nodes[|old(nodes)|]) && forall n | n in nodes :: n.callbacks.copy.Some?
      ensures next.index == it.index + 1 && next.node == nodes[it.index + 1] && next.next == nodes[it.index + 2]
    {
      ghost var before := nodes;
      assert it.node in before;
      AppendClone(it.node);
      assert nodes == before + [nodes[|before|]];
      assert nodes[it.index + 1] == before[it.index + 1] && nodes[it.index + 1].live;
      assert nodes[it.index + 1].next == nodes[it.index + 2];
      next := Advance(it);
    }
  }

  // What the destruction of a node can observe of it.
  ghost function Payloads<T>(ns: seq<Node<T>>): (r: seq<(Callbacks<T>, T)>)
    reads ns
    ensures |r| == |ns|
  {
    seq(|ns|, i requires 0 <= i < |ns| reads ns => (ns[i].callbacks, ns[i].data))
  }

  // What the destruction of one node adds.
  function Destructed<T>(callbacks: Callbacks<T>, data: T): seq<T> {
    if callbacks.destruct then [data] else []
  }

  // The positions of the nodes that have a destructor, in order.
  ghost predicate HaveDestructor<T>(picks: seq<nat>, ns: seq<Node<T>>) {
    && (forall i, j | 0 <= i < j < |picks| :: picks[i] < picks[j])
    && (forall i | 0 <= i < |picks| :: picks[i] < |ns|)
    && (forall k: nat | k < |ns| :: ns[k].callbacks.destruct <==> k in picks)
  }

  // The log afterwards: the data of these nodes, and of no others, in list order.
  ghost predicate GrewByDestructed<T>(before: seq<T>, after: seq<T>, ns: seq<Node<T>>, data: seq<T>) {
    && |data| == |ns|
    && exists picks: seq<nat> ::
         && HaveDestructor(picks, ns) && |after| == |before| + |picks| && after[..|before|] == before
         && forall i | 0 <= i < |picks| :: after[|before| + i] == data[picks[i]]
  }

  lemma AllInTheLog<T>(ns: seq<Node<T>>, payloads: seq<(Callbacks<T>, T)>, data: seq<T>)
    requires |ns| == |payloads| == |data| && forall n | n in ns :: n.callbacks.destruct
    requires forall j | 0 <= j < |ns| :: payloads[j] == (ns[j].callbacks, data[j])
    ensures DestructedBy(payloads) == data
  {
    forall j | 0 <= j < |payloads|
      ensures payloads[j].0.destruct
    {
      assert ns[j] in ns;
    }
    AllDestructed(payloads);
  }

  lemma LogGrew<T>(before: seq<T>, after: seq<T>, ns: seq<Node<T>>, payloads: seq<(Callbacks<T>, T)>, data: seq<T>)
    requires |ns| == |payloads| == |data| && after == before + DestructedBy(payloads)
    requires forall j | 0 <= j < |ns| :: payloads[j] == (ns[j].callbacks, data[j])
    ensures GrewByDestructed(before, after, ns, data)
    ensures (forall n | n in ns :: n.callbacks.destruct) ==> after == before + data
  {
    LogPicks(before, after, ns, payloads, data);
    if forall n | n in ns :: n.callbacks.destruct {
      AllInTheLog(ns, payloads, data);
    }
  }

  lemma LogPicks<T>(before: seq<T>, after: seq<T>, ns: seq<Node<T>>, payloads: seq<(Callbacks<T>, T)>, data: seq<T>)
    requires |ns| == |payloads| == |data| && after == before + DestructedBy(payloads)
    requires forall j | 0 <= j < |ns| :: payloads[j] == (ns[j].callbacks, data[j])
    ensures GrewByDestructed(before, after, ns, data)
  {
    var picks := PickDestructed(payloads);
    var added := DestructedBy(payloads);
    assert HaveDestructor(picks, ns);
    forall i | 0 <= i < |picks|
      ensures after[|before| + i] == data[picks[i]]
    {
      assert added[i] == payloads[picks[i]].1;
    }
  }

  // The values are those at these positions, which are all that have a destructor.
  ghost predicate Selects<T>(picks: seq<nat>, payloads: seq<(Callbacks<T>, T)>, values: seq<T>) {
    && (forall i, j | 0 <= i < j < |picks| :: picks[i] < picks[j])
    && (forall i | 0 <= i < |picks| :: picks[i] < |payloads| && payloads[picks[i]].0.destruct)
    && (forall k: nat | k < |payloads| && payloads[k].0.destruct :: k in picks)
    && |values| == |picks| && forall i | 0 <= i < |picks| :: values[i] == payloads[picks[i]].1
  }

  lemma SelectNext<T>(picks: seq<nat>, payloads: seq<(Callbacks<T>, T)>, values: seq<T>, next: (Callbacks<T>, T))
    requires Selects(picks, payloads, values) && next.0.destruct
    ensures Selects(picks + [|payloads|], payloads + [next], values + [next.1])
  {
    var more := picks + [|payloads|];
    assert more[|picks|] == |payloads|;
    assert forall k | k in picks :: k in more;
  }

  lemma PassNext<T>(picks: seq<nat>, payloads: seq<(Callbacks<T>, T)>, values: seq<T>, next: (Callbacks<T>, T))
    requires Selects(picks, payloads, values) && !next.0.destruct
    ensures Selects(picks, payloads + [next], values)
  {
  }

  lemma {:induction false} PickDestructed<T>(payloads: seq<(Callbacks<T>, T)>) returns (picks: seq<nat>)
    ensures Selects(picks, payloads, DestructedBy(payloads))
    decreases |payloads|
  {
    if payloads == [] {
      picks := [];
    } else {
      var front, next := payloads[..|payloads| - 1], payloads[|payloads| - 1];
      assert front + [next] == payloads;
      picks := PickDestructed(front);
      if next.0.destruct {
        SelectNext(picks, front, DestructedBy(front), next);
        picks := picks + [|front|];
      } else {
        PassNext(picks, front, DestructedBy(front), next);
      }
    }
  }

  lemma {:induction false} AllDestructed<T>(payloads: seq<(Callbacks<T>, T)>)
    requires forall i | 0 <= i < |payloads| :: payloads[i].0.destruct
    ensures |DestructedBy(payloads)| == |payloads|
    ensures forall i | 0 <= i < |payloads| :: DestructedBy(payloads)[i] == payloads[i].1
    decreases |payloads|
  {
    if payloads != [] {
      AllDestructed(payloads[..|payloads| - 1]);
    }
  }

  // The destruct calls made by destroying nodes with these payloads, in order.
  function DestructedBy<T>(payloads: seq<(Callbacks<T>, T)>): seq<T> {
    if payloads == [] then []
    else
      var last := payloads[|payloads| - 1];
      DestructedBy(payloads[..|payloads| - 1]) + Destructed(last.0, last.1)
  }

  function CallbacksOf<T>(ns: seq<Node<T>>): (r: seq<Callbacks<T>>)
    ensures |r| == |ns|
  {
    seq(|ns|, i requires 0 <= i < |ns| => ns[i].callbacks)
  }

  // Each value is what the copy callback of its node makes of the data.
  ghost predicate AreCopies<T>(values: seq<T>, sources: seq<Node<T>>, data: seq<T>) {
    && |values| == |sources| == |data|
    && forall j | 0 <= j < |sources| ::
         sources[j].callbacks.copy.Some? && values[j] == sources[j].callbacks.copy.value(data[j])
  }

  lemma CopiesAreCopies<T>(ns: seq<Node<T>>)
    requires forall n | n in ns :: n.callbacks.copy.Some?
    ensures AreCopies(CopiesOf(ns), ns, DataOf(ns))
  {
    forall j | 0 <= j < |ns|
      ensures ns[j].callbacks.copy.Some?
    {
      assert ns[j] in ns;
    }
  }

  ghost function CopiesOf<T>(ns: seq<Node<T>>): (r: seq<T>)
    requires forall n | n in ns :: n.callbacks.copy.Some?
    reads ns
    ensures |r| == |ns|
  {
    seq(|ns|, i requires 0 <= i < |ns| reads ns => ns[i].callbacks.copy.value(ns[i].data))
  }

  // Every node but the first, twice.
  ghost function Stuttered<T>(ns: seq<Node<T>>): (r: seq<Node<T>>)
    ensures |r| == if ns == [] then 0 else 2 * |ns| - 1
  {
    seq(if ns == [] then 0 else 2 * |ns| - 1, i requires 0 <= i < 2 * |ns| - 1 => ns[(i + 1) / 2])
  }

  lemma StutteredAt<T>(ns: seq<Node<T>>, i: nat)
    requires i < |Stuttered(ns)|
    ensures (i + 1) / 2 < |ns| && Stuttered(ns)[i] == ns[(i + 1) / 2]
  {
  }

  // The two walks agree on lists of at most one node and on no others.
  lemma WalkVisitsEachOnceIff<T>(ns: seq<Node<T>>)
    ensures Stuttered(ns) == ns <==> |ns| <= 1
  {
    if |ns| == 1 {
      StutteredAt(ns, 0);
    }
  }
}
