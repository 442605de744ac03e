/**
  Nodes of the typed list (core/include/ten_utils/lib/typed_list_node.h).

  A callback is an optional function; `destruct` is observed through the log of an
  `Allocator`, which also records every node that has been freed. `live` is false once the
  node is freed; each accessor used by the list operations requires it, so a verified
  operation never reads a freed node.
 */
module TypedListNode {

  datatype Option<+T> = None | Some(value: T)

  // copy/move turn the source value into the stored one; destruct only needs to be present.
  datatype Callbacks<!T> = Callbacks(move: Option<T -> T>, copy: Option<T -> T>, destruct: bool)

  class Allocator<T> {
    ghost var freed: seq<Node<T>>
    var destructed: seq<T>

    constructor ()
      ensures freed == [] && destructed == []
    {
      freed, destructed := [], [];
    }
  }

  class Node<T> {
    var next: Node?<T>
    var prev: Node?<T>
    var data: T
    const callbacks: Callbacks<T>
    ghost var live: bool

    // ten_typed_list_node_create: a detached node holding the given value.
    constructor Create(data: T, callbacks: Callbacks<T>)
      ensures next == null && prev == null && live
      ensures this.data == data && this.callbacks == callbacks
    {
      this.next, this.prev := null, null;
      this.data := data;
      this.callbacks := callbacks;
      this.live := true;
    }

    function GetNext(): Node?<T>
      requires live
      reads this
    {
      next
    }

    function GetData(): T
      requires live
      reads this
    {
      data
    }

    // ten_typed_list_node_clone, which calls `copy` without a null test.
    method Clone() returns (node: Node<T>)
      requires live && callbacks.copy.Some?
      ensures fresh(node) && node.live && node.next == null && node.prev == null
      ensures node.data == callbacks.copy.value(data) && node.callbacks == callbacks
    {
      node := new Node.Create(callbacks.copy.value(data), callbacks);
    }

    // ten_typed_list_node_destroy: destruct the value if there is a callback, then free.
    method Destroy(heap: Allocator<T>)
      requires live
      modifies this`live, heap
      ensures !live
      ensures heap.freed == old(heap.freed) + [this]
      ensures callbacks.destruct ==> heap.destructed == old(heap.destructed) + [data]
      ensures !callbacks.destruct ==> heap.destructed == old(heap.destructed)
    {
      if callbacks.destruct {
        heap.destructed := heap.destructed + [data];
      }
      heap.freed := heap.freed + [this];
      live := false;
    }

    // ten_typed_list_node_set_data: the old value is destructed before it is replaced, and the
    // new one is taken by the matching callback, or plainly when there is none.
    method SetData(heap: Allocator<T>, value: T, move: bool)
      requires live
      modifies this`data, heap
      ensures move && callbacks.move.Some? ==> data == callbacks.move.value(value)
      ensures !move && callbacks.copy.Some? ==> data == callbacks.copy.value(value)
      ensures (if move then callbacks.move else callbacks.copy).None? ==> data == value
      ensures callbacks.destruct ==> heap.destructed == old(heap.destructed) + [old(data)]
      ensures !callbacks.destruct ==> heap.destructed == old(heap.destructed)
      ensures heap.freed == old(heap.freed)
    {
      if callbacks.destruct {
        heap.destructed := heap.destructed + [data];
      }
      if move {
        data := if callbacks.move.Some? then callbacks.move.value(value) else value;
      } else {
        data := if callbacks.copy.Some? then callbacks.copy.value(value) else value;
      }
    }
  }
}
