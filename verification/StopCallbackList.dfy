/**
 The intrusive callback list of the in-place stop source: singly linked forwards, and backwards by the
 address of the pointer that points to the node, which is either the head of the list or a `next` field.
 */
module StopCallbackList {
  import opened Sequences

  /** What a back link can hold: nothing, the address of the list head, or of a node's `next`. */
  datatype Slot = NoSlot | HeadOfList | NextOf(node: Node)

  class Node {
    var next: Node?
    var prevPtr: Slot

    constructor ()
      ensures prevPtr.NoSlot? && next == null
    {
      next, prevPtr := null, NoSlot;
    }
  }

  function After(list: seq<Node>, k: nat): Node? {
    if k + 1 < |list| then list[k + 1] else null
  }

  function SlotOf(list: seq<Node>, k: nat): Slot
    requires k < |list|
  {
    if k == 0 then HeadOfList else NextOf(list[k - 1])
  }

  ghost predicate Linked(list: seq<Node>, k: nat)
    requires k < |list|
    reads list[k]
  {
    list[k].next == After(list, k) && list[k].prevPtr == SlotOf(list, k)
  }

  class CallbackList {
    var callbacks: Node?
    ghost var list: seq<Node>

    /** Following the links forwards gives the list, and every back link holds the slot that points to its node. */
    ghost predicate Valid()
      reads this, list
    {
      && Distinct(list)
      && callbacks == (if list == [] then null else list[0])
      && forall k :: 0 <= k < |list| ==> Linked(list, k)
    }

    constructor ()
      ensures Valid() && list == []
    {
      callbacks, list := null, [];
    }

    /** Registration: the new callback becomes the head. */
    method Add(node: Node)
      requires Valid() && node !in list
      modifies this, node, list
      ensures Valid() && list == [node] + old(list)
    {
      ghost var was := list;
      node.next := callbacks;
      node.prevPtr := HeadOfList;
      if callbacks != null {
        assert Linked(was, 0);
        callbacks.prevPtr := NextOf(node);
      }
      callbacks := node;
      list := [node] + list;
      forall k | 0 <= k < |list|
        ensures Linked(list, k)
      {
        if k > 0 {
          assert list[k] == was[k - 1] && old(Linked(was, k - 1));
        }
      }
    }

    /** The request takes the head and clears its back link. */
    method PopFront() returns (node: Node)
      requires Valid() && callbacks != null
      modifies this, list
      ensures Valid() && node == old(list[0]) && list == old(list[1..]) && node.prevPtr.NoSlot? && node !in list
    {
      node := callbacks;
      ghost var was := list;
      assert Linked(was, 0);
      node.prevPtr := NoSlot;
      callbacks := node.next;
      if callbacks != null {
        callbacks.prevPtr := HeadOfList;
      }
      list := list[1..];
      forall k | 0 <= k < |list|
        ensures Linked(list, k)
      {
        assert list[k] == was[k + 1] && old(Linked(was, k + 1));
      }
    }

    /** Deregistration: a callback whose back link is set is in the list, and leaves it. */
    method Remove(node: Node) returns (unlinked: bool)
      requires Valid() && (node in list || node.prevPtr.NoSlot?)
      modifies this, list
      ensures Valid() && (unlinked <==> node in old(list))
      ensures list == if unlinked then Without(old(list), node) else old(list)
      ensures !unlinked ==> unchanged(this) && forall n | n in list :: unchanged(n)
    {
      unlinked := !node.prevPtr.NoSlot?;
      assert forall j :: 0 <= j < |list| && Linked(list, j) ==> !list[j].prevPtr.NoSlot?;
      if unlinked {
        ghost var k := WithoutIs(list, node);
        assert Linked(list, k);
        Unlink(node, k);
      }
    }

    method Unlink(node: Node, ghost k: nat)
      requires Valid() && k < |list| && list[k] == node && Without(list, node) == list[..k] + list[k + 1..]
      modifies this, list
      ensures Valid() && list == Without(old(list), node)
    {
      ghost var was := list;
      assert Linked(was, k);
      match node.prevPtr {
        case HeadOfList =>
          assert k == 0;
          callbacks := node.next;
        case NextOf(before) =>
          assert k > 0 && before == was[k - 1] && old(Linked(was, k - 1));
          before.next := node.next;
      }
      if node.next != null {
        assert node.next == was[k + 1] && old(Linked(was, k + 1));
        node.next.prevPtr := node.prevPtr;
      }
      list := list[..k] + list[k + 1..];
      assert Distinct(list);
      forall j | 0 <= j < |list|
        ensures Linked(list, j)
      {
        var i := if j < k then j else j + 1;
        assert list[j] == was[i] && old(Linked(was, i));
        assert After(list, j) == if i + 1 == k then After(was, k) else After(was, i);
        assert SlotOf(list, j) == if i == k + 1 then SlotOf(was, k) else SlotOf(was, i);
      }
    }
  }
}
