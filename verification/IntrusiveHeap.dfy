/**
 The intrusive heap: insertion steered by the bits of the size, removal of the front and of any node, and the
 sift loops, on the linked tree of `HeapShapes`.
 */
module IntrusiveHeaps {
  import opened TimerKey
  import opened HeapPath
  import opened HeapShapes

  class Heap {
    var root: Node?
    var size: nat
    ghost var slots: Slots

    ghost predicate Valid()
      reads this, slots
    {
      && Tree(slots, size)
      && root == slots[1]
    }

    ghost function Nodes(): set<Node>
      reads this
    {
      set n: Node | n in slots
    }

    constructor ()
      ensures Valid() && Nodes() == {} && size == 0
    {
      root, size, slots := null, 0, [null, null];
    }

    static method SwapWithRightChild(parent: Node, child: Node)
      requires parent != child
      modifies parent`left, parent`right, child`left, child`right
      ensures parent.right == old(child.right) && parent.left == old(child.left)
      ensures child.right == parent && child.left == old(parent.left)
    {
      parent.right := child.right;
      child.right := parent;
      var t := parent.left;
      parent.left := child.left;
      child.left := t;
    }

    static method SwapWithLeftChild(parent: Node, child: Node)
      requires parent != child
      modifies parent`left, parent`right, child`left, child`right
      ensures parent.right == old(child.right) && parent.left == old(child.left)
      ensures child.right == old(parent.right) && child.left == parent
    {
      var t := parent.right;
      parent.right := child.right;
      child.right := t;
      parent.left := child.left;
      child.left := parent;
    }

    /** Links of a heap in which the node in slot `i` is on its way down from slot `top`. */
    ghost predicate Sifting(n: nat, i: nat, top: nat)
      reads this, slots
    {
      && Placed(slots, n)
      && SiftUpLinks(slots, n, i, top)
      && Down(slots, n, 0)
      && root == slots[1]
    }

    /** The first half of a round of `sift_down` that lifts the right child. */
    method RelinkRight(cur: Node, left: Node, right: Node, ghost n: nat, ghost i: nat, ghost top: nat)
      requires Sifting(n, i, top)
      requires 2 * i + 1 <= n && cur == slots[i] && left == slots[2 * i] && right == slots[2 * i + 1]
      modifies cur`left, cur`right, right`left, right`right, left`prev
      ensures Placed(slots, n) && Relinked(slots, n, i, 2 * i + 1) && Told(slots, n, i, top, 2 * i + 1)
    {
      SwapWithRightChild(cur, right);
      left.prev := right;
    }

    method RelinkLeft(cur: Node, left: Node, right: Node?, ghost n: nat, ghost i: nat, ghost top: nat)
      requires Sifting(n, i, top)
      requires 2 * i <= n && cur == slots[i] && left == slots[2 * i] && right == slots[2 * i + 1]
      modifies cur`left, cur`right, left`left, left`right, Just(right)`prev
      ensures Placed(slots, n) && Relinked(slots, n, i, 2 * i) && Told(slots, n, i, top, 2 * i)
    {
      SwapWithLeftChild(cur, left);
      if right != null {
        right.prev := left;
      }
    }

    /** The second half: the lifted child takes slot `i` and the node on its way down takes slot `c`. */
    method Lift(link: Link, cur: Node, child: Node, ghost n: nat, ghost i: nat, ghost c: nat, ghost top: nat)
      requires Placed(slots, n) && Relinked(slots, n, i, c) && Told(slots, n, i, top, c) && LinkTo(slots, link, i)
      requires c / 2 == i && 1 <= i <= n && c <= n
      requires root == slots[1] && cur == slots[i] && child == slots[c]
      modifies this`root, this`slots, LeftHolder(link)`left, RightHolder(link)`right
      modifies cur`slot, child`slot
      ensures slots == Swap(old(slots), i, c)
      ensures Sifting(n, c, top)
    {
      hide Hung, Down, Relinked, Told, SiftUpLinks;
      ToldStep(slots, n, i, top, c);
      RelinkedHangs(slots, n, i, c);
      TradePlaces(cur, child, n, i, c);
      Store(link, child, n, i, cur);
      DownHangs(slots, n, i);
    }

    ghost method TradePlaces(cur: Node, child: Node, n: nat, i: nat, c: nat)
      requires Placed(slots, n) && 1 <= i < c <= n && cur == slots[i] && child == slots[c]
      modifies this`slots, cur`slot, child`slot
      ensures slots == Swap(old(slots), i, c) && Placed(slots, n)
    {
      slots := Swap(slots, i, c);
      child.slot := i;
      cur.slot := c;
    }

    /** `cur` stands in slot `i`, on its way down from slot `top`, and only it may be out of order. */
    ghost predicate Sinks(cur: Node, n: nat, i: nat, top: nat)
      reads this, slots
    {
      && Sifting(n, i, top)
      && SiftOrder(slots, n, i)
      && cur == slots[i]
    }

    lemma SinksLinks(cur: Node, n: nat, i: nat, top: nat)
      requires Sinks(cur, n, i, top)
      ensures 1 <= top <= i <= n && |slots| >= 2 * n + 2 && slots[i] == cur
      ensures cur.left == slots[2 * i] && cur.right == slots[2 * i + 1]
      ensures slots[2 * i] != null <==> 2 * i <= n
      ensures slots[2 * i + 1] != null <==> 2 * i + 1 <= n
    {
    }

    /** The smaller child `c` of slot `i` may be lifted. */
    lemma SinksLift(cur: Node, n: nat, i: nat, top: nat, c: nat)
      requires Sinks(cur, n, i, top) && c / 2 == i && c <= n
      requires |slots| >= 2 * n + 2 && slots[c] != null
      requires Less(slots[c].key, cur.key)
      requires c == 2 * i && slots[c + 1] != null ==> !Less(slots[c + 1].key, slots[c].key)
      requires c == 2 * i + 1 && slots[c - 1] != null ==> Less(slots[c].key, slots[c - 1].key)
      ensures Sifting(n, i, top) && 1 <= i <= n && i != c
      ensures SiftOrder(Swap(slots, i, c), n, c)
    {
      SiftDownOrder(slots, n, i, c);
    }

    /** Everything is in place but the links of slots `i` and `top` to their parents. */
    ghost predicate Stopped(n: nat, i: nat, top: nat)
      reads this, slots
    {
      && Placed(slots, n)
      && root == slots[1]
      && Down(slots, n, 0)
      && UpButTwo(slots, n, i, top)
      && InOrder(slots, n)
    }

    lemma StoppedLinks(n: nat, i: nat, top: nat)
      requires Stopped(n, i, top)
      ensures |slots| >= 2 * n + 2 && slots[0] == null && root == slots[1]
      ensures forall k :: 1 <= k <= n ==> slots[k] != null
      ensures forall link :: 1 <= top <= n && LinkTo(slots, link, top) ==>
                slots[top] == if link.Root? then root else if link.LeftOf? then link.node.left else link.node.right
    {
    }

    lemma StoppedAtLeaf(cur: Node, n: nat, i: nat, top: nat)
      requires Sinks(cur, n, i, top) && 2 * i > n
      ensures Stopped(n, i, top)
    {
      SiftStopOrder(slots, n, i);
    }

    /** The end of `sift_down` above children that may stay where they are. */
    method Settle(cur: Node, left: Node, right: Node?, ghost n: nat, ghost i: nat, ghost top: nat)
      requires Sinks(cur, n, i, top)
      requires 2 * i <= n && left == slots[2 * i] && right == slots[2 * i + 1]
      requires Le(cur.key, left.key) && (right != null ==> Le(cur.key, right.key))
      modifies left`prev, Just(right)`prev
      ensures Stopped(n, i, top)
    {
      hide InOrder, SiftOrder;
      SiftStopOrder(slots, n, i);
      if right != null {
        right.prev := cur;
      }
      left.prev := cur;
    }

    method SetParent(cur: Node, parent: Node?, ghost n: nat, ghost i: nat, ghost top: nat)
      requires Stopped(n, i, top)
      requires 1 <= i <= n && i < |slots| && cur == slots[i] && parent == slots[i / 2]
      modifies cur`prev
      ensures Stopped(n, top, top)
      ensures i == top ==> Tree(slots, n)
    {
      hide InOrder;
      cur.prev := parent;
    }

    method LowerRight(link: Link, cur: Node, left: Node, right: Node, ghost n: nat, ghost i: nat, ghost top: nat)
      requires Sifting(n, i, top) && LinkTo(slots, link, i) && cur == slots[i]
      requires 2 * i + 1 <= n && left == slots[2 * i] && right == slots[2 * i + 1]
      modifies this`root, this`slots, LeftHolder(link)`left, RightHolder(link)`right
      modifies cur`left, cur`right, cur`slot, right`left, right`right, right`slot, left`prev
      ensures slots == Swap(old(slots), i, 2 * i + 1)
      ensures Sifting(n, 2 * i + 1, top)
    {
      hide Relinked, Told, Swap;
      RelinkRight(cur, left, right, n, i, top);
      Lift(link, cur, right, n, i, 2 * i + 1, top);
    }

    /** One round of `sift_down` that lifts the right child. */
    method SinkRight(link: Link, cur: Node, left: Node, right: Node, ghost n: nat, ghost i: nat, ghost top: nat)
      requires Sinks(cur, n, i, top) && LinkTo(slots, link, i) && |slots| >= 2 * n + 2
      requires 1 <= i && 2 * i + 1 <= n && left == slots[2 * i] && right == slots[2 * i + 1]
      requires Less(right.key, left.key) && Less(right.key, cur.key)
      modifies this`root, this`slots, LeftHolder(link)`left, RightHolder(link)`right
      modifies cur`left, cur`right, cur`slot, right`left, right`right, right`slot, left`prev
      ensures |slots| == |old(slots)| && multiset(slots) == multiset(old(slots))
      ensures slots[top / 2] == old(slots)[top / 2]
      ensures slots[i] == right && LinkTo(slots, RightOf(right), 2 * i + 1)
      ensures Sinks(cur, n, 2 * i + 1, top)
    {
      hide Placed, Sifting, SiftOrder, Swap;
      SinksLinks(cur, n, i, top);
      SinksLift(cur, n, i, top, 2 * i + 1);
      SwapNodes(slots, i, 2 * i + 1);
      ghost var lifted := Swap(slots, i, 2 * i + 1);
      LowerRight(link, cur, left, right, n, i, top);
      assert SiftOrder(lifted, n, 2 * i + 1);
    }

    method LowerLeft(link: Link, cur: Node, left: Node, right: Node?, ghost n: nat, ghost i: nat, ghost top: nat)
      requires Sifting(n, i, top) && LinkTo(slots, link, i) && cur == slots[i]
      requires 2 * i <= n && left == slots[2 * i] && right == slots[2 * i + 1]
      modifies this`root, this`slots, LeftHolder(link)`left, RightHolder(link)`right
      modifies cur`left, cur`right, cur`slot, left`left, left`right, left`slot, Just(right)`prev
      ensures slots == Swap(old(slots), i, 2 * i)
      ensures Sifting(n, 2 * i, top)
    {
      hide Relinked, Told, Swap;
      RelinkLeft(cur, left, right, n, i, top);
      Lift(link, cur, left, n, i, 2 * i, top);
    }

    /** One round of `sift_down` that lifts the left child. */
    method SinkLeft(link: Link, cur: Node, left: Node, right: Node?, ghost n: nat, ghost i: nat, ghost top: nat)
      requires Sinks(cur, n, i, top) && LinkTo(slots, link, i) && |slots| >= 2 * n + 2
      requires 1 <= i && 2 * i <= n && left == slots[2 * i] && right == slots[2 * i + 1]
      requires right == null || !Less(right.key, left.key)
      requires Less(left.key, cur.key)
      modifies this`root, this`slots, LeftHolder(link)`left, RightHolder(link)`right
      modifies cur`left, cur`right, cur`slot, left`left, left`right, left`slot, Just(right)`prev
      ensures |slots| == |old(slots)| && multiset(slots) == multiset(old(slots))
      ensures slots[top / 2] == old(slots)[top / 2]
      ensures slots[i] == left && LinkTo(slots, LeftOf(left), 2 * i)
      ensures Sinks(cur, n, 2 * i, top)
    {
      hide Placed, Sifting, SiftOrder, Swap;
      SinksLinks(cur, n, i, top);
      SinksLift(cur, n, i, top, 2 * i);
      SwapNodes(slots, i, 2 * i);
      ghost var lifted := Swap(slots, i, 2 * i);
      LowerLeft(link, cur, left, right, n, i, top);
      assert SiftOrder(lifted, n, 2 * i);
    }

    /**
     `cur` sinks from slot `top` until no child is smaller. Afterwards only the link of slot `top` to its
     parent may be wrong; the caller sets it.
     */
    method SiftDown(cur: Node, link0: Link, parent0: Node?, ghost n: nat, ghost top: nat)
      requires Sinks(cur, n, top, top) && LinkTo(slots, link0, top) && parent0 == slots[top / 2]
      modifies this`root, this`slots, slots`prev, slots`left, slots`right, slots`slot
      ensures Stopped(n, top, top)
      ensures |slots| == |old(slots)| && multiset(slots) == multiset(old(slots))
      ensures slots[top / 2] == old(slots)[top / 2]
    {
      hide Sinks, Stopped, Tree, LinkTo;
      var link, parent := link0, parent0;
      ghost var i := top;
      SinksLinks(cur, n, i, top);
      var right := cur.right;
      var left := cur.left;
      while left != null
        invariant Sinks(cur, n, i, top)
        invariant 1 <= i <= n && |slots| == |old(slots)| >= 2 * n + 2
        invariant cur == slots[i] && left == slots[2 * i] && right == slots[2 * i + 1]
        invariant left == null ==> 2 * i > n
        invariant LinkTo(slots, link, i) && parent == slots[i / 2]
        invariant multiset(slots) == multiset(old(slots)) && slots[top / 2] == old(slots)[top / 2]
        decreases n - i
      {
        SinksLinks(cur, n, i, top);
        SameFamily(slots, old(slots), i);
        HolderIsParent(slots, link, i);
        if right != null && Less(right.key, left.key) {
          if Less(right.key, cur.key) {
            SinkRight(link, cur, left, right, n, i, top);
            parent := right;
            link := RightOf(right);
            i := 2 * i + 1;
          } else {
            Settle(cur, left, right, n, i, top);
            break;
          }
        } else {
          if Less(left.key, cur.key) {
            SinkLeft(link, cur, left, right, n, i, top);
            parent := left;
            link := LeftOf(left);
            i := 2 * i;
          } else {
            Settle(cur, left, right, n, i, top);
            break;
          }
        }
        SinksLinks(cur, n, i, top);
        right, left := cur.right, cur.left;
      }
      if left == null {
        StoppedAtLeaf(cur, n, i, top);
      }
      SameFamily(slots, old(slots), i);
      SetParent(cur, parent, n, i, top);
    }

    /** `cur` sinks from slot `top`, and whatever ends up there is told its parent. */
    method SinkFrom(cur: Node, link: Link, parent: Node?, ghost n: nat, ghost top: nat)
      requires Sinks(cur, n, top, top) && LinkTo(slots, link, top) && parent == slots[top / 2]
      modifies this`root, this`slots, slots`prev, slots`left, slots`right, slots`slot
      ensures Tree(slots, n) && root == slots[1]
      ensures |slots| == |old(slots)| && multiset(slots) == multiset(old(slots))
    {
      hide Sinks, Stopped, Tree;
      SinksLinks(cur, n, top, top);
      SiftDown(cur, link, parent, n, top);
      StoppedLinks(n, top, top);
      SameFamily(slots, old(slots), top);
      var there := if link.Root? then root else if link.LeftOf? then link.node.left else link.node.right;
      SetParent(there, parent, n, top, top);
    }

    /** `*link = node` */
    method Store(link: Link, node: Node?, ghost n: nat, ghost i: nat, ghost was: Node?)
      requires Filled(slots, n) && (forall k :: 1 <= k <= n ==> slots[k].slot == k)
      requires 1 <= i <= n + 1 && LinkTo(slots, link, i) && Hung(slots, n, was, i)
      modifies this`root, LeftHolder(link)`left, RightHolder(link)`right
      ensures Hung(slots, n, node, i)
      ensures root == if i == 1 then node else old(root)
    {
      match link
      case Root => root := node;
      case LeftOf(p) => p.left := node;
      case RightOf(p) => p.right := node;
    }

    /** `node` learns its place and its parent, and `cur` that `node` will stand above it. */
    method Introduce(node: Node, parent: Node?, cur: Node, ghost n: nat, ghost i: nat)
      requires Placed(slots, n) && Up(slots, n, 0, -1) && node !in slots && 1 <= i <= n && slots[i] == cur
      modifies node`slot, node`prev, cur`prev
      ensures Placed(slots, n) && Up(slots, n, i, -1)
      ensures node.slot == i && node.prev == parent && cur.prev == node
    {
      node.slot := i;
      node.prev := parent;
      cur.prev := node;
    }

    /** `node` takes slot `i`; the tree does not yet know where to put its former occupant `cur`. */
    method TakePlace(link: Link, node: Node, parent: Node?, cur: Node, ghost n: nat, ghost i: nat)
      requires Tree(slots, n) && root == slots[1] && node !in slots
      requires 1 <= i <= n && LinkTo(slots, link, i) && slots[i] == cur && slots[i / 2] == parent
      requires Less(node.key, cur.key)
      requires parent != null ==> Le(parent.key, node.key)
      modifies this`root, this`slots, LeftHolder(link)`left, RightHolder(link)`right
      modifies node`prev, cur`prev, node`slot
      ensures slots == old(slots)[i := node] && root == slots[1]
      ensures Sinking(slots, n, node, cur, i)
    {
      hide Fits, InHand, InOrder, Hung, Down;
      TakenOrder(slots, n, node, i);
      Introduce(node, parent, cur, n, i);
      DownHangs(slots, n, i);
      Store(link, node, n, i, slots[i]);
      TakenLinks(slots, n, node, i);
      slots := slots[i := node];
    }

    /** The fields of a node that becomes the last leaf. */
    method PrepareLeaf(node: Node, parent: Node?, ghost n: nat)
      requires Placed(slots, n) && Down(slots, n, 0) && Up(slots, n, 0, -1) && node !in slots
      modifies node`prev, node`left, node`right, node`slot
      ensures Placed(slots, n) && Down(slots, n, 0) && Up(slots, n, 0, -1)
      ensures node.slot == n + 1 && node.prev == parent && node.left == null && node.right == null
    {
      node.slot := n + 1;
      node.prev := parent;
      node.right := null;
      node.left := null;
    }

    /** `node` becomes the last leaf. */
    method AddLeaf(link: Link, node: Node, parent: Node?, ghost n: nat)
      requires Tree(slots, n) && root == slots[1] && node !in slots && |slots| >= 2 * n + 4
      requires LinkTo(slots, link, n + 1) && slots[(n + 1) / 2] == parent
      requires parent != null ==> Le(parent.key, node.key)
      modifies this`root, this`slots, LeftHolder(link)`left, RightHolder(link)`right
      modifies node`prev, node`left, node`right, node`slot
      ensures slots == old(slots)[n + 1 := node] && root == slots[1]
      ensures Tree(slots, n + 1)
    {
      hide InOrder, Hung, Down;
      LeafOrder(slots, n, node);
      PrepareLeaf(node, parent, n);
      DownHangs(slots, n, n + 1);
      Store(link, node, n, n + 1, slots[n + 1]);
      LeafLinks(slots, n, node);
      slots := slots[n + 1 := node];
    }

    /** One round of the displacement loop: `cur` takes the next slot on the path. */
    method Displace(node: Node, cur: Node, right: bool, ghost n: nat, ghost i: nat, ghost j: nat)
      returns (next: Node?)
      requires Sinking(slots, n, node, cur, i) && |slots| >= 2 * n + 4
      requires 2 * i <= n + 1 && j == 2 * i + (if right then 1 else 0) <= n + 1
      modifies this`slots, Just(slots[i])`left, Just(slots[i])`right, cur`slot
      modifies Just(slots[2 * i])`prev, Just(slots[2 * i + 1])`prev
      ensures j < |old(slots)| && slots == old(slots)[j := cur]
      ensures next == old(slots)[j]
      ensures if j <= n then next != null && Sinking(slots, n, cur, next, j)
              else next == null && Sunk(slots, j, cur)
    {
      hide Fits, InHand, Handed, Sunk;
      InHandBounds(slots, n, node, cur, i);
      if right {
        HandRight(slots, n, node, cur, i);
        next := cur.right;
      } else {
        HandLeft(slots, n, node, cur, i);
        next := cur.left;
      }
      SinkStep(slots, n, cur, i, j);
      slots := slots[j := cur];
    }

    method PushDown(node0: Node, cur0: Node, mask0: nat, path: nat, ghost i0: nat)
      requires size >= 2 && path == size
      requires mask0 != 0 && IsMask(mask0) && Prefix(size, mask0) == i0
      requires |slots| >= 2 * size + 2
      requires 1 <= i0 < |slots| && slots[i0] == node0
      requires Sinking(slots, size - 1, node0, cur0, i0)
      modifies this`slots, slots`prev, slots`left, slots`right, slots`slot
      modifies cur0`prev, cur0`left, cur0`right, cur0`slot
      ensures Tree(slots, size) && slots[1] == old(slots[1])
      ensures multiset(slots) + multiset{null} == old(multiset(slots)) + multiset{cur0}
    {
      hide GoRight, Prefix, Sinking, Sunk, Tree;
      var node: Node := node0;
      var cur: Node? := cur0;
      var mask := mask0;
      ghost var i := i0;
      ghost var n := size - 1;
      while mask != 0
        invariant 1 <= i < |slots| == |old(slots)| && slots[1] == old(slots[1])
        invariant IsMask(mask) && Prefix(size, mask) == i
        invariant slots[i] == node
        invariant mask != 0 ==> cur != null && Sinking(slots, n, node, cur, i)
        invariant mask == 0 ==> Sunk(slots, size, node) && cur == null
        invariant multiset(slots) + multiset{cur} == old(multiset(slots)) + multiset{cur0}
        decreases mask
      {
        PathStep(size, mask);
        SameNodes(slots, cur, old(slots), cur0);
        assert slots[i] in slots && slots[2 * i] in slots && slots[2 * i + 1] in slots;
        ghost var j := 2 * i + if GoRight(mask, path) then 1 else 0;
        var next := Displace(node, cur, GoRight(mask, path), n, i, j);
        node, cur := cur, next;
        mask := mask / 2;
        i := j;
      }
      SameNodes(slots, cur, old(slots), cur0);
      assert slots[i] in slots;
      ClearLast(slots, size, node);
    }

    /** `node` takes slot `i` and everything below it on the path moves one step down. */
    method PushIn(link: Link, node: Node, parent: Node?, cur: Node, mask: nat, path: nat, ghost i: nat)
      requires size >= 2 && path == size && |slots| >= 2 * size + 2
      requires mask != 0 && IsMask(mask) && Prefix(size, mask) == i
      requires Tree(slots, size - 1) && root == slots[1] && node !in slots
      requires 1 <= i <= size - 1 && LinkTo(slots, link, i) && slots[i] == cur && slots[i / 2] == parent
      requires Less(node.key, cur.key)
      requires parent != null ==> Le(parent.key, node.key)
      modifies this`root, this`slots, slots`prev, slots`left, slots`right, slots`slot
      modifies node`prev, node`left, node`right, node`slot
      ensures Tree(slots, size) && root == slots[1]
      ensures forall x: Node :: x in slots <==> x in old(slots) || x == node
    {
      hide Prefix, Tree, Sinking;
      assert cur in slots && (i > 1 ==> slots[i / 2] in slots);
      TakePlace(link, node, parent, cur, size - 1, i);
      PushDown(node, cur, mask, path, i);
      SameNodes(slots, null, old(slots), node);
    }

    /** The outer loop of `insert`: down the path to the last slot, but no further than a larger key. */
    method FindPlace(node: Node, ghost n: nat)
      returns (link: Link, parent: Node?, cur: Node?, mask: nat, ghost i: nat)
      requires Tree(slots, n) && root == slots[1] && size == n + 1 && |slots| >= 2 * size + 2
      ensures 1 <= i <= size && LinkTo(slots, link, i) && cur == slots[i] && parent == slots[i / 2]
      ensures IsMask(mask) && Prefix(size, mask) == i
      ensures parent != null ==> Le(parent.key, node.key)
      ensures if mask == 0 then i == size else i < size && cur != null && Less(node.key, cur.key)
    {
      hide GoRight, Prefix, Tree;
      link, parent, cur := Root, null, root;
      var path := size;
      mask := PathBitMask(size);
      i := 1;
      PathStart(size);
      TreeEnds(slots, n);
      while mask != 0
        invariant IsMask(mask) && Prefix(size, mask) == i && 1 <= i <= size
        invariant mask == 0 ==> i == size
        invariant LinkTo(slots, link, i)
        invariant cur == slots[i] && parent == slots[i / 2]
        invariant parent != null ==> Le(parent.key, node.key)
        decreases mask
      {
        PathStep(size, mask);
        TreeLinks(slots, n, i);
        if Less(node.key, cur.key) {
          return;
        }
        parent := cur;
        if GoRight(mask, path) {
          link, cur := RightOf(cur), cur.right;
          i := 2 * i + 1;
        } else {
          link, cur := LeftOf(cur), cur.left;
          i := 2 * i;
        }
        mask := mask / 2;
      }
    }

    method Insert(node: Node)
      requires Valid() && node !in Nodes()
      modifies this, Nodes()`prev, Nodes()`left, Nodes()`right, Nodes()`slot
      modifies node`prev, node`left, node`right, node`slot
      ensures Valid() && size == old(size) + 1
      ensures Nodes() == old(Nodes()) + {node}
    {
      hide Tree, Prefix;
      Pad(slots, size);
      slots := slots + [null, null];
      size := size + 1;
      ghost var before := slots;
      ghost var i;
      var link, parent, cur, mask;
      link, parent, cur, mask, i := FindPlace(node, size - 1);
      if mask != 0 {
        PushIn(link, node, parent, cur, mask, size, i);
      } else {
        AddLeaf(link, node, parent, size - 1);
        AddedNode(before, size, node);
      }
    }

    /** The walk of `remove_last_leaf`. */
    method FindLastLeaf(ghost n: nat) returns (link: Link, cur: Node)
      requires n >= 1 && size == n && Tree(slots, n) && root == slots[1]
      ensures cur == slots[n] && LinkTo(slots, link, n)
    {
      hide GoRight, Prefix, Tree;
      var path := size;
      var mask := PathBitMask(path);
      TreeEnds(slots, n);
      TreeLinks(slots, n, 1);
      link, cur := Root, root;
      ghost var i := 1;
      PathStart(size);
      while mask != 0
        invariant IsMask(mask) && Prefix(size, mask) == i && 1 <= i <= size
        invariant mask == 0 ==> i == size
        invariant LinkTo(slots, link, i) && cur == slots[i]
        decreases mask
      {
        PathStep(size, mask);
        TreeLinks(slots, n, i);
        if GoRight(mask, path) {
          link := RightOf(cur);
          i := 2 * i + 1;
        } else {
          link := LeftOf(cur);
          i := 2 * i;
        }
        TreeLinks(slots, n, i);
        cur := if link.RightOf? then link.node.right else link.node.left;
        mask := mask / 2;
      }
    }

    /** Cuts off the last leaf and returns it. */
    method RemoveLastLeaf(ghost n: nat) returns (cur: Node)
      requires n >= 1 && size == n && Tree(slots, n) && root == slots[1]
      modifies this`root, this`slots, Just(slots[n / 2])`left, Just(slots[n / 2])`right
      ensures slots == old(slots)[n := null] && root == slots[1]
      ensures cur == old(slots)[n] && cur !in slots && cur.slot == n
      ensures Tree(slots, n - 1)
      ensures slots[n / 2] != null ==> Le(slots[n / 2].key, cur.key)
      ensures n > 1 ==> slots[1] != null && Le(slots[1].key, cur.key)
    {
      hide Tree;
      var link;
      link, cur := FindLastLeaf(n);
      TreeLinks(slots, n, n);
      TreeRoot(slots, n, n);
      HolderIsParent(slots, link, n);
      Cut(link, n);
    }

    method Cut(link: Link, ghost n: nat)
      requires n >= 1 && Tree(slots, n) && root == slots[1] && LinkTo(slots, link, n)
      modifies this`root, this`slots, LeftHolder(link)`left, RightHolder(link)`right
      ensures slots == old(slots)[n := null] && root == slots[1]
      ensures old(slots)[n] !in slots
      ensures Tree(slots, n - 1)
      ensures slots[n / 2] != null ==> Le(slots[n / 2].key, old(slots)[n].key)
    {
      CutOrder(slots, n);
      hide Hung, Down, Up, InOrder;
      DownHangs(slots, n, n);
      Store(link, null, n, n, slots[n]);
      CutLinks(slots, n);
      slots := slots[n := null];
    }

    /** `cur` takes over the children of `node`. */
    method TakeChildren(node: Node, cur: Node, ghost n: nat, ghost i: nat)
      requires Tree(slots, n) && 1 <= i <= n && node == slots[i] && cur !in slots
      modifies cur`left, cur`right, cur`slot
      ensures Placed(slots, n) && Down(slots, n, 0) && Up(slots, n, 0, -1)
      ensures cur.left == slots[2 * i] && cur.right == slots[2 * i + 1] && cur.slot == i
    {
      hide InOrder;
      cur.right := node.right;
      cur.left := node.left;
      cur.slot := i;
    }

    method ReplaceLinks(node: Node, cur: Node, link: Link, ghost n: nat, ghost i: nat)
      requires Tree(slots, n) && root == slots[1] && 1 <= i <= n && LinkTo(slots, link, i)
      requires node == slots[i] && cur !in slots
      modifies this`root, this`slots, LeftHolder(link)`left, RightHolder(link)`right
      modifies cur`left, cur`right, cur`slot
      ensures slots == old(slots)[i := cur] && Sifting(n, i, i)
    {
      TakeChildren(node, cur, n, i);
      hide InOrder, SiftUpLinks;
      DownHangs(slots, n, i);
      hide Down, Hung;
      Store(link, cur, n, i, node);
      ReplacedLinks(slots, n, cur, i);
      slots := slots[i := cur];
    }

    /** `cur` takes slot `i` from `node`: its child pointers are copied and the link to the slot redirected. */
    method Replace(node: Node, cur: Node, link: Link, ghost n: nat, ghost i: nat)
      requires Tree(slots, n) && root == slots[1] && 1 <= i <= n && LinkTo(slots, link, i)
      requires node == slots[i] && cur !in slots
      modifies this`root, this`slots, LeftHolder(link)`left, RightHolder(link)`right
      modifies cur`left, cur`right, cur`slot
      ensures slots == old(slots)[i := cur] && Sifting(n, i, i)
      ensures slots[i / 2] == null || Le(slots[i / 2].key, cur.key) ==> SiftOrder(slots, n, i)
      ensures slots[i / 2] != null && Less(cur.key, slots[i / 2].key) ==> RiseOrder(slots, n, i)
    {
      ReplacedOrder(slots, n, cur, i);
      hide InOrder, SiftOrder, RiseOrder, Tree, Sifting;
      ghost var after := slots[i := cur];
      ghost var sinks, rises := SiftOrder(after, n, i), RiseOrder(after, n, i);
      ReplaceLinks(node, cur, link, n, i);
      assert sinks == SiftOrder(after, n, i) && rises == RiseOrder(after, n, i);
    }

    method PopFront()
      requires Valid()
      modifies this, Nodes()`prev, Nodes()`left, Nodes()`right, Nodes()`slot
      ensures Valid()
      ensures old(root) == null ==> Nodes() == {} && size == 0
      ensures old(root) != null ==>
                && Nodes() == old(Nodes()) - {old(root)} && size == old(size) - 1
                && old(root).prev == null
    {
      hide Tree;
      if size <= 1 {
        TreeEnds(slots, size);
        Emptied(slots, size, slots[1 := null]);
        slots := slots[1 := null];
        root := null;
        size := 0;
        return;
      }
      PopTop();
    }

    /** `pop_front` of a heap with two nodes or more. */
    method PopTop()
      requires Valid() && size >= 2
      modifies this, slots`prev, slots`left, slots`right, slots`slot
      ensures Valid() && size == old(size) - 1
      ensures old(root) != null && old(root).prev == null
      ensures forall x: Node :: x in slots <==> x in old(slots) && x != old(root)
    {
      hide Tree;
      TreeLinks(slots, size, 1);
      TreeEnds(slots, size);
      ghost var after := slots[size := null][1 := slots[size]];
      WithoutSlot(slots, size, 1, after);
      assert slots[size / 2] in slots && slots[size] in slots && slots[1] in slots;
      var cur := RemoveLastLeaf(size);
      var top := root;
      size := size - 1;
      SinkFromTop(top, cur);
      SameBag(slots, after);
    }

    /** The second half of `pop_front`: the former last leaf `cur` replaces `top` and sinks. */
    method SinkFromTop(top: Node, cur: Node)
      requires size >= 1 && Tree(slots, size) && root == slots[1] == top && cur !in slots
      requires top !in slots[1 := cur]
      modifies this`root, this`slots, slots`prev, slots`left, slots`right, slots`slot
      modifies cur`prev, cur`left, cur`right, cur`slot
      ensures Tree(slots, size) && root == slots[1]
      ensures |slots| == |old(slots)| && multiset(slots) == multiset(old(slots)[1 := cur])
      ensures top.prev == old(top.prev)
    {
      hide Tree, Stopped, SiftOrder;
      TreeEnds(slots, size);
      Replace(top, cur, Root, size, 1);
      SinkFrom(root, Root, null, size, 1);
    }

    /** The front of the heap is a node with a smallest key. */
    lemma FrontIsLeast()
      requires Valid() && root != null
      ensures root in Nodes() && forall x | x in Nodes() :: Le(root.key, x.key)
    {
      TreeEnds(slots, size);
      assert slots[1] in slots;
      forall x | x in Nodes() ensures Le(root.key, x.key) {
        var i :| 0 <= i < |slots| && slots[i] == x;
        TreeRoot(slots, size, i);
      }
    }

    lemma EmptyWithoutRoot()
      requires Valid() && root == null
      ensures Nodes() == {} && size == 0
    {
    }

    /** `cur` stands in slot `i` on its way up; `a` and `b` are its children, and `b` knows what is coming. */
    ghost predicate Rises(cur: Node, a: Node?, b: Node?, n: nat, i: nat)
      reads this, slots, b
    {
      && Sifting(n, i, i)
      && Family(slots, i, a, b)
      && RiseOrder(slots, n, i)
      && cur == slots[i]
      && Le(slots[1].key, cur.key)
      && (i % 2 == 0 ==> i + 1 <= n)
    }

    /** `a` is adopted by the parent of `cur`, which is about to come down into slot `i`. */
    method Adopt(a: Node?, parent: Node, ghost b: Node?, ghost cur: Node, ghost n: nat, ghost i: nat)
      requires Rises(cur, a, b, n, i) && parent == slots[i / 2]
      modifies Just(a)`prev
      ensures Placed(slots, n) && Down(slots, n, 0) && Adopted(slots, n, i)
    {
      if a != null {
        a.prev := parent;
      }
    }

    /** `parent` and `cur` are relinked; the result is the sibling, which must be told about its new parent. */
    method RelinkUp(cur: Node, parent: Node, ghost n: nat, ghost i: nat) returns (sibling: Node)
      requires Placed(slots, n) && Down(slots, n, 0) && Adopted(slots, n, i)
      requires cur == slots[i] && parent == slots[i / 2]
      requires i % 2 == 0 ==> i + 1 <= n
      modifies parent`left, parent`right, cur`left, cur`right
      ensures Placed(slots, n) && Relinked(slots, n, i / 2, i) && Adopted(slots, n, i)
      ensures sibling == slots[if i % 2 == 0 then i + 1 else i - 1]
    {
      if parent.right == cur {
        sibling := parent.left;
        SwapWithRightChild(parent, cur);
      } else {
        sibling := parent.right;
        SwapWithLeftChild(parent, cur);
      }
    }

    /** The grandparent gets `cur` as a child in place of `parent`. */
    method Regraft(grand: Node, parent: Node, cur: Node, ghost n: nat, ghost p: nat)
      requires Placed(slots, n) && 2 <= p <= n && grand == slots[p / 2] && Hung(slots, n, parent, p)
      requires parent in slots && parent.slot != p + 1 && parent.slot != p - 1
      modifies grand`left, grand`right
      ensures Hung(slots, n, cur, p)
    {
      if grand.right == parent {
        grand.right := cur;
      } else {
        grand.left := cur;
      }
    }

    /** A node that is smaller than its parent cannot be below the root: the grandparent exists. */
    lemma CanClimb(cur: Node, a: Node?, b: Node?, n: nat, i: nat)
      requires Rises(cur, a, b, n, i)
      ensures |slots| >= 2 * n + 2 && 2 <= i <= n && slots[i / 2] != null && slots[i] == cur
      ensures slots[i / 2].prev == slots[i / 2 / 2]
      ensures Less(cur.key, slots[i / 2].key) ==> i >= 4 && slots[i / 2 / 2] != null
    {
    }

    /** The second half of a round of `sift_up`: `cur` takes slot `i / 2` and its parent slot `i`. */
    method Raise(cur: Node, parent: Node, grand: Node, ghost n: nat, ghost i: nat)
      requires Placed(slots, n) && Relinked(slots, n, i / 2, i) && Adopted(slots, n, i)
      requires 4 <= i <= n && root == slots[1]
      requires cur == slots[i] && parent == slots[i / 2] && grand == slots[i / 2 / 2]
      modifies this`slots, grand`left, grand`right, parent`slot, cur`slot
      ensures slots == Swap(old(slots), i / 2, i)
      ensures Sifting(n, i / 2, i / 2) && parent.prev == grand
    {
      hide Down, Adopted, Relinked, Hung, SiftUpLinks;
      ghost var p := i / 2;
      RelinkedHangs(slots, n, p, i);
      AdoptedStep(slots, n, i);
      slots := Swap(slots, p, i);
      cur.slot := p;
      parent.slot := i;
      assert Placed(slots, n);
      assert slots[i] in slots;
      Regraft(grand, parent, cur, n, p);
      DownHangs(slots, n, p);
    }

    /** One round of `sift_up`. */
    method Climb(cur: Node, parent: Node, grand: Node, a: Node?, b: Node?, ghost n: nat, ghost i: nat)
      returns (sibling: Node)
      requires Rises(cur, a, b, n, i) && i >= 4 && |slots| >= 2 * n + 2 && i <= n
      requires parent == slots[i / 2] && grand == slots[i / 2 / 2] && Less(cur.key, parent.key)
      modifies this`slots, Just(a)`prev, grand`left, grand`right
      modifies parent`left, parent`right, parent`slot, cur`left, cur`right, cur`slot
      ensures slots == Swap(old(slots), i / 2, i)
      ensures Sifting(n, i / 2, i / 2) && parent.prev == grand
      ensures sibling == old(slots)[if i % 2 == 0 then i + 1 else i - 1]
    {
      hide Down, RiseOrder, Adopted, Relinked, SiftUpLinks;
      Adopt(a, parent, b, cur, n, i);
      sibling := RelinkUp(cur, parent, n, i);
      Raise(cur, parent, grand, n, i);
    }

    method ClimbOnce(cur: Node, parent: Node, grand: Node, a: Node?, b: Node?, ghost n: nat, ghost i: nat)
      returns (sibling: Node)
      requires Rises(cur, a, b, n, i) && i >= 4 && |slots| >= 2 * n + 2 && i <= n
      requires parent == slots[i / 2] && grand == slots[i / 2 / 2] && Less(cur.key, parent.key)
      modifies this`slots, Just(a)`prev, grand`left, grand`right
      modifies parent`left, parent`right, parent`slot, cur`left, cur`right, cur`slot
      ensures slots == Swap(old(slots), i / 2, i)
      ensures Rises(cur, sibling, parent, n, i / 2)
    {
      RiseStepOrder(slots, n, i);
      hide Down, RiseOrder, SiftUpLinks, Placed, Family;
      SwapNodes(slots, i / 2, i);
      ghost var was, lifted := slots, Swap(slots, i / 2, i);
      hide Swap;
      assert RiseOrder(lifted, n, i / 2);
      sibling := Climb(cur, parent, grand, a, b, n, i);
      assert RiseOrder(lifted, n, i / 2);
      SwapFamily(was, i);
    }

    /** A round of `sift_up` stays within the nodes of the heap. */
    method ClimbUp(cur: Node, parent: Node, grand: Node?, a: Node?, b: Node?, ghost n: nat, ghost i: nat,
                   ghost all: set<Node>)
      returns (sibling: Node)
      requires forall x: Node | x in slots :: x in all
      requires Rises(cur, a, b, n, i) && |slots| >= 2 * n + 2 && 2 <= i <= n
      requires parent == slots[i / 2] && grand == slots[i / 2 / 2] && Less(cur.key, parent.key)
      modifies this`slots, all`prev, all`left, all`right, all`slot
      ensures |slots| == |old(slots)| && multiset(slots) == multiset(old(slots))
      ensures forall x: Node | x in slots :: x in all
      ensures grand != null && 2 <= i / 2 && parent == old(slots)[i / 2] && grand == slots[i / 2 / 2]
      ensures Rises(cur, sibling, parent, n, i / 2)
    {
      hide Rises, Swap;
      CanClimb(cur, a, b, n, i);
      RisesFamily(cur, a, b, n, i);
      SameFamily(slots, slots, i);
      SameFamily(slots, slots, i / 2);
      SwapNodes(slots, i / 2, i);
      SameBag(slots, Swap(slots, i / 2, i));
      sibling := ClimbOnce(cur, parent, grand, a, b, n, i);
    }

    method TellChildren(cur: Node, a: Node?, b: Node?, ghost n: nat, ghost i: nat)
      requires Sifting(n, i, i) && Family(slots, i, a, b) && cur == slots[i]
      modifies Just(a)`prev, Just(b)`prev
      ensures Placed(slots, n) && Down(slots, n, 0) && root == slots[1] && UpButTwo(slots, n, i, i)
    {
      hide UpButTwo;
      if a != null {
        a.prev := cur;
      }
      if b != null {
        b.prev := cur;
      }
      if a == slots[2 * i] {
        ToldChildren(slots, n, i, a, b);
      } else {
        ToldChildren(slots, n, i, b, a);
      }
    }

    /** The end of `sift_up`: `cur` stays in slot `i`, and its children are told. */
    method Rest(cur: Node, a: Node?, b: Node?, ghost n: nat, ghost i: nat)
      requires Rises(cur, a, b, n, i) && 2 <= i < |slots| && slots[i / 2] != null
      requires Le(slots[i / 2].key, cur.key)
      modifies Just(a)`prev, Just(b)`prev
      ensures Stopped(n, i, i)
    {
      hide InOrder, RiseOrder, Down, Sifting, Family, UpButTwo, Placed;
      RiseStopOrder(slots, n, i);
      TellChildren(cur, a, b, n, i);
      assert InOrder(slots, n);
    }

    /**
     `cur` rises from slot `i0` while it is smaller than its parent, which it is at first. The two
     pointers into the children's links are told as the children themselves, null for the sentinel.
     */
    method SiftUp(cur: Node, parent0: Node, ghost n: nat, ghost i0: nat)
      requires |slots| >= 2 * n + 2 && 2 <= i0 <= n && cur == slots[i0] && parent0 == slots[i0 / 2]
      requires Sifting(n, i0, i0) && RiseOrder(slots, n, i0)
      requires Less(cur.key, parent0.key) && slots[1] != null && Le(slots[1].key, cur.key)
      requires i0 % 2 == 0 ==> i0 + 1 <= n
      modifies this`slots, slots`prev, slots`left, slots`right, slots`slot
      ensures Tree(slots, n) && |slots| == |old(slots)| && root == slots[1]
      ensures multiset(slots) == multiset(old(slots))
    {
      var parent: Node := parent0;
      ghost var i: nat := i0;
      ghost var all: set<Node> := set x: Node | x in slots;
      var child0, child1 := StartClimb(cur, parent, n, i);
      hide Rises, Tree, Stopped, Swap, Sifting, RiseOrder, Less, Le;
      CanClimb(cur, child0, child1, n, i);
      var grand := parent.prev;
      while Less(cur.key, parent.key)
        invariant Rises(cur, child0, child1, n, i) && forall x: Node | x in slots :: x in all
        invariant 2 <= i <= n && |slots| == |old(slots)| && multiset(slots) == multiset(old(slots))
        invariant parent == slots[i / 2] && grand == slots[i / 2 / 2]
        decreases i
      {
        var sibling := ClimbUp(cur, parent, grand, child0, child1, n, i, all);
        child0, child1 := sibling, parent;
        i := i / 2;
        CanClimb(cur, child0, child1, n, i);
        parent := grand;
        grand := parent.prev;
      }
      CanClimb(cur, child0, child1, n, i);
      RisesFamily(cur, child0, child1, n, i);
      SameFamily(slots, old(slots), i);
      Rest(cur, child0, child1, n, i);
      StoppedLinks(n, i, i);
      SetParent(cur, parent, n, i, i);
    }

    method StartClimb(cur: Node, parent: Node, ghost n: nat, ghost i: nat) returns (child0: Node?, child1: Node?)
      requires |slots| >= 2 * n + 2 && 2 <= i <= n && cur == slots[i] && parent == slots[i / 2]
      requires Sifting(n, i, i) && RiseOrder(slots, n, i)
      requires slots[1] != null && Le(slots[1].key, cur.key)
      requires i % 2 == 0 ==> i + 1 <= n
      modifies Just(slots[2 * i + 1])`prev
      ensures Rises(cur, child0, child1, n, i)
    {
      hide RiseOrder;
      child0, child1 := cur.left, cur.right;
      if child1 != null {
        child1.prev := parent;
      }
    }

    lemma RisesFamily(cur: Node, a: Node?, b: Node?, n: nat, i: nat)
      requires Rises(cur, a, b, n, i)
      ensures 2 * i + 1 < |slots| && a in {slots[2 * i], slots[2 * i + 1]} && b in {slots[2 * i], slots[2 * i + 1]}
    {
    }

    /** The place that points to `node`. */
    method LinkOf(node: Node, ghost n: nat, ghost i: nat) returns (link: Link)
      requires Tree(slots, n) && 1 <= i <= n && slots[i] == node
      ensures LinkTo(slots, link, i)
    {
      TreeLinks(slots, n, i);
      var parent := node.prev;
      if parent != null {
        TreeLinks(slots, n, i / 2);
        if i % 2 == 0 && i < n {
          TreeLinks(slots, n, i + 1);
        }
        TreeEnds(slots, n);
        hide Tree;
        if parent.right == node {
          link := RightOf(parent);
        } else {
          link := LeftOf(parent);
        }
      } else {
        TreeSlotOne(slots, n, i);
        link := Root;
      }
    }

    /**
     The last leaf `cur`, already cut off, replaces `node` and moves up or down from there. Its slot was
     `n + 1`, so if slot `i` has no sibling, `cur` was that sibling and is no smaller than their parent.
     */
    method Substitute(node: Node, cur: Node, ghost n: nat, ghost i: nat)
      requires Tree(slots, n) && root == slots[1] && 1 <= i <= n && slots[i] == node && cur !in slots
      requires slots[1] != null && Le(slots[1].key, cur.key)
      requires slots[(n + 1) / 2] != null ==> Le(slots[(n + 1) / 2].key, cur.key)
      requires node !in slots[i := cur]
      modifies this`root, this`slots, slots`prev, slots`left, slots`right, slots`slot
      modifies cur`prev, cur`left, cur`right, cur`slot
      ensures Tree(slots, n) && root == slots[1]
      ensures |slots| == |old(slots)| && multiset(slots) == multiset(old(slots)[i := cur])
    {
      TreeLinks(slots, n, i);
      TreeEnds(slots, n);
      hide Tree, RiseOrder, SiftOrder, Stopped, InOrder;
      var link := LinkOf(node, n, i);
      HolderIsParent(slots, link, i);
      assert slots[i / 2] in slots;
      var parent := node.prev;
      Replace(node, cur, link, n, i);
      if parent != null && Less(cur.key, parent.key) {
        SiftUp(cur, parent, n, i);
        return;
      }
      SinkFrom(cur, link, parent, n, i);
    }

    /**
     Removes `node`, wherever it stands. A node that is not in the heap must say so by having no parent
     link, as a new node does and as `erase` and `pop_front` leave the nodes they remove.
     */
    method Erase(node: Node) returns (erased: bool)
      requires Valid()
      requires node in Nodes() || node.prev == null
      modifies this, Nodes()`prev, Nodes()`left, Nodes()`right, Nodes()`slot
      ensures Valid()
      ensures erased <==> node in old(Nodes())
      ensures erased ==> Nodes() == old(Nodes()) - {node} && size == old(size) - 1 && node.prev == null
      ensures !erased ==> unchanged(this) && unchanged(old(Nodes()))
    {
      hide Tree;
      TreeMembers(slots, size, node);
      if node.prev == null && node != root {
        return false;
      }
      EraseInside(node);
      return true;
    }

    method EraseInside(node: Node)
      requires Valid() && node in slots
      modifies this, slots`prev, slots`left, slots`right, slots`slot
      ensures Valid() && size == old(size) - 1 && node.prev == null
      ensures forall x: Node :: x in slots <==> x in old(slots) && x != node
    {
      hide Tree, Le, Less;
      TreeMembers(slots, size, node);
      TreeEnds(slots, size);
      ghost var i := node.slot;
      ghost var n := size - 1;
      TreeLinks(slots, size, i);
      ghost var after := if i <= n then slots[size := null][i := slots[size]] else slots[size := null];
      WithoutNode(slots, size, i, after);
      assert slots[size / 2] in slots && slots[size] in slots;
      var cur := RemoveLastLeaf(size);
      size := size - 1;
      if cur != node {
        Substitute(node, cur, n, i);
      }
      SameBag(slots, after);
      Detach(node);
    }

    method Detach(node: Node)
      requires Valid() && node !in slots
      modifies node`prev
      ensures Valid() && node.prev == null
    {
      hide Tree;
      node.prev := null;
    }
  }
}
