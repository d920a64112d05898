/**
 The pointer-linked binary heap of timed operations.

 The tree is described by a ghost sequence `slots`: `slots[i]` is the node in slot `i` of the
 level-by-level numbering of `HeapPath`. `slots[0]` and everything past the last node is null, so that
 "the parent of slot `i` is `slots[i / 2]`, its children are `slots[2 * i]` and `slots[2 * i + 1]`"
 holds for the root and for the leaves too.
 */
module HeapShapes {
  import opened TimerKey
  import opened HeapPath

  class Node {
    var key: When
    var prev: Node?
    var left: Node?
    var right: Node?
    ghost var slot: nat

    constructor (key: When)
      ensures this.key == key
      ensures prev == null && left == null && right == null
    {
      this.key := key;
      prev, left, right := null, null, null;
    }
  }

  type Slots = seq<Node?>

  /** A `Node**`: the place that holds the pointer to one node of the tree. */
  datatype Link = Root | LeftOf(node: Node) | RightOf(node: Node)

  ghost function LeftHolder(link: Link): set<Node> {
    if link.LeftOf? then {link.node} else {}
  }

  ghost function RightHolder(link: Link): set<Node> {
    if link.RightOf? then {link.node} else {}
  }

  /** `link` is the place that points to slot `i`. */
  ghost predicate LinkTo(s: Slots, link: Link, i: nat) {
    if i == 1 then link == Root
    else 2 <= i < |s| && s[i / 2] != null && link == if i % 2 == 0 then LeftOf(s[i / 2]) else RightOf(s[i / 2])
  }

  // ----- what it means to be a heap

  /** Slots 1 to `n` are occupied. */
  ghost predicate Filled(s: Slots, n: nat) {
    |s| >= 2 * n + 2 && forall i :: 1 <= i <= n ==> s[i] != null
  }

  /** Exactly the slots 1 to `n` are occupied, and no node stands in two slots. */
  ghost predicate Placed(s: Slots, n: nat)
    reads s`slot
  {
    && Filled(s, n)
    && s[0] == null
    && (forall i :: 1 <= i <= n ==> s[i].slot == i)
    && (forall i :: n < i < |s| ==> s[i] == null)
  }

  /** The child links of every slot but `hole` are right. */
  ghost predicate Down(s: Slots, n: nat, hole: int)
    requires Filled(s, n)
    reads s`left, s`right
  {
    && (forall i {:trigger s[i].left} :: 1 <= i <= n && i != hole ==> s[i].left == s[2 * i])
    && (forall i {:trigger s[i].right} :: 1 <= i <= n && i != hole ==> s[i].right == s[2 * i + 1])
  }

  /** The parent links are right, except in slot `stale` and in the children of slot `family`. */
  ghost predicate Up(s: Slots, n: nat, stale: int, family: int)
    requires Filled(s, n)
    reads s`prev
  {
    forall i {:trigger s[i].prev} :: 1 <= i <= n && i != stale && i / 2 != family ==> s[i].prev == s[i / 2]
  }

  /** No child has a smaller key than its parent, except below slot `top` and above slot `low`. */
  ghost predicate Ordered(s: Slots, n: nat, top: int, low: int)
    requires Filled(s, n)
    reads s`key
  {
    forall p, c {:trigger s[p].key, s[c].key} ::
      1 <= p && c / 2 == p && c <= n && p != top && c != low ==> Le(s[p].key, s[c].key)
  }

  /** `k` may stand above both children of slot `i`. */
  ghost predicate AboveChildren(s: Slots, n: nat, i: nat, k: When)
    requires Filled(s, n)
    reads s`key
  {
    && (1 <= 2 * i <= n ==> Le(k, s[2 * i].key))
    && (2 * i + 1 <= n ==> Le(k, s[2 * i + 1].key))
  }

  // ----- insertion: the walk that hands nodes down the path

  /** `node` has just taken slot `i` from `cur`, whose old family still knows it. */
  ghost predicate InHand(s: Slots, n: nat, node: Node, cur: Node, i: nat)
    reads s`prev, s`left, s`right, s`slot, cur
  {
    && Placed(s, n)
    && 1 <= i <= n
    && node == s[i]
    && cur !in s
    && Down(s, n, i)
    && Up(s, n, 0, i)
    && cur.prev == node
    && cur.left == s[2 * i]
    && cur.right == s[2 * i + 1]
    && (2 * i <= n ==> s[2 * i].prev == cur)
    && (2 * i + 1 <= n ==> s[2 * i + 1].prev == cur)
  }

  /** The last displaced node stands in slot `n`, and only its own child links are left to be cleared. */
  ghost predicate Landed(s: Slots, n: nat, node: Node)
    reads s`prev, s`left, s`right, s`slot, node
  {
    && Placed(s, n)
    && n >= 1
    && node == s[n]
    && Down(s, n, n)
    && Up(s, n, 0, -1)
    && node.right == null
  }

  /** `cur` hangs below `node` on the side of slot `j`, which it is about to take over. */
  ghost predicate Handed(s: Slots, n: nat, node: Node, cur: Node, i: nat, j: nat)
    reads s`prev, s`left, s`right, s`slot, cur
  {
    && Placed(s, n)
    && 1 <= i <= n && j / 2 == i && j <= n + 1
    && node == s[i]
    && cur !in s
    && Down(s, n, i)
    && Up(s, n, 0, i)
    && node.left == (if j == 2 * i then cur else s[2 * i])
    && node.right == (if j == 2 * i then s[2 * i + 1] else cur)
    && (2 * i <= n ==> s[2 * i].prev == if j == 2 * i then cur else node)
    && (2 * i + 1 <= n ==> s[2 * i + 1].prev == if j == 2 * i then node else cur)
    && cur.prev == node
    && cur.left == s[2 * i]
    && cur.right == s[2 * i + 1]
    && cur.slot == j
  }

  lemma HandedOnDown(s: Slots, n: nat, node: Node, cur: Node, i: nat, j: nat)
    requires Handed(s, n, node, cur, i, j) && j <= n
    ensures Placed(s[j := cur], n) && Down(s[j := cur], n, j)
  {
    assert forall k :: 1 <= k <= n && k != j ==> s[j := cur][k] == s[k];
  }

  lemma HandedOnUp(s: Slots, n: nat, node: Node, cur: Node, i: nat, j: nat)
    requires Handed(s, n, node, cur, i, j) && j <= n
    ensures Filled(s[j := cur], n) && Up(s[j := cur], n, 0, j)
  {
  }

  lemma HandedOnFamily(s: Slots, n: nat, node: Node, cur: Node, i: nat, j: nat)
    requires Handed(s, n, node, cur, i, j) && j <= n
    ensures 1 <= j && |s| >= 2 * n + 2 && s[j] != null && s[j] !in s[j := cur]
    ensures s[j].prev == cur && s[j].left == s[2 * j] && s[j].right == s[2 * j + 1]
    ensures 2 * j <= n ==> s[2 * j] != null && s[2 * j].prev == s[j]
    ensures 2 * j + 1 <= n ==> s[2 * j + 1] != null && s[2 * j + 1].prev == s[j]
  {
    assert forall k :: 0 <= k < |s| && k != j ==> s[k] != s[j];
  }

  lemma HandedOn(s: Slots, n: nat, node: Node, cur: Node, i: nat, j: nat)
    requires Handed(s, n, node, cur, i, j) && j <= n
    ensures InHand(s[j := cur], n, cur, s[j], j)
  {
    hide Handed, Placed, Down, Up;
    HandedOnDown(s, n, node, cur, i, j);
    HandedOnUp(s, n, node, cur, i, j);
    HandedOnFamily(s, n, node, cur, i, j);
  }

  lemma HandedLast(s: Slots, n: nat, node: Node, cur: Node, i: nat)
    requires Handed(s, n, node, cur, i, n + 1) && |s| >= 2 * n + 4
    ensures Landed(s[n + 1 := cur], n + 1, cur)
  {
  }

  ghost function Just(x: Node?): set<Node> {
    if x == null then {} else {x}
  }

  lemma InHandBounds(s: Slots, n: nat, node: Node, cur: Node, i: nat)
    requires InHand(s, n, node, cur, i)
    ensures Filled(s, n) && 1 <= i <= n && s[i] == node
  {
  }

  method HandRight(ghost s: Slots, ghost n: nat, node: Node, cur: Node, ghost i: nat)
    requires InHand(s, n, node, cur, i) && 2 * i <= n
    modifies node`left, node`right, Just(s[2 * i])`prev, cur`slot
    ensures Handed(s, n, node, cur, i, 2 * i + 1)
    ensures cur.right == s[2 * i + 1]
  {
    node.right := cur;
    node.left := cur.left;
    cur.left.prev := node;
    cur.slot := 2 * i + 1;
  }

  method HandLeft(ghost s: Slots, ghost n: nat, node: Node, cur: Node, ghost i: nat)
    requires InHand(s, n, node, cur, i) && 2 * i <= n + 1
    modifies node`left, node`right, Just(s[2 * i + 1])`prev, cur`slot
    ensures Handed(s, n, node, cur, i, 2 * i)
    ensures cur.left == s[2 * i]
  {
    node.right := cur.right;
    node.left := cur;
    if cur.right != null {
      cur.right.prev := node;
    }
    cur.slot := 2 * i;
  }

  /** Keys along the way: `cur` fits between `node` above it and the children of slot `i`. */
  ghost predicate Fits(s: Slots, n: nat, i: nat, cur: Node)
    reads s`key, cur`key
  {
    && Filled(s, n)
    && 1 <= i <= n
    && Ordered(s, n, i, 0)
    && Le(s[i].key, cur.key)
    && AboveChildren(s, n, i, cur.key)
  }

  ghost predicate InOrder(s: Slots, n: nat)
    reads s`key
  {
    Filled(s, n) && Ordered(s, n, 0, 0)
  }

  /** Handing `cur` on to slot `j` keeps the order, and the node it displaces fits below it. */
  lemma OrderHandedOn(s: Slots, n: nat, i: nat, cur: Node, j: nat)
    requires Fits(s, n, i, cur) && j / 2 == i && j <= n + 1 && |s| >= 2 * j + 2
    ensures if j <= n then s[j] != null && Fits(s[j := cur], n, j, s[j]) else InOrder(s[j := cur], j)
  {
  }

  ghost predicate Sinking(s: Slots, n: nat, node: Node, cur: Node, i: nat)
    reads s, cur
  {
    InHand(s, n, node, cur, i) && Fits(s, n, i, cur)
  }

  ghost predicate Sunk(s: Slots, n: nat, node: Node)
    reads s, node
  {
    Landed(s, n, node) && InOrder(s, n)
  }

  lemma SinkStep(s: Slots, n: nat, cur: Node, i: nat, j: nat)
    requires 1 <= i < |s| && s[i] != null
    requires Handed(s, n, s[i], cur, i, j) && Fits(s, n, i, cur) && |s| >= 2 * n + 4
    ensures j < |s|
    ensures if j <= n then s[j] != null && Sinking(s[j := cur], n, cur, s[j], j)
            else s[j] == null && Sunk(s[j := cur], j, cur)
  {
    assert j / 2 == i && j <= n + 1 && (j <= n ==> s[j] != null) && (j > n ==> s[j] == null);
    hide Handed, Fits, InHand, Landed, InOrder;
    OrderHandedOn(s, n, i, cur, j);
    if j <= n {
      HandedOn(s, n, s[i], cur, i, j);
    } else {
      HandedLast(s, n, s[i], cur, i);
    }
  }

  lemma SameNodes(s: Slots, x: Node?, t: Slots, y: Node?)
    requires multiset(s) + multiset{x} == multiset(t) + multiset{y}
    ensures forall z :: z in s || z == x <==> z in t || z == y
    ensures x in t || x == y
  {
    forall z ensures z in s || z == x <==> z in t || z == y {
      assert z in s || z == x <==> z in multiset(s) + multiset{x};
      assert z in t || z == y <==> z in multiset(t) + multiset{y};
    }
  }

  lemma AddedNode(s: Slots, k: nat, node: Node)
    requires k < |s| && s[k] == null
    ensures forall x: Node :: x in s[k := node] <==> x in s || x == node
  {
    SameNodes(s[k := node], null, s, node);
  }

  /** The heap proper, with no link left to be corrected. */
  ghost predicate Tree(s: Slots, n: nat)
    reads s
  {
    && Placed(s, n)
    && Down(s, n, 0)
    && Up(s, n, 0, -1)
    && InOrder(s, n)
  }

  lemma TreeLinks(s: Slots, n: nat, i: nat)
    requires Tree(s, n) && 1 <= i <= n
    ensures |s| >= 2 * n + 2 && s[i] != null && s[i].slot == i
    ensures s[i].left == s[2 * i] && s[i].right == s[2 * i + 1] && s[i].prev == s[i / 2]
    ensures s[i / 2] != null ==> Le(s[i / 2].key, s[i].key)
  {
  }

  lemma TreeEnds(s: Slots, n: nat)
    requires Tree(s, n)
    ensures |s| >= 2 * n + 2 && s[0] == null
    ensures forall i :: n < i < |s| ==> s[i] == null
  {
  }

  lemma TreeSlotOne(s: Slots, n: nat, i: nat)
    requires Tree(s, n) && 1 <= i <= n && s[i].prev == null
    ensures i == 1
  {
  }

  lemma Pad(s: Slots, n: nat)
    requires Tree(s, n)
    ensures Tree(s + [null, null], n)
    ensures |s| >= 2 * n + 2 && s[0] == null && (s + [null, null])[1] == s[1]
    ensures (s + [null, null])[n + 1] == null
    ensures forall x: Node :: x in s + [null, null] <==> x in s
  {
    var t := s + [null, null];
    assert t[0] == null && |t| >= 2 * n + 2;
    assert forall i :: 1 <= i <= n ==>
                         t[i] == s[i] && t[2 * i] == s[2 * i] && t[2 * i + 1] == s[2 * i + 1] && t[i / 2] == s[i / 2];
  }

  /** The link that should lead to slot `i` leads to `node` instead. */
  ghost predicate Hung(s: Slots, n: nat, node: Node?, i: nat)
    requires Filled(s, n)
    reads s`left, s`right
  {
    && Down(s, n, i / 2)
    && (i > 1 ==>
          && 2 <= i < |s|
          && i / 2 <= n
          && s[i / 2].left == (if i % 2 == 0 then node else s[i - 1])
          && s[i / 2].right == (if i % 2 == 0 then (if i + 1 < |s| then s[i + 1] else null) else node))
  }

  lemma DownHangs(s: Slots, n: nat, i: nat)
    requires Filled(s, n) && 1 <= i <= n + 1 && i < |s|
    ensures Down(s, n, 0) <==> Hung(s, n, s[i], i)
  {
  }

  /** `node` hangs in the tree where the occupant of slot `i` should, and knows it. */
  ghost predicate Grafted(s: Slots, n: nat, node: Node, i: nat)
    reads s`prev, s`left, s`right, s`slot, node
  {
    && Placed(s, n)
    && node !in s
    && 1 <= i < |s|
    && node.slot == i
    && node.prev == s[i / 2]
    && Hung(s, n, node, i)
  }

  lemma TakenLinks(s: Slots, n: nat, node: Node, i: nat)
    requires Grafted(s, n, node, i) && i <= n && s[i].prev == node && Up(s, n, i, -1)
    ensures InHand(s[i := node], n, node, s[i], i)
  {
  }

  lemma TakenOrder(s: Slots, n: nat, node: Node, i: nat)
    requires InOrder(s, n) && 1 <= i <= n && Less(node.key, s[i].key)
    requires s[i / 2] != null ==> Le(s[i / 2].key, node.key)
    ensures Fits(s[i := node], n, i, s[i])
  {
  }

  lemma LeafLinks(s: Slots, n: nat, node: Node)
    requires Grafted(s, n, node, n + 1) && Up(s, n, 0, -1) && |s| >= 2 * n + 4
    requires node.left == null && node.right == null
    ensures Placed(s[n + 1 := node], n + 1)
    ensures Down(s[n + 1 := node], n + 1, 0) && Up(s[n + 1 := node], n + 1, 0, -1)
  {
  }

  lemma LeafOrder(s: Slots, n: nat, node: Node)
    requires InOrder(s, n) && |s| >= 2 * n + 4
    requires s[(n + 1) / 2] != null ==> Le(s[(n + 1) / 2].key, node.key)
    ensures InOrder(s[n + 1 := node], n + 1)
  {
  }

  /** The end of the displacement loop. */
  method ClearLast(ghost s: Slots, ghost n: nat, node: Node)
    requires Sunk(s, n, node)
    modifies node`left
    ensures Tree(s, n)
  {
    assert node.right == null;
    node.left := null;
  }

  // ----- sifting down

  /**
   The node in slot `i` is on its way down from slot `top`. The links to its children are right, the
   ones back are not: the children of slot `i` still point to the node that left it for the slot above,
   and slot `top` still points to its former parent.
   */
  ghost predicate SiftUpLinks(s: Slots, n: nat, i: nat, top: nat)
    requires Filled(s, n)
    reads s`prev
  {
    && 1 <= top <= i <= n
    && (forall k {:trigger s[k].prev} :: 1 <= k <= n && k != i && k != top && k / 2 != i ==> s[k].prev == s[k / 2])
    && (i != top ==> 2 * i <= n ==> s[2 * i].prev == s[i / 2])
    && (i != top ==> 2 * i + 1 <= n ==> s[2 * i + 1].prev == s[i / 2])
  }

  /** Only the order below slot `i` is in doubt, and the node above it fits above its children. */
  ghost predicate SiftOrder(s: Slots, n: nat, i: nat)
    reads s`key
  {
    && Filled(s, n)
    && 1 <= i <= n
    && Ordered(s, n, i, 0)
    && (s[i / 2] != null ==> AboveChildren(s, n, i, s[i / 2].key))
  }

  ghost function Swap(s: Slots, i: nat, c: nat): Slots
    requires i < |s| && c < |s|
  {
    s[i := s[c]][c := s[i]]
  }

  lemma SwapNodes(s: Slots, i: nat, c: nat)
    requires i < |s| && c < |s|
    ensures |Swap(s, i, c)| == |s| && multiset(Swap(s, i, c)) == multiset(s)
    ensures Swap(s, i, c)[c] == s[i] && (i != c ==> Swap(s, i, c)[i] == s[c])
    ensures forall k :: 0 <= k < |s| && k != i && k != c ==> Swap(s, i, c)[k] == s[k]
  {
  }

  lemma SameBag(s: Slots, t: Slots)
    requires multiset(s) == multiset(t)
    ensures forall x :: x in s <==> x in t
  {
    forall x ensures x in s <==> x in t {
      assert x in s <==> x in multiset(s);
      assert x in t <==> x in multiset(t);
    }
  }

  lemma HolderIsParent(s: Slots, link: Link, i: nat)
    requires 1 <= i < |s| && LinkTo(s, link, i)
    ensures LeftHolder(link) <= Just(s[i / 2]) && RightHolder(link) <= Just(s[i / 2])
  {
  }

  lemma SameFamily(s: Slots, t: Slots, i: nat)
    requires multiset(s) == multiset(t) && 2 * i + 1 < |s|
    ensures s[i] in t && s[2 * i] in t && s[2 * i + 1] in t && s[i / 2] in t
  {
    SameBag(s, t);
    assert s[i] in s && s[2 * i] in s && s[2 * i + 1] in s && s[i / 2] in s;
  }

  /** All links back are right but those of slots `a` and `b`. */
  ghost predicate UpButTwo(s: Slots, n: nat, a: int, b: int)
    requires Filled(s, n)
    reads s`prev
  {
    forall k {:trigger s[k].prev} :: 1 <= k <= n && k != a && k != b ==> s[k].prev == s[k / 2]
  }

  lemma ToldChildren(s: Slots, n: nat, i: nat, l: Node?, r: Node?)
    requires Placed(s, n) && 1 <= i <= n && l == s[2 * i] && r == s[2 * i + 1]
    requires forall k {:trigger s[k].prev} :: 1 <= k <= n && k != i && k / 2 != i ==> s[k].prev == s[k / 2]
    requires (l != null ==> l.prev == s[i]) && (r != null ==> r.prev == s[i])
    ensures UpButTwo(s, n, i, i)
  {
  }

  /** The child links after two nodes have been relinked, told in terms of their old slots. */
  ghost predicate Relinked(s: Slots, n: nat, i: nat, c: nat)
    requires Filled(s, n)
    reads s`left, s`right
  {
    && 1 <= i <= n && c <= n && c / 2 == i
    && (forall k {:trigger s[k].left} :: 1 <= k <= n && k != i && k != c ==> s[k].left == s[2 * k])
    && (forall k {:trigger s[k].right} :: 1 <= k <= n && k != i && k != c ==> s[k].right == s[2 * k + 1])
    && s[i].left == s[2 * c]
    && s[i].right == s[2 * c + 1]
    && s[c].left == (if c == 2 * i then s[i] else s[2 * i])
    && s[c].right == (if c == 2 * i then s[2 * i + 1] else s[i])
  }

  /** ... and in terms of their new ones: only the link to slot `i` is still the old one. */
  lemma RelinkedHangs(s: Slots, n: nat, i: nat, c: nat)
    requires Placed(s, n) && Relinked(s, n, i, c)
    ensures Filled(Swap(s, i, c), n) && Hung(Swap(s, i, c), n, s[i], i)
  {
  }

  /** The links back after a round: the other child of slot `i` has been told about its new parent. */
  ghost predicate Told(s: Slots, n: nat, i: nat, top: nat, c: nat)
    requires Filled(s, n)
    reads s`prev
  {
    && 1 <= top <= i <= n && c / 2 == i && c <= n
    && (forall k {:trigger s[k].prev} :: 1 <= k <= n && k != i && k != top && k / 2 != i ==> s[k].prev == s[k / 2])
    && (i != top ==> s[c].prev == s[i / 2])
    && (c == 2 * i + 1 ==> s[c - 1].prev == s[c])
    && (c == 2 * i ==> c + 1 <= n ==> s[c + 1].prev == s[c])
  }

  lemma ToldStep(s: Slots, n: nat, i: nat, top: nat, c: nat)
    requires Filled(s, n) && Told(s, n, i, top, c)
    ensures Filled(Swap(s, i, c), n) && SiftUpLinks(Swap(s, i, c), n, c, top)
  {
  }

  lemma SiftDownOrder(s: Slots, n: nat, i: nat, c: nat)
    requires SiftOrder(s, n, i) && c / 2 == i && c <= n
    requires Less(s[c].key, s[i].key)
    requires AboveChildren(s, n, i, s[c].key)
    ensures SiftOrder(Swap(s, i, c), n, c)
  {
    var t := Swap(s, i, c);
    forall p, k | 1 <= p && k / 2 == p && k <= n && p != c ensures Le(t[p].key, t[k].key) {
      if p == i {
        assert k == 2 * i || k == 2 * i + 1;
      }
    }
  }

  lemma SiftStopOrder(s: Slots, n: nat, i: nat)
    requires SiftOrder(s, n, i) && AboveChildren(s, n, i, s[i].key)
    ensures InOrder(s, n)
  {
  }

  // ----- removing the last leaf and putting it in another node's place

  lemma CutLinks(s: Slots, n: nat)
    requires n >= 1 && Placed(s, n) && Hung(s, n, null, n) && Up(s, n, 0, -1)
    ensures Placed(s[n := null], n - 1) && Down(s[n := null], n - 1, 0) && Up(s[n := null], n - 1, 0, -1)
  {
  }

  lemma CutOrder(s: Slots, n: nat)
    requires n >= 1 && InOrder(s, n) && s[0] == null
    ensures InOrder(s[n := null], n - 1)
    ensures s[n / 2] != null ==> Le(s[n / 2].key, s[n].key)
  {
  }

  lemma ReplacedLinks(s: Slots, n: nat, node: Node, i: nat)
    requires Placed(s, n) && 1 <= i <= n && node !in s && node.slot == i
    requires Hung(s, n, node, i) && Up(s, n, 0, -1)
    requires node.left == s[2 * i] && node.right == s[2 * i + 1]
    ensures Placed(s[i := node], n) && Down(s[i := node], n, 0) && SiftUpLinks(s[i := node], n, i, i)
  {
  }

  lemma ReplacedOrder(s: Slots, n: nat, node: Node, i: nat)
    requires InOrder(s, n) && 1 <= i <= n && s[0] == null
    ensures s[i / 2] == null || Le(s[i / 2].key, node.key) ==> SiftOrder(s[i := node], n, i)
    ensures s[i / 2] != null && Less(node.key, s[i / 2].key) ==> RiseOrder(s[i := node], n, i)
  {
    if s[i / 2] != null {
      assert Le(s[i / 2].key, s[i].key);
      assert 2 * i <= n ==> Le(s[i].key, s[2 * i].key);
      assert 2 * i + 1 <= n ==> Le(s[i].key, s[2 * i + 1].key);
    }
  }

  /** What is left when the last leaf moves into slot `i`. */
  lemma WithoutSlot(s: Slots, n: nat, i: nat, t: Slots)
    requires Tree(s, n) && 1 <= i < n && t == s[n := null][i := s[n]]
    ensures forall x: Node :: x in t <==> x in s && x != s[i]
  {
    forall x: Node ensures x in t <==> x in s && x != s[i] {
      if x in s {
        var k :| 0 <= k < |s| && s[k] == x;
        assert x.slot == k && 1 <= k <= n;
        assert k != i && k != n ==> t[k] == x;
        assert t[i] == s[n];
      }
      if x in t {
        var k :| 0 <= k < |t| && t[k] == x;
        assert x == if k == i then s[n] else s[k];
      }
    }
  }

  lemma WithoutNode(s: Slots, n: nat, i: nat, t: Slots)
    requires Tree(s, n) && 1 <= i <= n && |s| > n
    requires t == if i < n then s[n := null][i := s[n]] else s[n := null]
    ensures forall x: Node :: x in t <==> x in s && x != s[i]
    ensures s[n] == s[i] <==> n == i
  {
    assert s[n].slot == n && s[i].slot == i;
    if i < n {
      WithoutSlot(s, n, i, t);
    } else {
      forall x: Node ensures x in t <==> x in s && x != s[n] {
        if x in s {
          var k :| 0 <= k < |s| && s[k] == x;
          assert x.slot == k;
          assert k != n ==> t[k] == x;
        }
        if x in t {
          var k :| 0 <= k < |t| && t[k] == x;
          assert s[k] == x && x.slot == k;
        }
      }
    }
  }

  /** A node of the tree stands in the slot it remembers, and only the root has no parent. */
  lemma TreeMembers(s: Slots, n: nat, x: Node)
    requires Tree(s, n)
    ensures x in s <==> 1 <= x.slot <= n && x.slot < |s| && s[x.slot] == x
    ensures x in s ==> (x.prev == null <==> x == s[1])
    ensures 1 < |s| && (s[1] != null ==> s[1] in s)
  {
    if x in s {
      var k :| 0 <= k < |s| && s[k] == x;
      assert k <= n && x.slot == k;
      assert x.prev == s[k / 2];
    }
  }

  lemma Emptied(s: Slots, n: nat, t: Slots)
    requires Tree(s, n) && n <= 1 && t == s[1 := null]
    ensures Tree(t, 0) && t[1] == null
    ensures s[1] != null <==> n == 1
    ensures s[1] != null ==> s[1].prev == null
    ensures forall x: Node :: x !in t
  {
  }

  // ----- sifting up

  /** Only the order above slot `i` is in doubt, and the parent fits above the children. */
  ghost predicate RiseOrder(s: Slots, n: nat, i: nat)
    reads s`key
  {
    && Filled(s, n)
    && 1 <= i <= n
    && Ordered(s, n, 0, i)
    && s[i / 2] != null
    && AboveChildren(s, n, i, s[i / 2].key)
  }

  /** The children of slot `i` have been adopted by the node in the slot above, which is coming down. */
  ghost predicate Adopted(s: Slots, n: nat, i: nat)
    requires Filled(s, n)
    reads s`prev
  {
    && 2 <= i <= n
    && (forall k {:trigger s[k].prev} :: 1 <= k <= n && k != i && k / 2 != i ==> s[k].prev == s[k / 2])
    && (2 * i <= n ==> s[2 * i].prev == s[i / 2])
    && (2 * i + 1 <= n ==> s[2 * i + 1].prev == s[i / 2])
  }

  lemma AdoptedStep(s: Slots, n: nat, i: nat)
    requires Filled(s, n) && Adopted(s, n, i)
    ensures Filled(Swap(s, i / 2, i), n) && SiftUpLinks(Swap(s, i / 2, i), n, i / 2, i / 2)
    ensures s[i / 2].prev == s[i / 2 / 2]
  {
  }

  /** `a` and `b` are the children of slot `i`, in either order; `b` is the one that knows its grandparent. */
  ghost predicate Family(s: Slots, i: nat, a: Node?, b: Node?)
    reads b
  {
    && 1 <= i && 2 * i + 1 < |s|
    && ((a == s[2 * i] && b == s[2 * i + 1]) || (a == s[2 * i + 1] && b == s[2 * i]))
    && (b != null ==> b.prev == s[i / 2])
  }

  /** After a swap the former parent and its other child are the two children below. */
  lemma SwapFamily(s: Slots, i: nat)
    requires 4 <= i < |s| && 2 * (i / 2) + 1 < |s| && s[i / 2] != null && s[i / 2].prev == s[i / 2 / 2]
    ensures Family(Swap(s, i / 2, i), i / 2, s[if i % 2 == 0 then i + 1 else i - 1], s[i / 2])
  {
  }

  lemma RiseStepOrder(s: Slots, n: nat, i: nat)
    requires RiseOrder(s, n, i) && 4 <= i && Less(s[i].key, s[i / 2].key)
    ensures RiseOrder(Swap(s, i / 2, i), n, i / 2)
  {
    var t := Swap(s, i / 2, i);
    forall p, k | 1 <= p && k / 2 == p && k <= n && k != i / 2 ensures Le(t[p].key, t[k].key) {
      if p == i / 2 {
        assert k == 2 * p || k == 2 * p + 1;
      }
    }
  }

  lemma RiseStopOrder(s: Slots, n: nat, i: nat)
    requires RiseOrder(s, n, i) && Le(s[i / 2].key, s[i].key)
    ensures InOrder(s, n)
  {
  }

  /** The root has a smallest key. */
  lemma {:induction false} RootIsMin(s: Slots, n: nat, i: nat)
    requires InOrder(s, n) && 1 <= i <= n
    ensures Le(s[1].key, s[i].key)
    decreases i
  {
    if i > 1 {
      RootIsMin(s, n, i / 2);
      assert Le(s[i / 2].key, s[i].key);
    }
  }

  lemma TreeRoot(s: Slots, n: nat, i: nat)
    requires Tree(s, n) && 1 <= i <= n
    ensures s[1] != null && s[i] != null && Le(s[1].key, s[i].key)
  {
    RootIsMin(s, n, i);
  }
}
