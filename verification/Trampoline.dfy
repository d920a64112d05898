/**
 The trampoline scheduler: nested schedules run inline up to a depth, and later ones are put on a list that
 the outermost frame of the thread drains.

 What an operation does when it is executed is described by a tree: it starts the operations below it, in order.
 The test of the stack size may come out either way each time.
 */
module Trampoline {
  import opened Sequences

  /** An operation with an arbitrary label, and the operations that its completion starts. */
  datatype Tree = Node(id: nat, children: Forest)
  datatype Forest = Empty | Grove(first: Tree, rest: Forest)

  ghost function Labels(t: Tree): multiset<nat> {
    multiset{t.id} + ForestLabels(t.children)
  }

  ghost function ForestLabels(f: Forest): multiset<nat> {
    if f.Empty? then multiset{} else Labels(f.first) + ForestLabels(f.rest)
  }

  class Operation {
    const tree: Tree
    var prev: Operation?
    var next: Operation?

    constructor (tree: Tree)
      ensures this.tree == tree && prev == null && next == null
    {
      this.tree := tree;
      prev, next := null, null;
    }
  }

  /** The labels of all operations that a list of deferred operations still stands for. */
  ghost function Work(ops: seq<Operation>): multiset<nat> {
    if ops == [] then multiset{} else Labels(ops[0].tree) + Work(ops[1..])
  }

  ghost function Ids(ops: seq<Operation>): seq<nat> {
    if ops == [] then [] else [ops[0].tree.id] + Ids(ops[1..])
  }

  lemma {:induction false} Pushed(ops: seq<Operation>, op: Operation)
    ensures Work(ops + [op]) == Work(ops) + Labels(op.tree)
    ensures Ids(ops + [op]) == Ids(ops) + [op.tree.id]
  {
    hide Labels;
    if ops == [] {
      assert ops + [op] == [op];
      assert [op][1..] == [];
    } else {
      assert (ops + [op])[1..] == ops[1..] + [op];
      Pushed(ops[1..], op);
    }
  }

  ghost predicate Linked(ops: seq<Operation>, k: nat)
    requires k < |ops|
    reads ops[k]
  {
    && ops[k].prev == (if k == 0 then null else ops[k - 1])
    && ops[k].next == (if k + 1 == |ops| then null else ops[k + 1])
  }

  /** Each operation starts at most one other. */
  predicate IsChain(t: Tree) {
    IsLink(t.children)
  }

  predicate IsLink(f: Forest) {
    f.Grove? ==> f.rest.Empty? && IsChain(f.first)
  }

  /** The operations of a chain in the order in which each starts the next. */
  function Preorder(t: Tree): seq<nat> {
    [t.id] + ForestPreorder(t.children)
  }

  function ForestPreorder(f: Forest): seq<nat> {
    if f.Empty? then [] else Preorder(f.first) + ForestPreorder(f.rest)
  }

  /** What has run, followed by the rest of the chain if it has been deferred, makes up `order`. */
  ghost predicate InLine(ran: seq<nat>, deferred: seq<Operation>, order: seq<nat>) {
    if deferred == [] then ran == order
    else |deferred| == 1 && IsChain(deferred[0].tree) && ran + Preorder(deferred[0].tree) == order
  }

  lemma RootFirst(ran: seq<nat>, t: Tree)
    ensures ran + [t.id] + ForestPreorder(t.children) == ran + Preorder(t)
  {
  }

  function Bound(maxDepth: nat): nat {
    if maxDepth > 1 then maxDepth else 1
  }

  /** The state of the outermost frame. The ghost fields record what has happened. */
  class Frame {
    const maxDepth: nat
    var depth: nat
    var head: Operation?
    var tail: Operation?
    ghost var deferred: seq<Operation>
    var ran: seq<nat>
    ghost var postponed: seq<nat>
    ghost var resumed: seq<nat>
    ghost var nesting: nat
    ghost var deepest: nat

    ghost predicate ListOk()
      reads `head, `tail, `deferred, deferred
    {
      && Distinct(deferred)
      && (if deferred == [] then head == null && tail == null
          else head == deferred[0] && tail == deferred[|deferred| - 1])
      && forall k :: 0 <= k < |deferred| ==> Linked(deferred, k)
    }

    ghost predicate Valid()
      reads this, deferred
    {
      && ListOk()
      && postponed == resumed + Ids(deferred)
      && nesting <= depth <= Bound(maxDepth)
      && deepest <= Bound(maxDepth)
    }

    constructor (maxDepth: nat)
      ensures Valid() && this.maxDepth == maxDepth && deferred == [] && ran == [] && nesting == 0 && depth == 1
    {
      this.maxDepth := maxDepth;
      depth, head, tail := 1, null, null;
      deferred, ran, postponed, resumed, nesting, deepest := [], [], [], [], 0, 0;
    }

    /** The recursion limit is exceeded: the operation goes to the end of the list. */
    method Defer(op: Operation)
      requires Valid() && op !in deferred && op.next == null
      modifies `head, `tail, `deferred, `postponed, op, deferred
      ensures Valid() && deferred == old(deferred) + [op]
    {
      hide Work, Labels, Ids;
      ghost var was := deferred;
      Pushed(deferred, op);
      if tail != null {
        assert Linked(was, |was| - 1);
      }
      op.prev := tail;
      tail := op;
      if op.prev != null {
        op.prev.next := op;
      } else {
        head := op;
      }
      deferred, postponed := deferred + [op], postponed + [op.tree.id];
      forall k | 0 <= k < |deferred|
        ensures Linked(deferred, k)
      {
        assert k < |was| ==> old(Linked(was, k));
      }
    }

    /** Everything that is accounted for: what has run, and what the list stands for. */
    ghost function Accounted(): multiset<nat>
      reads `ran, `deferred
    {
      multiset(ran) + Work(deferred)
    }

    /** Executing an operation starts the operations below it; the caller has made room in `depth`. */
    method Execute(tree: Tree)
      requires Valid() && nesting < depth
      modifies this, deferred
      ensures Valid() && Accounted() == old(Accounted()) + Labels(tree)
      ensures nesting == old(nesting) && depth >= old(depth) && resumed == old(resumed)
      ensures |ran| > old(|ran|) && old(deferred) <= deferred
      ensures forall k :: old(|deferred|) <= k < |deferred| ==> fresh(deferred[k])
      ensures IsChain(tree) && old(deferred) == [] ==> InLine(ran, deferred, old(ran) + Preorder(tree))
      decreases tree, 0
    {
      hide Work, ForestLabels, Ids, ListOk, InLine, ForestPreorder, Preorder, IsLink;
      RootFirst(ran, tree);
      Begin(tree);
      StartAll(tree.children);
      End();
    }

    /** The execution is entered in the records. */
    method Begin(tree: Tree)
      requires Valid() && nesting < depth
      modifies `nesting, `deepest, `ran
      ensures Valid() && nesting == old(nesting) + 1 && ran == old(ran) + [tree.id]
      ensures Accounted() == old(Accounted()) + multiset{tree.id}
    {
      hide Work, Ids, Linked;
      nesting := nesting + 1;
      deepest := if nesting > deepest then nesting else deepest;
      assert multiset(ran + [tree.id]) == multiset(ran) + multiset{tree.id};
      ran := ran + [tree.id];
    }

    method End()
      requires Valid() && nesting > 0
      modifies `nesting
      ensures Valid() && nesting == old(nesting) - 1
    {
      hide ListOk, Ids;
      nesting := nesting - 1;
    }

    method StartAll(forest: Forest)
      requires Valid()
      modifies this, deferred
      ensures Valid() && Accounted() == old(Accounted()) + ForestLabels(forest)
      ensures nesting == old(nesting) && depth >= old(depth) && resumed == old(resumed)
      ensures |ran| >= old(|ran|) && old(deferred) <= deferred
      ensures forall k :: old(|deferred|) <= k < |deferred| ==> fresh(deferred[k])
      ensures forest.Empty? ==> ran == old(ran) && deferred == old(deferred)
      ensures IsLink(forest) && old(deferred) == [] ==> InLine(ran, deferred, old(ran) + ForestPreorder(forest))
      decreases forest
    {
      hide Work, Labels, Preorder, IsChain, Ids, ListOk;
      if forest.Grove? && forest.rest.Empty? {
        assert old(ran) + ForestPreorder(forest) == old(ran) + Preorder(forest.first);
      }
      if forest.Grove? {
        Submit(forest.first);
        StartAll(forest.rest);
      }
    }

    /** A new operation is started. */
    method Submit(tree: Tree)
      requires Valid()
      modifies this, deferred
      ensures Valid() && Accounted() == old(Accounted()) + Labels(tree)
      ensures nesting == old(nesting) && depth >= old(depth) && resumed == old(resumed)
      ensures |ran| >= old(|ran|) && old(deferred) <= deferred
      ensures forall k :: old(|deferred|) <= k < |deferred| ==> fresh(deferred[k])
      ensures IsChain(tree) && old(deferred) == [] ==> InLine(ran, deferred, old(ran) + Preorder(tree))
      decreases tree, 2
    {
      hide Work, Labels, Preorder, IsChain, InLine, Ids, Linked;
      var op := new Operation(tree);
      var smallStack: bool := *;
      var inline := Start(op, smallStack);
    }

    /** The test whether a nested operation may be executed at once, which then makes room for it. */
    method TryInline(smallStack: bool) returns (inline: bool)
      requires Valid()
      modifies `depth
      ensures Valid() && inline == (smallStack && old(depth) < maxDepth)
      ensures depth == if inline then old(depth) + 1 else old(depth)
    {
      hide ListOk, Ids;
      inline := smallStack && depth < maxDepth;
      if inline {
        depth := depth + 1;
      }
    }

    /** `start()` on a thread that already has a frame. */
    method Start(op: Operation, smallStack: bool) returns (inline: bool)
      requires Valid() && op !in deferred && op.prev == null && op.next == null
      modifies this, op, deferred
      ensures Valid() && Accounted() == old(Accounted()) + Labels(op.tree)
      ensures nesting == old(nesting) && depth >= old(depth) && resumed == old(resumed)
      ensures |ran| >= old(|ran|) && old(deferred) <= deferred
      ensures forall k :: old(|deferred|) <= k < |deferred| ==> deferred[k] == op || fresh(deferred[k])
      ensures IsChain(op.tree) && old(deferred) == [] ==> InLine(ran, deferred, old(ran) + Preorder(op.tree))
      ensures inline == (smallStack && old(depth) < maxDepth)
      ensures if inline then |ran| > old(|ran|) else ran == old(ran) && deferred == old(deferred) + [op]
      decreases op.tree, 1
    {
      hide Work, Labels, Ids, Preorder, IsChain;
      inline := TryInline(smallStack);
      if inline {
        Execute(op.tree);
      } else {
        Pushed(deferred, op);
        Defer(op);
      }
    }

    /** The first deferred operation leaves the list, and the depth starts afresh. */
    method Resume() returns (op: Operation)
      requires Valid() && nesting == 0 && head != null
      modifies `head, `tail, `depth, `deferred, `resumed, deferred
      ensures Valid() && op == old(deferred[0]) && deferred == old(deferred[1..]) && depth == 1
      ensures op.prev == null && op.next == null && op !in deferred
    {
      hide Labels;
      op := head;
      ghost var was := deferred;
      assert Linked(was, 0);
      head := op.next;
      op.next, op.prev := null, null;
      if head != null {
        assert head == was[1];
        head.prev := null;
      } else {
        tail := null;
      }
      depth := 1;
      deferred, resumed := deferred[1..], resumed + [op.tree.id];
      forall k | 0 <= k < |deferred|
        ensures Linked(deferred, k)
      {
        assert deferred[k] == was[k + 1] && old(Linked(was, k + 1));
      }
    }

    method Drain(ghost order: seq<nat>)
      requires Valid() && nesting == 0
      modifies this, deferred
      ensures Valid() && nesting == 0 && Accounted() == old(Accounted())
      ensures old(InLine(ran, deferred, order)) ==> ran == order
      ensures deferred == [] && resumed == postponed
    {
      hide Labels, Ids, Preorder, IsChain;
      while head != null
        invariant Valid() && nesting == 0 && Accounted() == old(Accounted())
        invariant forall k :: 0 <= k < |deferred| ==> deferred[k] in old(deferred) || fresh(deferred[k])
        invariant old(InLine(ran, deferred, order)) ==> InLine(ran, deferred, order)
        decreases |old(Accounted())| - |ran|
      {
        var op := Resume();
        Execute(op.tree);
      }
      NoIds();
    }
  }

  lemma NoIds()
    ensures Ids([]) == []
  {
  }

  /**
   `start()` on a thread without a frame: every operation of the tree is executed exactly once, those deferred
   in the order of their deferral, and no more executions are nested than the depth allows. If each operation
   starts at most one other, they are executed in that order.
   */
  method StartOrigin(tree: Tree, maxDepth: nat) returns (ran: seq<nat>, ghost frame: Frame)
    ensures multiset(ran) == Labels(tree)
    ensures IsChain(tree) ==> ran == Preorder(tree)
    ensures frame.resumed == frame.postponed
    ensures frame.deepest <= Bound(maxDepth)
  {
    hide Preorder, IsChain, Labels, Ids, Linked;
    var f := new Frame(maxDepth);
    assert f.Accounted() == multiset{};
    assert f.ran + Preorder(tree) == Preorder(tree);
    f.Execute(tree);
    f.Drain(Preorder(tree));
    assert f.Accounted() == multiset(f.ran);
    ran, frame := f.ran, f;
  }
}
