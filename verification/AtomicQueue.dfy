/**
 The lock-free intrusive queue that feeds the thread pool: pushes, prepends and pop-alls that interleave at
 single steps. A compare-exchange compares pointers only, so the head may have changed and changed back since
 it was read, and nodes that were popped may be pushed again. A popper reverses what it has taken link by link
 while others go on.
 */
module AtomicQueue {
  import opened Sequences

  datatype Pointer = Null | To(node: nat)

  datatype Owner = Free | By(t: nat) | Queued

  /**
   `linked`: the last node of the batch points to the head that was read. A walking thread is in `make_reversed`:
   it has moved the first `walked` nodes of what it took, and `built` and `tail` are the ends of the new queue. What
   it took is delivered from position `from` on.
   */
  datatype Pc =
    | Idle
    | Pushing(batch: seq<nat>, read: Pointer, linked: bool)
    | Popping(read: Pointer)
    | Walking(at: Pointer, built: Pointer, tail: Pointer, taken: seq<nat>, walked: nat, from: nat)

  /**
   `list` are the queued nodes from the head on; `arrived` and `delivered` record the nodes in the order of
   their pushes and in the order in which reversed pops are to hand out what they have taken.
   */
  datatype State = State(
    head: Pointer,
    next: map<nat, Pointer>,
    owner: map<nat, Owner>,
    threads: map<nat, Pc>,
    list: seq<nat>,
    arrived: seq<nat>,
    delivered: seq<nat>)

  datatype Label =
    | ReadToPush(t: nat, batch: seq<nat>) | LinkTail(t: nat) | ExchangePush(t: nat, spurious: bool)
    | ReadToPop(t: nat) | ExchangePop(t: nat, spurious: bool) | Walk(t: nat) | Return(t: nat)

  ghost predicate Init(s: State) {
    && s.head.Null? && s.list == [] && s.arrived == [] && s.delivered == []
    && s.next.Keys == s.owner.Keys
    && (forall n | n in s.owner :: s.owner[n].Free?)
    && (forall t | t in s.threads :: s.threads[t].Idle?)
  }

  /** The nodes of a batch, or a single node, are linked before it is handed to the queue. */
  ghost predicate BatchLinked(next: map<nat, Pointer>, batch: seq<nat>) {
    && (forall k :: 0 <= k < |batch| ==> batch[k] in next)
    && (forall k :: 0 <= k < |batch| - 1 ==> next[batch[k]] == To(batch[k + 1]))
  }

  function Reverse(nodes: seq<nat>): seq<nat> {
    if nodes == [] then [] else Reverse(nodes[1..]) + [nodes[0]]
  }

  ghost predicate Enabled(s: State, l: Label) {
    && l.t in s.threads
    && match l
       case ReadToPush(t, batch) =>
         && s.threads[t].Idle? && batch != [] && Distinct(batch) && BatchLinked(s.next, batch)
         && forall k :: 0 <= k < |batch| ==> batch[k] in s.owner && s.owner[batch[k]].Free?
       case LinkTail(t) => s.threads[t].Pushing? && s.threads[t].batch != []
       case ExchangePush(t, _) => s.threads[t].Pushing? && s.threads[t].linked && s.threads[t].batch != []
       case ReadToPop(t) => s.threads[t].Idle?
       case ExchangePop(t, _) => s.threads[t].Popping?
       case Walk(t) => s.threads[t].Walking? && s.threads[t].at.To? && s.threads[t].at.node in s.next
       case Return(t) => s.threads[t].Walking? && s.threads[t].at.Null?
  }

  function Own(owner: map<nat, Owner>, nodes: seq<nat>, o: Owner): map<nat, Owner> {
    map n | n in owner :: if n in nodes then o else owner[n]
  }

  ghost function Next(s: State, l: Label): State
    requires Enabled(s, l)
  {
    match l
    case ReadToPush(t, batch) =>
      s.(threads := s.threads[t := Pushing(batch, s.head, false)], owner := Own(s.owner, batch, By(t)))
    case LinkTail(t) =>
      var pc := s.threads[t];
      s.(next := s.next[pc.batch[|pc.batch| - 1] := pc.read], threads := s.threads[t := pc.(linked := true)])
    case ExchangePush(t, spurious) =>
      var pc := s.threads[t];
      if s.head == pc.read && !spurious then
        s.(head := To(pc.batch[0]), threads := s.threads[t := Idle], owner := Own(s.owner, pc.batch, Queued),
           list := pc.batch + s.list, arrived := s.arrived + Reverse(pc.batch))
      else s.(threads := s.threads[t := Pushing(pc.batch, s.head, false)])
    case ReadToPop(t) => s.(threads := s.threads[t := Popping(s.head)])
    case ExchangePop(t, spurious) =>
      if s.head == s.threads[t].read && !spurious then
        s.(head := Null, owner := Own(s.owner, s.list, By(t)), list := [], delivered := s.delivered + Reverse(s.list),
           threads := s.threads[t := Walking(s.head, Null, s.head, s.list, 0, |s.delivered|)])
      else s.(threads := s.threads[t := Popping(s.head)])
    case Walk(t) =>
      var pc := s.threads[t];
      s.(next := s.next[pc.at.node := pc.built],
         threads := s.threads[t := pc.(at := s.next[pc.at.node], built := pc.at, walked := pc.walked + 1)])
    case Return(t) => s.(threads := s.threads[t := Idle], owner := Own(s.owner, s.threads[t].taken, Free))
  }

  // ----- the invariant

  /** Following the links from `p` visits exactly `nodes`. */
  ghost predicate Chain(next: map<nat, Pointer>, p: Pointer, nodes: seq<nat>)
    decreases |nodes|
  {
    if nodes == [] then p.Null?
    else p == To(nodes[0]) && nodes[0] in next && Chain(next, next[nodes[0]], nodes[1..])
  }

  ghost predicate ListOk(s: State) {
    && Chain(s.next, s.head, s.list) && Distinct(s.list)
    && (forall n | n in s.list :: n in s.owner)
    && (forall n | n in s.owner :: s.owner[n].Queued? <==> n in s.list)
  }

  ghost predicate PushOk(s: State, t: nat)
    requires t in s.threads
  {
    var pc := s.threads[t];
    pc.Pushing? ==>
      && pc.batch != [] && Distinct(pc.batch) && BatchLinked(s.next, pc.batch)
      && (forall n | n in pc.batch :: n in s.owner && s.owner[n] == By(t))
      && (pc.linked ==> s.next[pc.batch[|pc.batch| - 1]] == pc.read)
  }

  /** A walking thread has the rest of what it took in one chain and the beginning, reversed, in another. */
  ghost predicate WalkOk(s: State, t: nat)
    requires t in s.threads
  {
    var pc := s.threads[t];
    pc.Walking? ==>
      && Distinct(pc.taken) && (forall n | n in pc.taken :: n in s.owner && s.owner[n] == By(t))
      && pc.walked <= |pc.taken| && pc.from + |pc.taken| <= |s.delivered|
      && Chain(s.next, pc.at, pc.taken[pc.walked..]) && Chain(s.next, pc.built, Reverse(pc.taken[..pc.walked]))
      && pc.tail == (if pc.taken == [] then Null else To(pc.taken[0]))
      && s.delivered[pc.from..pc.from + |pc.taken|] == Reverse(pc.taken)
  }

  ghost predicate Inv(s: State) {
    && s.next.Keys == s.owner.Keys
    && ListOk(s)
    && (forall t | t in s.threads :: PushOk(s, t))
    && (forall t | t in s.threads :: WalkOk(s, t))
    && s.arrived == s.delivered + Reverse(s.list)
  }

  // ----- chains

  /** A link of a node outside the chain does not matter. */
  lemma {:induction false} ChainFrame(next: map<nat, Pointer>, p: Pointer, nodes: seq<nat>, n: nat, q: Pointer)
    requires Chain(next, p, nodes) && n !in nodes
    ensures Chain(next[n := q], p, nodes)
    decreases |nodes|
  {
    if nodes != [] {
      ChainFrame(next, next[nodes[0]], nodes[1..], n, q);
    }
  }

  /** A linked batch whose last node points to the head of a chain extends the chain. */
  lemma {:induction false} ChainPrepend(next: map<nat, Pointer>, batch: seq<nat>, p: Pointer, nodes: seq<nat>)
    requires batch != [] && BatchLinked(next, batch) && next[batch[|batch| - 1]] == p && Chain(next, p, nodes)
    ensures Chain(next, To(batch[0]), batch + nodes)
  {
    if |batch| == 1 {
      assert (batch + nodes)[1..] == nodes;
    } else {
      assert (batch + nodes)[1..] == batch[1..] + nodes;
      ChainPrepend(next, batch[1..], p, nodes);
      assert next[batch[0]] == To(batch[1]);
    }
  }

  lemma {:induction false} ReverseAppend(a: seq<nat>, b: seq<nat>)
    ensures Reverse(a + b) == Reverse(b) + Reverse(a)
  {
    if a == [] {
      assert a + b == b;
    } else {
      assert (a + b)[1..] == a[1..] + b;
      ReverseAppend(a[1..], b);
    }
  }

  lemma {:induction false} ReverseMembers(nodes: seq<nat>)
    ensures |Reverse(nodes)| == |nodes| && forall n :: n in Reverse(nodes) <==> n in nodes
  {
    if nodes != [] {
      ReverseMembers(nodes[1..]);
      assert nodes == [nodes[0]] + nodes[1..];
    }
  }

  /** What another thread has taken is untouched by a new link of a node that it does not own. */
  lemma OthersWalk(s: State, u: State, t: nat, n: nat)
    requires t in s.threads && t in u.threads && u.threads[t] == s.threads[t] && WalkOk(s, t)
    requires n in s.owner && s.owner[n] != By(t) && n in u.next && u.next == s.next[n := u.next[n]]
    requires u.owner == s.owner && u.delivered == s.delivered
    ensures WalkOk(u, t)
  {
    var pc := s.threads[t];
    if pc.Walking? {
      var done := pc.taken[..pc.walked];
      ReverseMembers(done);
      ChainFrame(s.next, pc.at, pc.taken[pc.walked..], n, u.next[n]);
      ChainFrame(s.next, pc.built, Reverse(done), n, u.next[n]);
    }
  }

  /** Nor is it by a change of owner of such nodes, or by further deliveries. */
  lemma OthersStill(s: State, u: State, t: nat)
    requires t in s.threads && t in u.threads && u.threads[t] == s.threads[t] && WalkOk(s, t)
    requires u.next == s.next && s.delivered <= u.delivered
    requires forall n | n in s.owner && s.owner[n] == By(t) :: n in u.owner && u.owner[n] == By(t)
    ensures WalkOk(u, t)
  {
    hide Chain, Reverse;
    var pc := s.threads[t];
    if pc.Walking? {
      assert u.delivered[pc.from..pc.from + |pc.taken|] == s.delivered[pc.from..pc.from + |pc.taken|];
    }
  }

  lemma InitOk(s: State)
    requires Init(s)
    ensures Inv(s)
  {
  }

  lemma ReadToPushKeeps(s: State, l: Label)
    requires Inv(s) && Enabled(s, l) && l.ReadToPush?
    ensures Inv(Next(s, l))
  {
    var u := Next(s, l);
    hide Chain, Reverse;
    assert forall k :: 0 <= k < |l.batch| ==> l.batch[k] in u.owner && u.owner[l.batch[k]] == By(l.t);
    assert forall n | n in l.batch :: s.owner[n].Free?;
    forall t | t in u.threads
      ensures PushOk(u, t) && WalkOk(u, t)
    {
      if t != l.t {
        assert PushOk(s, t);
        OthersStill(s, u, t);
      }
    }
  }

  lemma LinkTailKeeps(s: State, l: Label)
    requires Inv(s) && Enabled(s, l) && l.LinkTail?
    ensures Inv(Next(s, l))
  {
    var u, pc := Next(s, l), s.threads[l.t];
    var last := pc.batch[|pc.batch| - 1];
    assert PushOk(s, l.t);
    assert last in pc.batch && last !in s.list;
    ChainFrame(s.next, s.head, s.list, last, pc.read);
    hide Chain, Reverse;
    assert BatchLinked(u.next, pc.batch);
    forall t | t in u.threads
      ensures PushOk(u, t) && WalkOk(u, t)
    {
      assert PushOk(s, t);
      if t != l.t {
        OthersWalk(s, u, t, last);
        if s.threads[t].Pushing? {
          OthersLinks(s, u, s.threads[t].batch, last);
        }
      }
    }
  }

  lemma OthersLinks(s: State, u: State, batch: seq<nat>, n: nat)
    requires BatchLinked(s.next, batch) && n !in batch && n in s.next && n in u.next && u.next == s.next[n := u.next[n]]
    ensures BatchLinked(u.next, batch)
    ensures batch != [] ==> u.next[batch[|batch| - 1]] == s.next[batch[|batch| - 1]]
  {
    assert forall k :: 0 <= k < |batch| ==> batch[k] != n;
  }

  /** A failed exchange, or a first read, only changes what the thread has read. */
  lemma RereadKeeps(s: State, l: Label)
    requires Inv(s) && Enabled(s, l)
    requires l.ReadToPop? || ((l.ExchangePush? || l.ExchangePop?) && (l.spurious || s.head != s.threads[l.t].read))
    ensures Inv(Next(s, l))
  {
    var u := Next(s, l);
    hide Chain, Reverse, BatchLinked, Distinct;
    assert PushOk(s, l.t);
    forall t | t in u.threads
      ensures PushOk(u, t) && WalkOk(u, t)
    {
      assert PushOk(s, t);
      if t != l.t {
        OthersStill(s, u, t);
      }
    }
  }

  lemma PushKeeps(s: State, l: Label)
    requires Inv(s) && Enabled(s, l) && l.ExchangePush? && !l.spurious && s.head == s.threads[l.t].read
    ensures Inv(Next(s, l))
  {
    var u, pc := Next(s, l), s.threads[l.t];
    assert PushOk(s, l.t);
    ChainPrepend(s.next, pc.batch, s.head, s.list);
    ReverseAppend(pc.batch, s.list);
    assert s.delivered + Reverse(s.list) + Reverse(pc.batch) == s.delivered + Reverse(pc.batch + s.list);
    hide Chain, Reverse, BatchLinked;
    ListPushed(s, u, pc.batch);
    forall t | t in u.threads
      ensures PushOk(u, t) && WalkOk(u, t)
    {
      assert PushOk(s, t);
      if t != l.t {
        OthersStill(s, u, t);
      }
    }
  }

  lemma ListPushed(s: State, u: State, batch: seq<nat>)
    requires ListOk(s) && Distinct(batch) && u.list == batch + s.list && u.owner == Own(s.owner, batch, Queued)
    requires forall n | n in batch :: n in s.owner && !s.owner[n].Queued?
    requires Chain(u.next, u.head, u.list)
    ensures ListOk(u)
  {
    hide Chain;
    assert forall n :: n in u.list <==> n in batch || n in s.list;
    forall j, k | 0 <= j < k < |u.list|
      ensures u.list[j] != u.list[k]
    {
      assert j < |batch| <= k ==> u.list[j] in batch && u.list[k] in s.list;
    }
  }

  lemma WalkBegins(s: State, u: State, t: nat)
    requires ListOk(s) && t in u.threads
    requires u.next == s.next && u.owner == Own(s.owner, s.list, By(t)) && u.delivered == s.delivered + Reverse(s.list)
    requires u.threads[t] == Walking(s.head, Null, s.head, s.list, 0, |s.delivered|)
    ensures WalkOk(u, t)
  {
    ReverseMembers(s.list);
    assert s.list[0..] == s.list;
    assert u.delivered[|s.delivered|..|s.delivered| + |s.list|] == Reverse(s.list);
  }

  lemma PopKeeps(s: State, l: Label)
    requires Inv(s) && Enabled(s, l) && l.ExchangePop? && !l.spurious && s.head == s.threads[l.t].read
    ensures Inv(Next(s, l))
  {
    var u := Next(s, l);
    assert u.delivered + Reverse(u.list) == u.delivered;
    WalkBegins(s, u, l.t);
    hide BatchLinked, Reverse;
    forall t | t in u.threads
      ensures PushOk(u, t) && WalkOk(u, t)
    {
      assert PushOk(s, t);
      if t != l.t {
        OthersStill(s, u, t);
      }
    }
  }

  /** The next node moves from the front of one chain to the front of the other. */
  lemma WalkerKeeps(s: State, t: nat)
    requires Inv(s) && Enabled(s, Walk(t))
    ensures WalkOk(Next(s, Walk(t)), t)
  {
    var u, pc := Next(s, Walk(t)), s.threads[t];
    assert WalkOk(s, t);
    var n, done, rest := pc.at.node, pc.taken[..pc.walked], pc.taken[pc.walked..];
    assert rest[0] == n == pc.taken[pc.walked] && rest[1..] == pc.taken[pc.walked + 1..];
    assert pc.taken[..pc.walked + 1] == done + [n];
    ReverseAppend(done, [n]);
    ReverseMembers(done);
    ChainFrame(s.next, s.next[n], rest[1..], n, pc.built);
    ChainFrame(s.next, pc.built, Reverse(done), n, pc.built);
    ReverseOne(n);
    hide Reverse;
    assert ([n] + Reverse(done))[1..] == Reverse(done);
  }

  lemma ReverseOne(n: nat)
    ensures Reverse([n]) == [n]
  {
  }

  lemma WalkKeeps(s: State, l: Label)
    requires Inv(s) && Enabled(s, l) && l.Walk?
    ensures Inv(Next(s, l))
  {
    var u, n := Next(s, l), s.threads[l.t].at.node;
    assert WalkOk(s, l.t);
    WalkerOwns(s, l.t);
    assert s.owner[n] == By(l.t);
    WalkerKeeps(s, l.t);
    ChainFrame(s.next, s.head, s.list, n, s.threads[l.t].built);
    hide Chain, Reverse, BatchLinked, Distinct;
    forall t | t in u.threads
      ensures PushOk(u, t) && WalkOk(u, t)
    {
      assert PushOk(s, t);
      if t != l.t {
        OthersWalk(s, u, t, n);
        if s.threads[t].Pushing? {
          OthersLinks(s, u, s.threads[t].batch, n);
        }
      }
    }
  }

  lemma WalkerOwns(s: State, t: nat)
    requires t in s.threads && WalkOk(s, t) && s.threads[t].Walking? && s.threads[t].at.To?
    ensures s.threads[t].at.node in s.threads[t].taken && s.threads[t].walked < |s.threads[t].taken|
  {
    var pc := s.threads[t];
    assert pc.taken[pc.walked..] != [];
  }

  lemma ReturnKeeps(s: State, l: Label)
    requires Inv(s) && Enabled(s, l) && l.Return?
    ensures Inv(Next(s, l))
  {
    var u := Next(s, l);
    assert WalkOk(s, l.t);
    hide Chain, Reverse, BatchLinked, Distinct;
    forall t | t in u.threads
      ensures PushOk(u, t) && WalkOk(u, t)
    {
      assert PushOk(s, t);
      if t != l.t {
        OthersStill(s, u, t);
      }
    }
  }

  lemma StepKeeps(s: State, l: Label)
    requires Inv(s) && Enabled(s, l)
    ensures Inv(Next(s, l))
  {
    hide Inv, Next;
    match l
    case ReadToPush(_, _) => ReadToPushKeeps(s, l);
    case LinkTail(_) => LinkTailKeeps(s, l);
    case ReadToPop(_) => RereadKeeps(s, l);
    case ExchangePush(t, spurious) =>
      if spurious || s.head != s.threads[t].read { RereadKeeps(s, l); } else { PushKeeps(s, l); }
    case ExchangePop(t, spurious) =>
      if spurious || s.head != s.threads[t].read { RereadKeeps(s, l); } else { PopKeeps(s, l); }
    case Walk(_) => WalkKeeps(s, l);
    case Return(_) => ReturnKeeps(s, l);
  }

  // ----- whole runs

  ghost predicate IsRun(states: seq<State>, labels: seq<Label>) {
    && |states| == |labels| + 1
    && Init(states[0])
    && forall k :: 0 <= k < |labels| ==> Enabled(states[k], labels[k]) && states[k + 1] == Next(states[k], labels[k])
  }

  lemma {:induction false} RunsAreSafe(states: seq<State>, labels: seq<Label>, k: nat)
    requires IsRun(states, labels) && k < |states|
    ensures Inv(states[k])
  {
    hide Inv, Next, Enabled, Init;
    if k == 0 {
      InitOk(states[0]);
    } else {
      RunsAreSafe(states, labels, k - 1);
      StepKeeps(states[k - 1], labels[k - 1]);
    }
  }

  /** A push takes effect when its exchange finds the head that it has read. */
  predicate TakesEffect(s: State, l: Label) {
    && l.ExchangePush? && !l.spurious
    && l.t in s.threads && s.threads[l.t].Pushing? && s.head == s.threads[l.t].read
  }

  /** The nodes that have been pushed in the first `k` steps, each batch from its last node to its first. */
  function Pushed(states: seq<State>, labels: seq<Label>, k: nat): seq<nat>
    requires k <= |labels| < |states|
  {
    if k == 0 then []
    else
      Pushed(states, labels, k - 1)
      + if TakesEffect(states[k - 1], labels[k - 1]) then Reverse(states[k - 1].threads[labels[k - 1].t].batch) else []
  }

  lemma ArrivesInStep(s: State, l: Label)
    requires Enabled(s, l)
    ensures Next(s, l).arrived == s.arrived + if TakesEffect(s, l) then Reverse(s.threads[l.t].batch) else []
  {
    hide Reverse;
  }

  lemma {:induction false} ArrivedIsPushed(states: seq<State>, labels: seq<Label>, k: nat)
    requires IsRun(states, labels) && k < |states|
    ensures states[k].arrived == Pushed(states, labels, k)
  {
    if k > 0 {
      hide Next, Enabled, Init, TakesEffect;
      ArrivesInStep(states[k - 1], labels[k - 1]);
      ArrivedIsPushed(states, labels, k - 1);
    }
  }

  /** Every push is taken once: the pops, each reversed, take the nodes in the order of the pushes. */
  lemma DeliveredInOrder(states: seq<State>, labels: seq<Label>, k: nat)
    requires IsRun(states, labels) && k < |states|
    ensures states[k].delivered <= states[k].arrived == Pushed(states, labels, k)
    ensures states[k].head.Null? ==> states[k].delivered == Pushed(states, labels, k)
  {
    RunsAreSafe(states, labels, k);
    ArrivedIsPushed(states, labels, k);
  }

  /** A thread that has just read the head, also in an exchange that failed, gets through if nobody interferes. */
  lemma AlonePushes(s: State, l: Label)
    requires Enabled(s, l) && (l.ReadToPush? || (l.ExchangePush? && !TakesEffect(s, l)))
    ensures var s1 := Next(s, l);
      && Enabled(s1, LinkTail(l.t))
      && var s2 := Next(s1, LinkTail(l.t));
      Enabled(s2, ExchangePush(l.t, false)) && TakesEffect(s2, ExchangePush(l.t, false))
  {
    hide Reverse;
  }

  /** A thread that does nothing else may begin, a push with free nodes that are linked. */
  lemma MayBegin(s: State, t: nat, batch: seq<nat>)
    requires t in s.threads && s.threads[t].Idle?
    ensures Enabled(s, ReadToPop(t))
    ensures (&& batch != [] && Distinct(batch) && BatchLinked(s.next, batch)
             && forall k :: 0 <= k < |batch| ==> batch[k] in s.owner && s.owner[batch[k]].Free?)
            ==> Enabled(s, ReadToPush(t, batch))
  {
  }

  lemma AlonePops(s: State, l: Label)
    requires Enabled(s, l)
    requires l.ReadToPop? || (l.ExchangePop? && (l.spurious || s.head != s.threads[l.t].read))
    ensures var s1 := Next(s, l);
      && Enabled(s1, ExchangePop(l.t, false)) && s1.head == s1.threads[l.t].read
      && Next(s1, ExchangePop(l.t, false)).head.Null?
  {
    hide Reverse;
  }

  /** A push that takes effect puts its batch in front of what is reached from the head. */
  lemma PushAdds(states: seq<State>, labels: seq<Label>, k: nat, found: seq<nat>)
    requires IsRun(states, labels) && k < |labels| && TakesEffect(states[k], labels[k])
    requires Chain(states[k].next, states[k].head, found)
    ensures var batch := states[k].threads[labels[k].t].batch;
      && Chain(states[k + 1].next, states[k + 1].head, batch + found)
      && states[k + 1].arrived == states[k].arrived + Reverse(batch)
  {
    RunsAreSafe(states, labels, k);
    RunsAreSafe(states, labels, k + 1);
    ChainUnique(states[k].next, states[k].head, found, states[k].list);
    hide Chain, Reverse;
  }

  /** A pointer determines the nodes that are reached from it, so what a pop finds is the whole list. */
  lemma {:induction false} ChainUnique(next: map<nat, Pointer>, p: Pointer, a: seq<nat>, b: seq<nat>)
    requires Chain(next, p, a) && Chain(next, p, b)
    ensures a == b
    decreases |a|
  {
    if a != [] && b != [] {
      ChainUnique(next, next[a[0]], a[1..], b[1..]);
      assert a == [a[0]] + a[1..] && b == [b[0]] + b[1..];
    }
  }

  /**
   A successful pop-all takes what is reached from the pointer that it read, even if the head has changed away
   and back since: reversed, all nodes that have arrived and had not been taken, in the order of their pushes.
   */
  lemma PopTakesAll(states: seq<State>, labels: seq<Label>, k: nat, found: seq<nat>)
    requires IsRun(states, labels) && k < |labels| && labels[k].ExchangePop? && !labels[k].spurious
    requires states[k].head == states[k].threads[labels[k].t].read
    requires Chain(states[k].next, states[k].threads[labels[k].t].read, found)
    ensures found == states[k].list
    ensures states[k + 1].threads[labels[k].t].taken == found
    ensures states[k + 1].delivered == states[k].delivered + Reverse(found) == states[k].arrived
  {
    RunsAreSafe(states, labels, k);
    ChainUnique(states[k].next, states[k].head, found, states[k].list);
    hide Chain, Reverse;
  }

  /** The walk meets nothing but what was taken, and every step of it can be taken. */
  lemma WalkGoesOn(states: seq<State>, labels: seq<Label>, k: nat, t: nat)
    requires IsRun(states, labels) && k < |states| && t in states[k].threads && states[k].threads[t].Walking?
    ensures var pc := states[k].threads[t];
      if pc.walked < |pc.taken| then
        && pc.at == To(pc.taken[pc.walked]) && Enabled(states[k], Walk(t))
        && var after := Next(states[k], Walk(t)).threads[t];
        after.Walking? && after.walked == pc.walked + 1 && after.taken == pc.taken
      else Enabled(states[k], Return(t))
  {
    RunsAreSafe(states, labels, k);
    assert WalkOk(states[k], t);
    hide Reverse;
  }

  /** What a pop hands out is linked in the order of arrival, from its first node to its last. */
  lemma ReturnedInOrder(states: seq<State>, labels: seq<Label>, k: nat)
    requires IsRun(states, labels) && k < |labels| && labels[k].Return?
    ensures var s, pc := states[k], states[k].threads[labels[k].t];
      && pc.from + |pc.taken| <= |s.arrived|
      && var handed := s.arrived[pc.from..pc.from + |pc.taken|];
      && handed == Reverse(pc.taken)
      && Chain(s.next, pc.built, handed)
      && pc.tail == if handed == [] then Null else To(handed[|handed| - 1])
    ensures states[k + 1].threads[labels[k].t].Idle?
    ensures forall n | n in states[k].threads[labels[k].t].taken ::
              n in states[k + 1].owner && states[k + 1].owner[n].Free?
  {
    RunsAreSafe(states, labels, k);
    var s, t := states[k], labels[k].t;
    assert WalkOk(s, t);
    var pc := s.threads[t];
    assert pc.taken[pc.walked..] == [];
    assert pc.taken[..pc.walked] == pc.taken;
    hide Chain;
    ReverseMembers(pc.taken);
    assert s.arrived[..|s.delivered|] == s.delivered;
    assert s.arrived[pc.from..pc.from + |pc.taken|] == s.delivered[pc.from..pc.from + |pc.taken|];
  }

  /** A node is in at most one place: queued once, or held by one thread, or free. */
  lemma NodesHaveOnePlace(states: seq<State>, labels: seq<Label>, k: nat, t: nat, n: nat)
    requires IsRun(states, labels) && k < |states| && t in states[k].threads
    requires n in Held(states[k].threads[t])
    ensures n !in states[k].list && Distinct(states[k].list)
    ensures forall u | u in states[k].threads && u != t :: n !in Held(states[k].threads[u])
  {
    RunsAreSafe(states, labels, k);
    assert PushOk(states[k], t) && WalkOk(states[k], t);
    assert forall u | u in states[k].threads :: PushOk(states[k], u) && WalkOk(states[k], u);
    hide Chain, BatchLinked, Reverse;
  }

  /** The nodes that a thread pushes or has popped. */
  function Held(pc: Pc): seq<nat> {
    if pc.Pushing? then pc.batch else if pc.Walking? then pc.taken else []
  }
}
