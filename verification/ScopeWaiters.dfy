/**
 The emptiness waiters of the async scope.

 Nested operations count themselves in without a lock, and out under the scope's lock; operations that wait
 for the scope to be empty check the count under the lock. Every access of the count, of the lock and of the
 waiter list is one step.
 */
module ScopeWaiters {
  import opened Sequences

  datatype Owner = Nobody | Waiter(w: nat) | Nested(n: nat)

  /** A when-empty operation. `Taken(n)` is in the local list of the nested operation `n`. */
  datatype WaitPc = Unstarted | Loading | Pushing | Waiting | Taken(n: nat) | Clearing | Starting | Started

  /** A nested operation: from `Counted` to `Subtracting` it is part of the count. */
  datatype NestPc = Fresh | Counted | Subtracting | Moving | Notifying(list: seq<nat>) | Finished

  datatype State = State(
    active: nat,
    lock: Owner,
    waiters: seq<nat>,
    waits: map<nat, WaitPc>,
    starts: map<nat, nat>,
    nested: map<nat, NestPc>)

  datatype Label =
    | LockToWait(w: nat) | Load(w: nat) | Push(w: nat) | UnlockClear(w: nat) | StartInner(w: nat)
    | CountIn(n: nat) | LockToLeave(n: nat) | Subtract(n: nat) | TakeWaiters(n: nat) | NotifyOne(n: nat)
    | EndNotify(n: nat)

  ghost predicate Init(s: State) {
    && s.active == 0 && s.lock.Nobody? && s.waiters == []
    && s.starts.Keys == s.waits.Keys
    && (forall w | w in s.waits :: s.waits[w].Unstarted?)
    && (forall w | w in s.starts :: s.starts[w] == 0)
    && (forall n | n in s.nested :: s.nested[n].Fresh?)
  }

  predicate OfWaiter(l: Label) {
    l.LockToWait? || l.Load? || l.Push? || l.UnlockClear? || l.StartInner?
  }

  predicate Enabled(s: State, l: Label) {
    if OfWaiter(l) then
      && l.w in s.waits && l.w in s.starts
      && match l
         case LockToWait(w) => s.waits[w].Unstarted? && s.lock.Nobody?
         case Load(w) => s.waits[w].Loading?
         case Push(w) => s.waits[w].Pushing?
         case UnlockClear(w) => s.waits[w].Clearing?
         case StartInner(w) => s.waits[w].Starting?
         case _ => false
    else
      && l.n in s.nested
      && match l
         case CountIn(n) => s.nested[n].Fresh?
         case LockToLeave(n) => s.nested[n].Counted? && s.lock.Nobody?
         case Subtract(n) => s.nested[n].Subtracting? && s.active > 0
         case TakeWaiters(n) => s.nested[n].Moving?
         case NotifyOne(n) =>
           s.nested[n].Notifying? && s.nested[n].list != []
           && s.nested[n].list[0] in s.waits && s.nested[n].list[0] in s.starts
         case EndNotify(n) => s.nested[n].Notifying? && s.nested[n].list == []
         case _ => false
  }

  function Wait(s: State, w: nat, pc: WaitPc): State {
    s.(waits := s.waits[w := pc])
  }

  function Nest(s: State, n: nat, pc: NestPc): State {
    s.(nested := s.nested[n := pc])
  }

  function StartOf(s: State, w: nat): State
    requires w in s.starts
  {
    Wait(s, w, Started).(starts := s.starts[w := s.starts[w] + 1])
  }

  function TakeAll(waits: map<nat, WaitPc>, list: seq<nat>, n: nat): map<nat, WaitPc> {
    map w | w in waits :: if w in list then Taken(n) else waits[w]
  }

  function Next(s: State, l: Label): State
    requires Enabled(s, l)
  {
    match l
    case LockToWait(w) => Wait(s, w, Loading).(lock := Waiter(w))
    case Load(w) => Wait(s, w, if s.active != 0 then Pushing else Clearing)
    case Push(w) => Wait(s, w, Waiting).(waiters := s.waiters + [w], lock := Nobody)
    case UnlockClear(w) => Wait(s, w, Starting).(lock := Nobody)
    case StartInner(w) => StartOf(s, w)
    case CountIn(n) => Nest(s, n, Counted).(active := s.active + 1)
    case LockToLeave(n) => Nest(s, n, Subtracting).(lock := Nested(n))
    case Subtract(n) =>
      if s.active == 1 then Nest(s, n, Moving).(active := 0)
      else Nest(s, n, Finished).(active := s.active - 1, lock := Nobody)
    case TakeWaiters(n) =>
      Nest(s, n, Notifying(s.waiters)).(waits := TakeAll(s.waits, s.waiters, n), waiters := [], lock := Nobody)
    case NotifyOne(n) => StartOf(Nest(s, n, Notifying(s.nested[n].list[1..])), s.nested[n].list[0])
    case EndNotify(n) => Nest(s, n, Finished)
  }

  // ----- the invariant

  predicate HoldsWaiting(pc: WaitPc) {
    pc.Loading? || pc.Pushing? || pc.Clearing?
  }

  predicate HoldsNested(pc: NestPc) {
    pc.Subtracting? || pc.Moving?
  }

  predicate InCount(pc: NestPc) {
    pc.Counted? || pc.Subtracting?
  }

  ghost function CountedIn(s: State): set<nat> {
    set n | n in s.nested && InCount(s.nested[n])
  }

  ghost predicate LockOk(s: State) {
    && (s.lock.Waiter? ==> s.lock.w in s.waits)
    && (s.lock.Nested? ==> s.lock.n in s.nested)
    && (forall w | w in s.waits :: HoldsWaiting(s.waits[w]) <==> s.lock == Waiter(w))
    && (forall n | n in s.nested :: HoldsNested(s.nested[n]) <==> s.lock == Nested(n))
  }

  /** The count can reach zero only with the lock held until the waiters have been taken. */
  ghost predicate CountOk(s: State) {
    && s.active == |CountedIn(s)|
    && (forall w | w in s.waits && s.waits[w].Pushing? :: s.active > 0)
    && (s.waiters != [] && s.active == 0 ==> s.lock.Nested? && s.lock.n in s.nested && s.nested[s.lock.n].Moving?)
  }

  ghost predicate ListsOk(s: State) {
    && Distinct(s.waiters)
    && (forall w | w in s.waiters :: w in s.waits && s.waits[w].Waiting?)
    && (forall w | w in s.waits && s.waits[w].Waiting? :: w in s.waiters)
    && (forall n | n in s.nested && s.nested[n].Notifying? ::
          && Distinct(s.nested[n].list)
          && forall w | w in s.nested[n].list :: w in s.waits && s.waits[w] == Taken(n))
    && (forall w | w in s.waits && s.waits[w].Taken? ::
          && s.waits[w].n in s.nested && s.nested[s.waits[w].n].Notifying?
          && w in s.nested[s.waits[w].n].list)
  }

  ghost predicate StartsOk(s: State) {
    && s.starts.Keys == s.waits.Keys
    && forall w | w in s.waits :: s.starts[w] == if s.waits[w].Started? then 1 else 0
  }

  ghost predicate Inv(s: State) {
    LockOk(s) && CountOk(s) && ListsOk(s) && StartsOk(s)
  }

  lemma InitOk(s: State)
    requires Init(s)
    ensures Inv(s)
  {
    assert CountedIn(s) == {};
  }

  lemma WaiterLockKeeps(s: State, l: Label)
    requires LockOk(s) && Enabled(s, l) && OfWaiter(l)
    ensures LockOk(Next(s, l))
  {
    hide HoldsNested;
  }

  lemma WaiterCountKeeps(s: State, l: Label)
    requires CountOk(s) && LockOk(s) && Enabled(s, l) && OfWaiter(l)
    ensures CountOk(Next(s, l))
  {
    assert CountedIn(Next(s, l)) == CountedIn(s);
    hide CountedIn;
  }

  lemma WaiterListsKeep(s: State, l: Label)
    requires ListsOk(s) && Enabled(s, l) && OfWaiter(l)
    ensures ListsOk(Next(s, l))
  {
    if l.Push? {
      assert l.w !in s.waiters;
      assert forall w :: w in s.waiters + [l.w] <==> w in s.waiters || w == l.w;
    }
  }

  lemma StartsKeep(s: State, l: Label)
    requires StartsOk(s) && ListsOk(s) && Enabled(s, l)
    ensures StartsOk(Next(s, l))
  {
    hide Distinct;
    if l.NotifyOne? {
      assert s.nested[l.n].list[0] in s.nested[l.n].list;
    }
  }

  lemma NestedLockKeeps(s: State, l: Label)
    requires LockOk(s) && ListsOk(s) && Enabled(s, l) && !OfWaiter(l)
    ensures LockOk(Next(s, l))
  {
    if l.NotifyOne? {
      assert s.nested[l.n].list[0] in s.nested[l.n].list;
    }
    hide Distinct;
  }

  /** Counting in adds one to the set of the counted, and subtracting takes one out. */
  lemma CountedChanges(s: State, l: Label)
    requires Enabled(s, l) && !OfWaiter(l)
    ensures CountedIn(Next(s, l)) ==
            if l.CountIn? then CountedIn(s) + {l.n} else if l.Subtract? then CountedIn(s) - {l.n} else CountedIn(s)
  {
  }

  lemma NestedCountKeeps(s: State, l: Label)
    requires CountOk(s) && LockOk(s) && ListsOk(s) && Enabled(s, l) && !OfWaiter(l)
    ensures CountOk(Next(s, l))
  {
    CountedChanges(s, l);
    assert l.CountIn? ==> l.n !in CountedIn(s);
    assert l.Subtract? ==> l.n in CountedIn(s);
    hide CountedIn, InCount;
    if l.NotifyOne? {
      assert s.nested[l.n].list[0] in s.nested[l.n].list;
    }
    hide Distinct;
  }

  lemma TakeListsKeep(s: State, l: Label)
    requires ListsOk(s) && Enabled(s, l) && l.TakeWaiters?
    ensures ListsOk(Next(s, l))
  {
  }

  lemma NotifyListsKeep(s: State, l: Label)
    requires ListsOk(s) && Enabled(s, l) && l.NotifyOne?
    ensures ListsOk(Next(s, l))
  {
    var list := s.nested[l.n].list;
    assert list[0] in list && list == [list[0]] + list[1..];
    assert forall k :: 0 <= k < |list[1..]| ==> list[1..][k] == list[k + 1];
    assert list[0] !in list[1..];
  }

  lemma NestedListsKeep(s: State, l: Label)
    requires ListsOk(s) && Enabled(s, l) && !OfWaiter(l)
    ensures ListsOk(Next(s, l))
  {
    if l.TakeWaiters? {
      TakeListsKeep(s, l);
    } else if l.NotifyOne? {
      NotifyListsKeep(s, l);
    }
  }

  lemma StepKeeps(s: State, l: Label)
    requires Inv(s) && Enabled(s, l)
    ensures Inv(Next(s, l))
  {
    hide LockOk, CountOk, ListsOk, StartsOk, Next, Enabled;
    StartsKeep(s, l);
    if OfWaiter(l) {
      WaiterLockKeeps(s, l);
      WaiterCountKeeps(s, l);
      WaiterListsKeep(s, l);
    } else {
      NestedLockKeeps(s, l);
      NestedCountKeeps(s, l);
      NestedListsKeep(s, l);
    }
  }

  // ----- whole runs

  ghost predicate IsRun(states: seq<State>, labels: seq<Label>) {
    && |states| == |labels| + 1
    && Init(states[0])
    && forall k :: 0 <= k < |labels| ==> Enabled(states[k], labels[k]) && states[k + 1] == Next(states[k], labels[k])
  }

  lemma {:induction false} RunsAreSafe(states: seq<State>, labels: seq<Label>, k: nat)
    requires IsRun(states, labels) && k < |states|
    ensures Inv(states[k])
  {
    hide Inv, Next, Enabled, Init;
    if k == 0 {
      InitOk(states[0]);
    } else {
      RunsAreSafe(states, labels, k - 1);
      StepKeeps(states[k - 1], labels[k - 1]);
    }
  }

  /** Whenever the lock is free, somebody waits only if somebody is counted. */
  lemma WaitersImplyActive(states: seq<State>, labels: seq<Label>, k: nat)
    requires IsRun(states, labels) && k < |states| && states[k].lock.Nobody? && states[k].waiters != []
    ensures states[k].active > 0
  {
    RunsAreSafe(states, labels, k);
  }

  lemma InnerStartedAtMostOnce(states: seq<State>, labels: seq<Label>, k: nat, w: nat)
    requires IsRun(states, labels) && k < |states| && w in states[k].waits
    ensures w in states[k].starts && states[k].starts[w] <= 1
  {
    RunsAreSafe(states, labels, k);
  }

  /** Nobody is left behind: once the count is zero and the last nested operation is done, all have been started. */
  lemma NoneLeftBehind(states: seq<State>, labels: seq<Label>, k: nat, w: nat)
    requires IsRun(states, labels) && k < |states| && w in states[k].waits
    requires states[k].lock.Nobody? && states[k].active == 0
    requires forall n | n in states[k].nested :: !states[k].nested[n].Notifying?
    ensures states[k].waits[w].Unstarted? || states[k].waits[w].Starting? || states[k].waits[w].Started?
  {
    RunsAreSafe(states, labels, k);
    assert LockOk(states[k]) && CountOk(states[k]) && ListsOk(states[k]);
    hide CountedIn, Distinct;
  }

  /** Whoever subtracts the last one finds, in the step after, every operation that waited then. */
  lemma {:induction false} MovingSince(states: seq<State>, labels: seq<Label>, k: nat, n: nat) returns (j: nat)
    requires IsRun(states, labels) && k < |states| && n in states[k].nested && states[k].nested[n].Moving?
    ensures j < k && labels[j] == Subtract(n) && states[j].active == 1 && states[j].waiters == states[k].waiters
  {
    hide Inv;
    if k > 0 {
      RunsAreSafe(states, labels, k - 1);
      MovingStays(states[k - 1], labels[k - 1], n);
      hide Next, Enabled;
      if labels[k - 1] == Subtract(n) {
        j := k - 1;
      } else {
        j := MovingSince(states, labels, k - 1, n);
      }
    }
  }

  lemma MovingStays(s: State, l: Label, n: nat)
    requires Inv(s) && Enabled(s, l) && n in Next(s, l).nested && Next(s, l).nested[n].Moving?
    ensures Next(s, l).waiters == s.waiters
    ensures if l == Subtract(n) then s.active == 1 else n in s.nested && s.nested[n].Moving?
  {
    hide CountOk, StartsOk, Distinct;
  }

  /** Whether the operation has seen that the scope was empty. */
  predicate Cleared(pc: WaitPc) {
    pc.Clearing? || pc.Starting? || pc.Taken? || pc.Started?
  }

  /** An inner operation starts only after its own look at a count of zero, or after one fell to zero as it waited. */
  lemma {:induction false} StartedWhenEmpty(states: seq<State>, labels: seq<Label>, k: nat, w: nat) returns (j: nat)
    requires IsRun(states, labels) && k < |states| && w in states[k].waits && Cleared(states[k].waits[w])
    ensures j < k
    ensures (labels[j] == Load(w) && states[j].active == 0)
         || (labels[j].Subtract? && states[j].active == 1 && w in states[j].waiters)
  {
    if k > 0 {
      var s, l := states[k - 1], labels[k - 1];
      RunsAreSafe(states, labels, k - 1);
      HowItClears(s, l, w);
      hide Next, Enabled, Inv;
      if Cleared(s.waits[w]) {
        j := StartedWhenEmpty(states, labels, k - 1, w);
      } else if l == Load(w) {
        j := k - 1;
      } else {
        j := MovingSince(states, labels, k - 1, l.n);
      }
    }
  }

  lemma HowItClears(s: State, l: Label, w: nat)
    requires Inv(s) && Enabled(s, l) && w in Next(s, l).waits && Cleared(Next(s, l).waits[w])
    ensures w in s.waits
    ensures Cleared(s.waits[w]) || (l == Load(w) && s.active == 0)
         || (l.TakeWaiters? && w in s.waiters && l.n in s.nested && s.nested[l.n].Moving?)
  {
    if l.NotifyOne? {
      assert s.nested[l.n].list[0] in s.nested[l.n].list;
    }
    hide CountOk, StartsOk, LockOk, Distinct;
  }

  /** The steps that go on with what has begun: not those of operations that come or that complete. */
  predicate GoesOn(l: Label) {
    !l.LockToWait? && !l.CountIn?
  }

  /** Whoever holds the lock can go on. */
  lemma HolderGoesOn(s: State) returns (l: Label)
    requires Inv(s) && !s.lock.Nobody?
    ensures Enabled(s, l) && GoesOn(l)
  {
    hide ListsOk;
    if s.lock.Waiter? {
      var w := s.lock.w;
      l := if s.waits[w].Loading? then Load(w) else if s.waits[w].Pushing? then Push(w) else UnlockClear(w);
    } else {
      var n := s.lock.n;
      assert s.nested[n].Subtracting? ==> n in CountedIn(s);
      l := if s.nested[n].Moving? then TakeWaiters(n) else Subtract(n);
    }
  }

  /** A waiter that has begun and whose inner operation has not started: some step can be taken. */
  lemma NeverStuck(s: State, w: nat) returns (l: Label)
    requires Inv(s) && w in s.waits && !s.waits[w].Unstarted? && !s.waits[w].Started?
    ensures Enabled(s, l) && GoesOn(l)
  {
    if !s.lock.Nobody? {
      l := HolderGoesOn(s);
    } else {
      match s.waits[w]
      case Starting => l := StartInner(w);
      case Taken(n) => l := NotifyOne(n);
      case Waiting =>
        assert s.active > 0;
        var n :| n in CountedIn(s);
        l := LockToLeave(n);
    }
  }

  /** In the end, when all nested operations have completed, each inner operation has been started exactly once. */
  lemma StartedInTheEnd(states: seq<State>, labels: seq<Label>, w: nat)
    requires IsRun(states, labels) && (forall l :: Enabled(states[|labels|], l) ==> !GoesOn(l))
    requires w in states[|labels|].waits && !states[|labels|].waits[w].Unstarted?
    ensures w in states[|labels|].starts && states[|labels|].starts[w] == 1
  {
    RunsAreSafe(states, labels, |labels|);
    hide IsRun, Enabled;
    if !states[|labels|].waits[w].Started? {
      var l := NeverStuck(states[|labels|], w);
    }
  }
}
