/**
 `when_any`: the first child to complete decides the result and stops the others, and the last one to complete
 forwards it.

 Every atomic access and every call is one step. Children notify at any time once they have been started, also
 while another one is inside `request_stop`, and also from inside the callback that the outer token runs: it
 requests stop of the source in the operation, which runs the stop callbacks of the children on the same thread.
 */
module WhenAny {

  /** `start()` of the whole; `Starting` has still to start the children from `next` on. */
  datatype StartPc = Unstarted | Checking | Refused | Starting(next: nat)

  /** A child inside `notify`. The last one goes on from `Last` to `Completing`. */
  datatype ChildPc = Fresh | Running | Storing | Stopping | Subtracting | Last | Completing | Done

  datatype Option = None | Some(child: nat)

  datatype Signal = Stopped | Result(child: nat)

  /**
   The callback registered with the outer token. `Due`: stop has been requested, and the callback is yet to run.
   `Inside`: it runs the children's stop callbacks, and locks the source in the operation after each of them.
   `InsideRemoved`: it still does, but has been deregistered by one of them.
   */
  datatype OnStop = Absent | Armed | Due | Inside | InsideRemoved | Ran | Removed

  /** `guest` is the child that is in `notify` inside the callback. */
  datatype State = State(
    start: StartPc,
    children: seq<ChildPc>,
    count: int,
    emplaced: bool,
    result: Option,
    first: Option,
    innerStop: bool,
    outerStop: bool,
    onStop: OnStop,
    guest: Option,
    completions: nat,
    signal: Signal)

  datatype Label =
    | Register | Check | StartChild
    | Notify(i: nat, inside: bool) | Store(i: nat) | RequestStop(i: nat) | Subtract(i: nat) | ResetOnStop(i: nat)
    | Complete(i: nat)
    | OuterStop | EnterOnStop | LeaveOnStop

  ghost predicate Init(s: State) {
    && |s.children| > 0
    && s.start.Unstarted? && (forall i | 0 <= i < |s.children| :: s.children[i].Fresh?)
    && s.count == |s.children| && !s.emplaced && s.result.None? && s.first.None?
    && !s.innerStop && s.onStop.Absent? && s.guest.None? && s.completions == 0
  }

  predicate Child(s: State, i: nat, pc: ChildPc) {
    i < |s.children| && s.children[i] == pc
  }

  /**
   The last child deregisters the callback, which waits for a callback that runs on another thread, and does not
   wait from inside. The callback returns only after a child inside it has returned.
   */
  predicate Enabled(s: State, l: Label) {
    match l
    case Register => s.start.Unstarted?
    case Check => s.start.Checking?
    case StartChild => s.start.Starting? && s.start.next < |s.children|
    case Notify(i, inside) => Child(s, i, Running) && (inside ==> s.onStop.Inside? && s.guest.None?)
    case Store(i) => Child(s, i, Storing)
    case RequestStop(i) => Child(s, i, Stopping)
    case Subtract(i) => Child(s, i, Subtracting)
    case ResetOnStop(i) => Child(s, i, Last) && (s.onStop.Inside? ==> s.guest == Some(i))
    case Complete(i) => Child(s, i, Completing)
    case OuterStop => !s.outerStop
    case EnterOnStop => s.onStop.Due?
    case LeaveOnStop => (s.onStop.Inside? || s.onStop.InsideRemoved?) && s.guest.None?
  }

  function With(s: State, i: nat, pc: ChildPc): State
    requires i < |s.children|
  {
    s.(children := s.children[i := pc])
  }

  /** The child returns from `notify`, and so from the callback if it was inside. */
  function Return(s: State, i: nat): State
    requires i < |s.children|
  {
    With(s, i, Done).(guest := if s.guest == Some(i) then None else s.guest)
  }

  function Next(s: State, l: Label): State
    requires Enabled(s, l)
  {
    match l
    case Register => s.(start := Checking, onStop := if s.outerStop then Ran else Armed, innerStop := s.outerStop)
    case Check =>
      if s.innerStop then s.(start := Refused, completions := s.completions + 1, signal := Stopped)
      else s.(start := Starting(0))
    case StartChild => With(s, s.start.next, Running).(start := Starting(s.start.next + 1))
    case Notify(i, inside) =>
      var s1 := s.(first := if s.first.None? then Some(i) else s.first, guest := if inside then Some(i) else s.guest);
      if s.emplaced then With(s1, i, Subtracting) else With(s1, i, Storing).(emplaced := true)
    case Store(i) => With(s, i, Stopping).(result := Some(i))
    case RequestStop(i) => With(s, i, Subtracting).(innerStop := true)
    case Subtract(i) => (if s.count == 1 then With(s, i, Last) else Return(s, i)).(count := s.count - 1)
    case ResetOnStop(i) => With(s, i, Completing).(onStop := if s.guest == Some(i) then InsideRemoved else Removed)
    case Complete(i) =>
      Return(s, i).(completions := s.completions + 1,
                    signal := if s.outerStop || s.result.None? then Stopped else Result(s.result.child))
    case OuterStop => s.(outerStop := true, onStop := if s.onStop.Armed? then Due else s.onStop)
    case EnterOnStop => s.(innerStop := true, onStop := if s.innerStop then Ran else Inside)
    case LeaveOnStop => s.(onStop := if s.onStop.Inside? then Ran else Removed)
  }

  /**
   Whether the step reads or writes the operation. `LeaveOnStop` stands for the last time that the callback locks
   the source, and a request of the outer token pops the callback if it is registered.
   */
  predicate Touches(s: State, l: Label) {
    !l.OuterStop? || s.onStop.Armed?
  }

  // ----- the invariant

  predicate Through(pc: ChildPc) {
    pc.Last? || pc.Completing? || pc.Done?
  }

  function ThroughCount(children: seq<ChildPc>): nat {
    if children == [] then 0
    else ThroughCount(children[..|children| - 1]) + if Through(children[|children| - 1]) then 1 else 0
  }

  ghost predicate AllDone(s: State) {
    forall i | 0 <= i < |s.children| :: s.children[i].Done?
  }

  ghost predicate CountOk(s: State) {
    s.count == |s.children| - ThroughCount(s.children)
  }

  /** Which child has won, and how far it is with storing its result. */
  ghost predicate ResultOk(s: State) {
    && (s.emplaced <==> s.first.Some?)
    && (s.first.Some? ==> s.first.child < |s.children|)
    && (s.result.Some? ==> s.result == s.first)
    && (s.first.Some? ==> (s.result.None? <==> s.children[s.first.child].Storing?))
    && (s.first.Some? ==> !s.children[s.first.child].Fresh? && !s.children[s.first.child].Running?)
    && (s.first.Some? ==> s.innerStop || s.children[s.first.child].Storing? || s.children[s.first.child].Stopping?)
    && (forall i | 0 <= i < |s.children| :: s.children[i].Storing? || s.children[i].Stopping? ==> s.first == Some(i))
    && (forall i | 0 <= i < |s.children| && !s.children[i].Fresh? && !s.children[i].Running? :: s.emplaced)
  }

  ghost predicate StartOk(s: State) {
    && |s.children| > 0
    && (s.start.Unstarted? <==> s.onStop.Absent?)
    && (s.start.Unstarted? ==> !s.innerStop)
    && (s.start.Refused? ==> s.outerStop)
    && (s.start.Checking? && s.innerStop ==> s.outerStop)
    && (s.onStop.Armed? ==> !s.outerStop)
    && (s.onStop.Inside? || s.onStop.InsideRemoved? || s.onStop.Ran? ==> s.innerStop)
    && (s.onStop.Due? || s.onStop.Inside? || s.onStop.InsideRemoved? || s.onStop.Ran? ==> s.outerStop)
    && (s.onStop.Removed? || s.onStop.InsideRemoved? ==> s.start.Starting?)
    && (s.start.Starting? ==> s.start.next <= |s.children|)
    && (forall i | 0 <= i < |s.children| ::
          s.children[i].Fresh? <==> !(s.start.Starting? && i < s.start.next))
  }

  ghost predicate CompletionOk(s: State) {
    && (forall i, j | 0 <= i < |s.children| && 0 <= j < |s.children| && i != j ::
          !(s.children[i].Last? || s.children[i].Completing?) || s.children[j].Done?)
    && s.completions <= 1
    && (s.start.Unstarted? || s.start.Checking? ==> s.completions == 0)
    && (s.start.Refused? ==> s.completions == 1 && s.signal.Stopped?)
    && (s.start.Starting? ==> (s.completions == 1 <==> AllDone(s)))
    && (s.start.Starting? && s.completions == 1 ==>
          s.first.Some? && (if s.signal.Stopped? then s.outerStop else s.signal == Result(s.first.child)))
  }

  predicate InNotify(pc: ChildPc) {
    pc.Storing? || pc.Stopping? || pc.Subtracting? || pc.Last?
  }

  /** Where the guest is, and that the callback has been deregistered before the completion. */
  ghost predicate OnStopOk(s: State) {
    && (s.guest.Some? ==>
          && s.guest.child < |s.children|
          && var pc := s.children[s.guest.child];
          (s.onStop.Inside? && InNotify(pc)) || (s.onStop.InsideRemoved? && pc.Completing?))
    && (forall i | 0 <= i < |s.children| && s.children[i].Completing? ::
          if s.guest == Some(i) then s.onStop.InsideRemoved? else s.onStop.Removed?)
    && (s.start.Starting? && s.completions == 1 ==> s.onStop.Removed? || s.onStop.InsideRemoved?)
    && (s.onStop.InsideRemoved? && s.guest.None? ==> s.completions == 1)
  }

  ghost predicate Inv(s: State) {
    CountOk(s) && ResultOk(s) && StartOk(s) && CompletionOk(s) && OnStopOk(s)
  }

  predicate OfChild(l: Label) {
    l.StartChild? || l.Notify? || l.Store? || l.RequestStop? || l.Subtract? || l.ResetOnStop? || l.Complete?
  }

  lemma {:induction false} CountBounds(children: seq<ChildPc>)
    ensures ThroughCount(children) <= |children|
    ensures ThroughCount(children) == |children| <==> forall i | 0 <= i < |children| :: Through(children[i])
  {
    if children != [] {
      var rest := children[..|children| - 1];
      CountBounds(rest);
      assert forall i | 0 <= i < |rest| :: rest[i] == children[i];
    }
  }

  lemma {:induction false} CountUpdates(children: seq<ChildPc>, i: nat, pc: ChildPc)
    requires i < |children|
    ensures ThroughCount(children[i := pc])
         == ThroughCount(children) - (if Through(children[i]) then 1 else 0) + (if Through(pc) then 1 else 0)
  {
    var n := |children| - 1;
    if i == n {
      assert children[i := pc][..n] == children[..n];
    } else {
      assert children[i := pc][..n] == children[..n][i := pc];
      CountUpdates(children[..n], i, pc);
    }
  }

  lemma {:induction false} NoneThrough(children: seq<ChildPc>)
    requires forall i | 0 <= i < |children| :: !Through(children[i])
    ensures ThroughCount(children) == 0
  {
    if children != [] {
      NoneThrough(children[..|children| - 1]);
    }
  }

  lemma InitOk(s: State)
    requires Init(s)
    ensures Inv(s)
  {
    NoneThrough(s.children);
  }

  lemma StartKeeps(s: State, l: Label)
    requires Inv(s) && Enabled(s, l) && !OfChild(l)
    ensures var u := Next(s, l); CountOk(u) && ResultOk(u) && StartOk(u) && CompletionOk(u)
  {
    hide ThroughCount;
    assert l.Check? ==> s.children[0].Fresh?;
    assert AllDone(Next(s, l)) <==> AllDone(s);
  }

  /** Which child the step is about. */
  function Mover(s: State, l: Label): nat
    requires Enabled(s, l) && OfChild(l)
  {
    if l.StartChild? then s.start.next else l.i
  }

  /** The child goes on; it is through from its subtraction on. */
  lemma ChildMoves(s: State, l: Label)
    requires Enabled(s, l) && OfChild(l) && (l.StartChild? ==> s.children[s.start.next].Fresh?)
    ensures var u, i := Next(s, l), Mover(s, l);
      && i < |s.children| == |u.children| && u.children == s.children[i := u.children[i]]
      && ChildRank(u.children[i]) < ChildRank(s.children[i])
      && u.outerStop == s.outerStop
  {
    match l
    case StartChild =>
    case Notify(_, _) =>
    case Store(_) =>
    case RequestStop(_) =>
    case Subtract(_) =>
    case ResetOnStop(_) =>
    case Complete(_) =>
  }

  lemma ChildCounts(s: State, l: Label)
    requires Enabled(s, l) && OfChild(l) && (l.StartChild? ==> s.children[s.start.next].Fresh?)
    ensures var u, i := Next(s, l), Mover(s, l);
      && i < |s.children| == |u.children|
      && u.count == s.count - (if Through(u.children[i]) then 1 else 0) + (if Through(s.children[i]) then 1 else 0)
  {
    match l
    case StartChild =>
    case Notify(_, _) =>
    case Store(_) =>
    case RequestStop(_) =>
    case Subtract(_) =>
    case ResetOnStop(_) =>
    case Complete(_) =>
  }

  lemma ChildCountKeeps(s: State, l: Label)
    requires Inv(s) && Enabled(s, l) && OfChild(l)
    ensures CountOk(Next(s, l))
  {
    NextIsFresh(s);
    ChildMoves(s, l);
    ChildCounts(s, l);
    var u, i := Next(s, l), Mover(s, l);
    hide ThroughCount, ResultOk, CompletionOk, StartOk, OnStopOk, Next, Enabled, Through, ChildRank, OnStopRank;
    CountUpdates(s.children, i, u.children[i]);
  }

  lemma WinnerResultKeeps(s: State, l: Label)
    requires ResultOk(s) && Enabled(s, l) && (l.Notify? || l.Store? || l.RequestStop?)
    ensures ResultOk(Next(s, l))
  {
  }

  lemma LaterResultKeeps(s: State, l: Label)
    requires ResultOk(s) && Enabled(s, l) && (l.Subtract? || l.ResetOnStop? || l.Complete?)
    ensures ResultOk(Next(s, l))
  {
    LaterChildMoves(s, l);
    hide Next, Enabled;
  }

  /** After the request to stop a step changes nothing but the child, as far as the result is concerned. */
  lemma LaterChildMoves(s: State, l: Label)
    requires Enabled(s, l) && (l.Subtract? || l.ResetOnStop? || l.Complete?)
    ensures var u := Next(s, l);
      && l.i < |s.children| == |u.children| && u.children == s.children[l.i := u.children[l.i]]
      && Late(s.children[l.i]) && Late(u.children[l.i])
      && u.emplaced == s.emplaced && u.first == s.first && u.result == s.result && u.innerStop == s.innerStop
  {
    match l
    case Subtract(_) =>
    case ResetOnStop(_) =>
    case Complete(_) =>
  }

  predicate Late(pc: ChildPc) {
    pc.Subtracting? || pc.Last? || pc.Completing? || pc.Done?
  }

  lemma ChildResultKeeps(s: State, l: Label)
    requires Inv(s) && Enabled(s, l) && OfChild(l)
    ensures ResultOk(Next(s, l))
  {
    hide CountOk, CompletionOk, OnStopOk;
    if l.StartChild? {
      assert s.children[s.start.next].Fresh?;
    } else if l.Notify? || l.Store? || l.RequestStop? {
      hide *;
      WinnerResultKeeps(s, l);
    } else {
      hide *;
      LaterResultKeeps(s, l);
    }
  }

  /** The last child has the callback to itself, unless it runs on another thread. */
  lemma LastOnStop(s: State, i: nat)
    requires Inv(s) && Enabled(s, ResetOnStop(i))
    ensures s.guest.None? || (s.guest == Some(i) && s.onStop.Inside?)
    ensures s.completions == 0 && s.start.Starting?
    ensures forall j | 0 <= j < |s.children| && j != i :: s.children[j].Done?
  {
    assert !s.children[i].Done?;
    hide CountOk, ResultOk;
  }

  lemma ChildStartKeeps(s: State, l: Label)
    requires Inv(s) && Enabled(s, l) && OfChild(l)
    ensures StartOk(Next(s, l))
  {
    if l.StartChild? {
      hide CountOk, CompletionOk, ResultOk, OnStopOk;
    } else {
      LaterStartKeeps(s, l);
    }
  }

  /** Nothing changes but a child that has been started, and the callback. */
  lemma LaterStartKeeps(s: State, l: Label)
    requires Inv(s) && Enabled(s, l) && OfChild(l) && !l.StartChild?
    ensures StartOk(Next(s, l))
  {
    ChildMoves(s, l);
    StartedBefore(s, l);
    OnlyReset(s, l);
    var u, i := Next(s, l), Mover(s, l);
    assert !s.children[i].Fresh? && !u.children[i].Fresh?;
    hide CountOk, CompletionOk, ResultOk, OnStopOk, Next, Enabled, Through, OnStopRank;
  }

  lemma OnlyReset(s: State, l: Label)
    requires Inv(s) && Enabled(s, l) && OfChild(l) && !l.StartChild?
    ensures var u := Next(s, l);
      && u.start == s.start
      && (u.onStop == s.onStop || u.onStop.Removed? || (u.onStop.InsideRemoved? && s.onStop.Inside?))
  {
    if l.ResetOnStop? {
      LastOnStop(s, l.i);
    }
    hide Inv;
    match l
    case Notify(_, _) =>
    case Store(_) =>
    case RequestStop(_) =>
    case Subtract(_) =>
    case ResetOnStop(_) =>
    case Complete(_) =>
  }

  /** Before the last child: no completion, and somebody is not done. */
  lemma EarlyKeeps(s: State, l: Label)
    requires Inv(s) && Enabled(s, l)
    requires l.StartChild? || l.Notify? || l.Store? || l.RequestStop? || l.ResetOnStop?
    ensures CompletionOk(Next(s, l))
  {
    hide CountOk, ResultOk, OnStopOk;
    var u := Next(s, l);
    var i := if l.StartChild? then s.start.next else l.i;
    assert !s.children[i].Done? && !u.children[i].Done?;
    assert s.start.Starting?;
    assert !AllDone(s) && !AllDone(u);
    hide StartOk, AllDone;
  }

  lemma SubtractKeeps(s: State, i: nat)
    requires Inv(s) && Enabled(s, Subtract(i))
    ensures CompletionOk(Next(s, Subtract(i)))
  {
    hide ThroughCount, ResultOk, OnStopOk;
    var u := Next(s, Subtract(i));
    CountBounds(s.children);
    CountUpdates(s.children, i, u.children[i]);
    CountBounds(u.children);
    assert !s.children[i].Done?;
    assert !AllDone(s) && s.start.Starting?;
    if s.count == 1 {
      assert forall j | 0 <= j < |u.children| :: Through(u.children[j]);
      assert forall j | 0 <= j < |s.children| && j != i :: s.children[j] == u.children[j];
      assert !AllDone(u);
    } else {
      var j :| 0 <= j < |u.children| && !Through(u.children[j]);
      assert !u.children[j].Done?;
    }
  }

  lemma CompleteKeeps(s: State, i: nat)
    requires Inv(s) && Enabled(s, Complete(i))
    ensures CompletionOk(Next(s, Complete(i)))
  {
    var u := Next(s, Complete(i));
    assert !s.children[i].Done?;
    assert !AllDone(s) && s.start.Starting?;
    assert forall j | 0 <= j < |s.children| && j != i :: s.children[j].Done?;
    assert AllDone(u);
    assert s.emplaced && s.first.Some?;
    hide CountOk;
  }

  lemma NotifyOnStopKeeps(s: State, l: Label)
    requires OnStopOk(s) && StartOk(s) && Enabled(s, l) && (l.StartChild? || l.Notify?)
    ensures OnStopOk(Next(s, l))
  {
    NextIsFresh(s);
    hide StartOk;
  }

  lemma StoreOnStopKeeps(s: State, l: Label)
    requires OnStopOk(s) && Enabled(s, l) && (l.Store? || l.RequestStop?)
    ensures OnStopOk(Next(s, l))
  {
  }

  lemma SubtractOnStopKeeps(s: State, l: Label)
    requires OnStopOk(s) && Enabled(s, l) && l.Subtract?
    ensures OnStopOk(Next(s, l))
  {
  }

  lemma LastOnStopKeeps(s: State, l: Label)
    requires Inv(s) && Enabled(s, l) && (l.ResetOnStop? || l.Complete?)
    ensures OnStopOk(Next(s, l))
  {
    if l.ResetOnStop? {
      LastOnStop(s, l.i);
    }
    hide CountOk, ResultOk, StartOk;
  }

  lemma OtherOnStopKeeps(s: State, l: Label)
    requires Inv(s) && Enabled(s, l) && !OfChild(l)
    ensures OnStopOk(Next(s, l))
  {
    hide CountOk, ResultOk;
  }

  lemma OnStopKeeps(s: State, l: Label)
    requires Inv(s) && Enabled(s, l)
    ensures OnStopOk(Next(s, l))
  {
    hide CountOk, ResultOk, StartOk, CompletionOk, OnStopOk, Next, Enabled;
    if l.StartChild? || l.Notify? {
      NotifyOnStopKeeps(s, l);
    } else if l.Store? || l.RequestStop? {
      StoreOnStopKeeps(s, l);
    } else if l.Subtract? {
      SubtractOnStopKeeps(s, l);
    } else if l.ResetOnStop? || l.Complete? {
      LastOnStopKeeps(s, l);
    } else {
      OtherOnStopKeeps(s, l);
    }
  }

  lemma StepKeeps(s: State, l: Label)
    requires Inv(s) && Enabled(s, l)
    ensures Inv(Next(s, l))
  {
    hide CountOk, ResultOk, StartOk, CompletionOk, OnStopOk, Next, Enabled;
    OnStopKeeps(s, l);
    if !OfChild(l) {
      StartKeeps(s, l);
    } else {
      ChildCountKeeps(s, l);
      ChildResultKeeps(s, l);
      ChildStartKeeps(s, l);
      match l
      case Subtract(i) => SubtractKeeps(s, i);
      case Complete(i) => CompleteKeeps(s, i);
      case _ => EarlyKeeps(s, l);
    }
  }

  // ----- whole runs

  ghost predicate IsRun(states: seq<State>, labels: seq<Label>) {
    && |states| == |labels| + 1
    && Init(states[0])
    && forall k :: 0 <= k < |labels| ==> Enabled(states[k], labels[k]) && states[k + 1] == Next(states[k], labels[k])
  }

  lemma {:induction false} RunsAreSafe(states: seq<State>, labels: seq<Label>, k: nat)
    requires IsRun(states, labels) && k < |states|
    ensures Inv(states[k])
  {
    hide Inv, Next, Enabled, Init;
    if k == 0 {
      InitOk(states[0]);
    } else {
      RunsAreSafe(states, labels, k - 1);
      StepKeeps(states[k - 1], labels[k - 1]);
    }
  }

  /**
   The receiver is completed at most once: after every child has notified, or by a refusal to start. A refusal
   means that stop was requested, the receiver is stopped, and no child has been started or will be.
   */
  lemma CompletedOnceAfterAll(states: seq<State>, labels: seq<Label>, k: nat)
    requires IsRun(states, labels) && k < |states|
    ensures states[k].completions <= 1
    ensures states[k].completions == 1 ==>
              states[k].start.Refused? || (states[k].start.Starting? && AllDone(states[k]))
    ensures states[k].start.Refused? ==>
              && states[k].completions == 1 && states[k].signal.Stopped? && states[k].outerStop
              && forall i | 0 <= i < |states[k].children| :: states[k].children[i].Fresh?
  {
    RunsAreSafe(states, labels, k);
  }

  lemma FirstStaysInStep(s: State, l: Label)
    requires Enabled(s, l)
    ensures Next(s, l).first == if s.first.None? && l.Notify? then Some(l.i) else s.first
  {
    match l
    case Register =>
    case Check =>
    case StartChild =>
    case Notify(_, _) =>
    case Store(_) =>
    case RequestStop(_) =>
    case Subtract(_) =>
    case ResetOnStop(_) =>
    case Complete(_) =>
    case OuterStop =>
    case EnterOnStop =>
    case LeaveOnStop =>
  }

  lemma {:induction false} FirstStays(states: seq<State>, labels: seq<Label>, i: nat, k: nat)
    requires IsRun(states, labels) && i < k < |states| && labels[i].Notify?
    ensures states[k].first.Some?
  {
    hide Next, Enabled, Init;
    FirstStaysInStep(states[k - 1], labels[k - 1]);
    if i + 1 < k {
      FirstStays(states, labels, i, k - 1);
    }
  }

  lemma {:induction false} FirstNotifier(states: seq<State>, labels: seq<Label>, k: nat) returns (j: nat)
    requires IsRun(states, labels) && k < |states| && states[k].first.Some?
    ensures j < k && labels[j].Notify? && labels[j].i == states[k].first.child && states[j].first.None?
  {
    hide Next, Enabled;
    if k > 0 {
      hide Init;
      FirstStaysInStep(states[k - 1], labels[k - 1]);
      if states[k - 1].first.None? {
        j := k - 1;
      } else {
        j := FirstNotifier(states, labels, k - 1);
      }
    }
  }

  /**
   What the last child forwards is the result of the child whose notification came first, unless the outer token
   was stopped.
   */
  lemma FirstResultWins(states: seq<State>, labels: seq<Label>, k: nat) returns (j: nat)
    requires IsRun(states, labels) && k < |labels| && labels[k].Complete?
    ensures j < k && labels[j].Notify? && forall i | 0 <= i < j :: !labels[i].Notify?
    ensures states[k].result == Some(labels[j].i)
    ensures states[k + 1].signal == if states[k].outerStop then Stopped else Result(labels[j].i)
    ensures states[k + 1].completions == 1 && (states[k].onStop.Removed? || states[k].onStop.InsideRemoved?)
  {
    RunsAreSafe(states, labels, k);
    Forwards(states[k], labels[k]);
    hide Inv, Next, Enabled, Init;
    j := FirstNotifier(states, labels, k);
    hide IsRun;
    forall i | 0 <= i < j
      ensures !labels[i].Notify?
    {
      if labels[i].Notify? {
        FirstStays(states, labels, i, j);
      }
    }
  }

  lemma Forwards(s: State, l: Label)
    requires Inv(s) && Enabled(s, l) && l.Complete?
    ensures s.first.Some? && s.result == s.first && (s.onStop.Removed? || s.onStop.InsideRemoved?)
    ensures Next(s, l).signal == (if s.outerStop then Stopped else Result(s.first.child)) && Next(s, l).completions == 1
  {
    assert forall j | 0 <= j < |s.children| && j != l.i :: s.children[j].Done?;
    hide CountOk;
  }

  // ----- who is told to stop

  /** The winner stops the others before it lets go, and so before any completion that follows a start. */
  lemma OthersAreStopped(states: seq<State>, labels: seq<Label>, k: nat)
    requires IsRun(states, labels) && k < |states| && states[k].first.Some?
    ensures var s := states[k];
      && s.first.child < |s.children|
      && (s.innerStop || s.children[s.first.child].Storing? || s.children[s.first.child].Stopping?)
    ensures states[k].start.Starting? && states[k].completions == 1 ==> states[k].innerStop
  {
    RunsAreSafe(states, labels, k);
    hide CountOk, OnStopOk;
  }

  /** A request of the outer token reaches the children, unless all of them have notified. */
  lemma OuterStopIsForwarded(states: seq<State>, labels: seq<Label>, k: nat)
    requires IsRun(states, labels) && k < |states| && states[k].outerStop && !states[k].start.Unstarted?
    ensures states[k].innerStop || Enabled(states[k], EnterOnStop) || AllNotified(states[k])
    ensures Enabled(states[k], EnterOnStop) ==> Next(states[k], EnterOnStop).innerStop
  {
    RunsAreSafe(states, labels, k);
    RemovedByLast(states, labels, k);
    hide CountOk, ResultOk, CompletionOk;
  }

  ghost predicate AllNotified(s: State) {
    forall i | 0 <= i < |s.children| :: Through(s.children[i])
  }

  lemma RemovedByLastInStep(s: State, l: Label)
    requires Inv(s) && Enabled(s, l) && (s.onStop.Removed? ==> AllNotified(s))
    ensures Next(s, l).onStop.Removed? ==> AllNotified(Next(s, l))
  {
    if l.ResetOnStop? {
      LastOnStop(s, l.i);
    } else if l.LeaveOnStop? && s.onStop.InsideRemoved? {
      assert s.completions == 1 && AllDone(s);
    }
    NextIsFresh(s);
    hide Inv;
    match l
    case Register =>
    case Check =>
    case StartChild =>
    case Notify(_, _) =>
    case Store(_) =>
    case RequestStop(_) =>
    case Subtract(_) =>
    case ResetOnStop(_) =>
    case Complete(_) =>
    case OuterStop =>
    case EnterOnStop =>
    case LeaveOnStop =>
  }

  lemma {:induction false} RemovedByLast(states: seq<State>, labels: seq<Label>, k: nat)
    requires IsRun(states, labels) && k < |states|
    ensures states[k].onStop.Removed? ==> AllNotified(states[k])
  {
    hide Next, Enabled, Inv, AllNotified;
    if k > 0 {
      hide Init;
      RunsAreSafe(states, labels, k - 1);
      RemovedByLast(states, labels, k - 1);
      RemovedByLastInStep(states[k - 1], labels[k - 1]);
    }
  }

  /** The winner, the outer callback, or the start after an outer request asks the children to stop. */
  predicate AsksToStop(s: State, l: Label) {
    l.RequestStop? || l.EnterOnStop? || (l.Register? && s.outerStop)
  }

  lemma AskedInStep(s: State, l: Label)
    requires Inv(s) && Enabled(s, l)
    ensures Next(s, l).innerStop <==> s.innerStop || AsksToStop(s, l)
  {
    hide CountOk, ResultOk, CompletionOk, OnStopOk;
    match l
    case Register =>
    case Check =>
    case StartChild =>
    case Notify(_, _) =>
    case Store(_) =>
    case RequestStop(_) =>
    case Subtract(_) =>
    case ResetOnStop(_) =>
    case Complete(_) =>
    case OuterStop =>
    case EnterOnStop =>
    case LeaveOnStop =>
  }

  /** The children are told to stop exactly when one of these has happened. */
  lemma {:induction false} StoppedExactly(states: seq<State>, labels: seq<Label>, k: nat)
    requires IsRun(states, labels) && k < |states|
    ensures states[k].innerStop <==> exists j :: 0 <= j < k && AsksToStop(states[j], labels[j])
  {
    if k > 0 {
      hide Next, Enabled, Inv, Init, AsksToStop;
      RunsAreSafe(states, labels, k - 1);
      AskedInStep(states[k - 1], labels[k - 1]);
      StoppedExactly(states, labels, k - 1);
    }
  }

  /** The outer callback runs the stop callbacks of the children if and only if nobody has asked them before. */
  lemma RunsCallbacksExactly(states: seq<State>, labels: seq<Label>, k: nat)
    requires IsRun(states, labels) && k < |labels| && labels[k].EnterOnStop?
    ensures states[k + 1].onStop.Inside? <==> forall j :: 0 <= j < k ==> !AsksToStop(states[j], labels[j])
  {
    StoppedExactly(states, labels, k);
    hide Init, AsksToStop;
  }

  lemma StartInStep(s: State, l: Label)
    requires Enabled(s, l)
    ensures s.start.Starting? ==> Next(s, l).start.Starting?
    ensures s.start.Refused? ==> Next(s, l).start.Refused?
    ensures s.start.Checking? && s.innerStop ==> Next(s, l).start == if l.Check? then Refused else Checking
    ensures s.innerStop && !s.start.Unstarted? ==> Next(s, l).innerStop
  {
    match l
    case Register =>
    case Check =>
    case StartChild =>
    case Notify(_, _) =>
    case Store(_) =>
    case RequestStop(_) =>
    case Subtract(_) =>
    case ResetOnStop(_) =>
    case Complete(_) =>
    case OuterStop =>
    case EnterOnStop =>
    case LeaveOnStop =>
  }

  lemma {:induction false} StaysStarting(states: seq<State>, labels: seq<Label>, j: nat, k: nat)
    requires IsRun(states, labels) && j <= k < |states| && states[j].start.Starting?
    ensures states[k].start.Starting?
  {
    hide Next, Enabled, Init;
    if j < k {
      StaysStarting(states, labels, j, k - 1);
      StartInStep(states[k - 1], labels[k - 1]);
    }
  }

  lemma {:induction false} StaysRefused(states: seq<State>, labels: seq<Label>, j: nat, k: nat)
    requires IsRun(states, labels) && j <= k < |states|
    requires states[j].innerStop && (states[j].start.Checking? || states[j].start.Refused?)
    ensures states[k].innerStop && (states[k].start.Checking? || states[k].start.Refused?)
  {
    hide Next, Enabled, Init;
    if j < k {
      StaysRefused(states, labels, j, k - 1);
      StartInStep(states[k - 1], labels[k - 1]);
    }
  }

  /** If stop was requested before the start, no child is ever started, and the check refuses. */
  lemma StoppedBeforeStart(states: seq<State>, labels: seq<Label>, j: nat, k: nat)
    requires IsRun(states, labels) && j < k < |states| && labels[j].Register? && states[j].outerStop
    ensures forall i | 0 <= i < |states[k].children| :: states[k].children[i].Fresh?
    ensures !states[k].start.Starting? && (k < |labels| && labels[k].Check? ==> states[k + 1].start.Refused?)
  {
    assert states[j + 1].start.Checking? && states[j + 1].innerStop;
    hide Next, Init;
    StaysRefused(states, labels, j + 1, k);
    RunsAreSafe(states, labels, k);
    hide CountOk, ResultOk, CompletionOk, OnStopOk;
    if k < |labels| {
      StartInStep(states[k], labels[k]);
    }
  }

  /** The start is refused exactly if stop was requested before it, or the outer callback has run before its check. */
  lemma RefusedExactly(states: seq<State>, labels: seq<Label>, k: nat)
    requires IsRun(states, labels) && k < |labels| && labels[k].Check?
    ensures states[k + 1].start.Refused? <==>
            exists j :: 0 <= j < k && ((labels[j].Register? && states[j].outerStop) || labels[j].EnterOnStop?)
  {
    StoppedExactly(states, labels, k);
    RunsAreSafe(states, labels, k);
    if states[k].innerStop {
      var j :| 0 <= j < k && AsksToStop(states[j], labels[j]);
      if labels[j].RequestStop? {
        RunsAreSafe(states, labels, j);
        StartedBefore(states[j], labels[j]);
        StaysStarting(states, labels, j + 1, k);
      }
    }
  }

  // ----- what happens after the completion

  /** The last child deregisters the callback from inside it. */
  predicate ResetsInside(s: State, l: Label) {
    l.ResetOnStop? && s.guest == Some(l.i)
  }

  lemma OnlyLeaveIsLate(s: State, l: Label)
    requires Inv(s) && Enabled(s, l) && s.completions == 1
    ensures s.start.Starting? ==> l.OuterStop? || (l.LeaveOnStop? && s.onStop.InsideRemoved?)
    ensures s.start.Starting? ==> !s.onStop.Armed?
    ensures s.start.Refused? ==> l.OuterStop? || l.EnterOnStop? || l.LeaveOnStop?
  {
    NextIsFresh(s);
    hide CountOk, ResultOk;
  }

  lemma NextIsFresh(s: State)
    requires StartOk(s)
    ensures s.start.Starting? && s.start.next < |s.children| ==> s.children[s.start.next].Fresh?
  {
  }

  lemma RemovedInStep(s: State, l: Label)
    requires Inv(s) && Enabled(s, l)
    ensures Next(s, l).onStop.InsideRemoved? <==> ResetsInside(s, l) || (s.onStop.InsideRemoved? && !l.LeaveOnStop?)
  {
    if l.ResetOnStop? {
      LastOnStop(s, l.i);
    }
    hide Inv;
    match l
    case Register =>
    case Check =>
    case StartChild =>
    case Notify(_, _) =>
    case Store(_) =>
    case RequestStop(_) =>
    case Subtract(_) =>
    case ResetOnStop(_) =>
    case Complete(_) =>
    case OuterStop =>
    case EnterOnStop =>
    case LeaveOnStop =>
  }

  lemma {:induction false} RemovedFromInside(states: seq<State>, labels: seq<Label>, k: nat) returns (j: nat)
    requires IsRun(states, labels) && k < |states| && states[k].onStop.InsideRemoved?
    ensures j < k && ResetsInside(states[j], labels[j])
  {
    hide Next, Enabled, ResetsInside;
    if k > 0 {
      hide Init, Inv;
      RunsAreSafe(states, labels, k - 1);
      RemovedInStep(states[k - 1], labels[k - 1]);
      if ResetsInside(states[k - 1], labels[k - 1]) {
        j := k - 1;
      } else {
        j := RemovedFromInside(states, labels, k - 1);
      }
    }
  }

  /**
   After its completion a started operation is used in exactly one way: by the callback of the outer token, when
   the last child has deregistered it from inside.
   */
  lemma UsedAfterCompletion(states: seq<State>, labels: seq<Label>, k: nat)
    requires IsRun(states, labels) && k < |labels| && states[k].completions == 1 && states[k].start.Starting?
    ensures Touches(states[k], labels[k]) <==>
            labels[k].LeaveOnStop? && exists j :: 0 <= j < k && ResetsInside(states[j], labels[j])
  {
    RunsAreSafe(states, labels, k);
    OnlyLeaveIsLate(states[k], labels[k]);
    if labels[k].LeaveOnStop? {
      var j := RemovedFromInside(states, labels, k);
      assert ResetsInside(states[j], labels[j]);
    }
  }

  lemma {:induction false} StaysRemoved(states: seq<State>, labels: seq<Label>, j: nat, k: nat) returns (i: nat)
    requires IsRun(states, labels) && j < k < |states| && ResetsInside(states[j], labels[j])
    ensures states[k].onStop.InsideRemoved? || (j < i < k && labels[i].LeaveOnStop? && states[i].onStop.InsideRemoved?)
  {
    hide Next, Enabled, Init, Inv, ResetsInside;
    RunsAreSafe(states, labels, k - 1);
    RemovedInStep(states[k - 1], labels[k - 1]);
    i := k - 1;
    if j + 1 < k {
      i := StaysRemoved(states, labels, j, k - 1);
      if states[k - 1].onStop.InsideRemoved? {
        i := k - 1;
      }
    }
  }

  lemma RemovedGoesOn(s: State) returns (l: Label)
    requires OnStopOk(s) && s.onStop.InsideRemoved?
    ensures Enabled(s, l) && !l.OuterStop?
  {
    l := if s.guest.None? then LeaveOnStop else Complete(s.guest.child);
  }

  /** Such a use is not to be avoided: it comes in every run that goes on until only the outer token has a step. */
  lemma LateUseFollows(states: seq<State>, labels: seq<Label>, j: nat) returns (k: nat)
    requires IsRun(states, labels) && j < |labels| && ResetsInside(states[j], labels[j])
    requires forall l :: Enabled(states[|labels|], l) ==> l.OuterStop?
    ensures j < k < |labels| && labels[k].LeaveOnStop? && states[k].completions == 1
  {
    k := StaysRemoved(states, labels, j, |labels|);
    var last := states[|labels|];
    RunsAreSafe(states, labels, |labels|);
    if last.onStop.InsideRemoved? {
      var l := RemovedGoesOn(last);
    }
    RunsAreSafe(states, labels, k);
    hide CountOk, ResultOk, StartOk, CompletionOk;
  }

  /**
   If no child deregisters the callback from inside, only the outer token may still change after the completion of
   a started operation. A refused operation waits in its destructor for a callback under way.
   */
  lemma NothingHappensAfterwards(states: seq<State>, labels: seq<Label>, k: nat)
    requires IsRun(states, labels) && k < |labels| && states[k].completions == 1
    requires forall j :: 0 <= j < k ==> !ResetsInside(states[j], labels[j])
    ensures labels[k].OuterStop? || (states[k].start.Refused? && (labels[k].EnterOnStop? || labels[k].LeaveOnStop?))
    ensures states[k].start.Starting? ==> !Touches(states[k], labels[k])
  {
    RunsAreSafe(states, labels, k);
    OnlyLeaveIsLate(states[k], labels[k]);
    if states[k].onStop.InsideRemoved? {
      var j := RemovedFromInside(states, labels, k);
    }
  }

  lemma InsideInStep(s: State, l: Label)
    requires Inv(s) && Enabled(s, l) && s.onStop.Inside?
    ensures Next(s, l).onStop.Inside? || l.LeaveOnStop? || ResetsInside(s, l)
  {
    hide CountOk, ResultOk, CompletionOk, OnStopOk;
    match l
    case Register =>
    case Check =>
    case StartChild =>
    case Notify(_, _) =>
    case Store(_) =>
    case RequestStop(_) =>
    case Subtract(_) =>
    case ResetOnStop(_) =>
    case Complete(_) =>
    case OuterStop =>
    case EnterOnStop =>
    case LeaveOnStop =>
  }

  /** A callback that runs the children's callbacks is over before the completion, unless it was reset from inside. */
  lemma {:induction false} CallbackEnds(states: seq<State>, labels: seq<Label>, j: nat, k: nat) returns (n: nat)
    requires IsRun(states, labels) && j < k < |states| && states[j].onStop.Inside?
    requires !states[k].onStop.Inside?
    ensures j <= n < k && (labels[n].LeaveOnStop? || ResetsInside(states[n], labels[n]))
  {
    hide Next, Enabled, Init, Inv, ResetsInside;
    if states[k - 1].onStop.Inside? {
      RunsAreSafe(states, labels, k - 1);
      InsideInStep(states[k - 1], labels[k - 1]);
      n := k - 1;
    } else {
      n := CallbackEnds(states, labels, j, k - 1);
    }
  }

  lemma CompletionWaits(states: seq<State>, labels: seq<Label>, j: nat, k: nat) returns (n: nat)
    requires IsRun(states, labels) && j < k < |states| && states[j].onStop.Inside?
    requires states[k].start.Starting? && states[k].completions == 1
    ensures j <= n < k && (labels[n].LeaveOnStop? || ResetsInside(states[n], labels[n]))
  {
    RunsAreSafe(states, labels, k);
    hide Next, Enabled, Init, ResetsInside, CountOk, ResultOk, StartOk, CompletionOk;
    n := CallbackEnds(states, labels, j, k);
  }

  // ----- a run that uses a completed operation

  lemma Begin(s: State) returns (states: seq<State>, labels: seq<Label>)
    requires Init(s)
    ensures IsRun(states, labels) && labels == [] && states == [s]
  {
    states, labels := [s], [];
  }

  lemma Extend(states: seq<State>, labels: seq<Label>, l: Label, t: State)
    returns (states2: seq<State>, labels2: seq<Label>)
    requires IsRun(states, labels) && Enabled(states[|labels|], l) && t == Next(states[|labels|], l)
    ensures IsRun(states2, labels2) && states2 == states + [t] && labels2 == labels + [l] && states2[|labels2|] == t
  {
    hide Next, Enabled, Init;
    states2, labels2 := states + [t], labels + [l];
  }

  /** An operation with one child, before the child notifies. */
  function OneChild(start: StartPc, child: ChildPc, outerStop: bool, onStop: OnStop): State {
    State(start, [child], 1, false, None, None, onStop.Inside?, outerStop, onStop, None, 0, Stopped)
  }

  /** The same, with the child inside the callback. */
  function Notified(child: ChildPc, count: int, result: Option, onStop: OnStop): State {
    State(Starting(1), [child], count, true, result, Some(0), true, true, onStop, Some(0), 0, Stopped)
  }

  lemma StopsOneChild() returns (states: seq<State>, labels: seq<Label>)
    ensures IsRun(states, labels) && states[|labels|] == OneChild(Starting(1), Running, true, Inside)
  {
    hide IsRun;
    states, labels := Begin(OneChild(Unstarted, Fresh, false, Absent));
    states, labels := Extend(states, labels, Register, OneChild(Checking, Fresh, false, Armed));
    states, labels := Extend(states, labels, Check, OneChild(Starting(0), Fresh, false, Armed));
    states, labels := Extend(states, labels, StartChild, OneChild(Starting(1), Running, false, Armed));
    states, labels := Extend(states, labels, OuterStop, OneChild(Starting(1), Running, true, Due));
    states, labels := Extend(states, labels, EnterOnStop, OneChild(Starting(1), Running, true, Inside));
  }

  lemma CompletesInside() returns (states: seq<State>, labels: seq<Label>)
    ensures IsRun(states, labels) && states[|labels|] == Notified(Completing, 0, Some(0), InsideRemoved)
  {
    states, labels := StopsOneChild();
    hide IsRun;
    states, labels := Extend(states, labels, Notify(0, true), Notified(Storing, 1, None, Inside));
    states, labels := Extend(states, labels, Store(0), Notified(Stopping, 1, Some(0), Inside));
    states, labels := Extend(states, labels, RequestStop(0), Notified(Subtracting, 1, Some(0), Inside));
    states, labels := Extend(states, labels, Subtract(0), Notified(Last, 0, Some(0), Inside));
    states, labels := Extend(states, labels, ResetOnStop(0), Notified(Completing, 0, Some(0), InsideRemoved));
  }

  /** The only child completes inside its stop callback, and then the outer callback locks the source again. */
  lemma StoppedFromInside() returns (states: seq<State>, labels: seq<Label>)
    ensures IsRun(states, labels) && |labels| > 0
    ensures var k := |labels| - 1;
      states[k].completions == 1 && states[k].start.Starting? && Touches(states[k], labels[k])
  {
    states, labels := CompletesInside();
    hide IsRun;
    var done := Notified(Done, 0, Some(0), InsideRemoved).(guest := None, completions := 1);
    states, labels := Extend(states, labels, Complete(0), done);
    states, labels := Extend(states, labels, LeaveOnStop, done.(onStop := Removed));
    assert states[|labels| - 1] == done;
  }

  // ----- progress

  /** Until then some step can be taken, if each child that has been started completes. */
  lemma NeverStuck(states: seq<State>, labels: seq<Label>, k: nat) returns (l: Label)
    requires IsRun(states, labels) && k < |states| && states[k].completions == 0
    ensures Enabled(states[k], l) && !l.OuterStop? && !l.EnterOnStop?
  {
    var s := states[k];
    RunsAreSafe(states, labels, k);
    hide CountOk, ResultOk;
    match s.start
    case Unstarted => l := Register;
    case Checking => l := Check;
    case Starting(next) =>
      if next < |s.children| {
        l := StartChild;
      } else {
        var i :| 0 <= i < |s.children| && !s.children[i].Done?;
        match s.children[i]
        case Running => l := Notify(i, false);
        case Storing => l := Store(i);
        case Stopping => l := RequestStop(i);
        case Subtracting => l := Subtract(i);
        case Last =>
          if s.onStop.Inside? && s.guest != Some(i) { l := LeaveOnStop; } else { l := ResetOnStop(i); }
        case Completing => l := Complete(i);
      }
  }

  function ChildRank(pc: ChildPc): nat {
    match pc
    case Fresh => 7
    case Running => 6
    case Storing => 5
    case Stopping => 4
    case Subtracting => 3
    case Last => 2
    case Completing => 1
    case Done => 0
  }

  function ChildrenRank(children: seq<ChildPc>): nat {
    if children == [] then 0
    else ChildrenRank(children[..|children| - 1]) + ChildRank(children[|children| - 1])
  }

  lemma {:induction false} ChildrenRankUpdates(children: seq<ChildPc>, i: nat, pc: ChildPc)
    requires i < |children|
    ensures ChildrenRank(children[i := pc]) == ChildrenRank(children) - ChildRank(children[i]) + ChildRank(pc)
  {
    hide ChildRank;
    var n := |children| - 1;
    if i == n {
      assert children[i := pc][..n] == children[..n];
    } else {
      assert children[i := pc][..n] == children[..n][i := pc];
      ChildrenRankUpdates(children[..n], i, pc);
    }
  }

  function OnStopRank(c: OnStop): nat {
    match c
    case Absent => 3
    case Armed => 3
    case Due => 2
    case Inside => 1
    case InsideRemoved => 1
    case _ => 0
  }

  function Rank(s: State): nat {
    ChildrenRank(s.children)
    + (if s.start.Unstarted? then 2 else if s.start.Checking? then 1 else 0)
    + (if s.outerStop then 0 else 1) + OnStopRank(s.onStop)
  }

  /** Every step lowers the rank. */
  lemma EveryStepCounts(s: State, l: Label)
    requires Inv(s) && Enabled(s, l)
    ensures Rank(Next(s, l)) < Rank(s)
  {
    hide ChildrenRank, ChildRank;
    if OfChild(l) {
      ChildStepCounts(s, l);
    } else {
      hide Inv;
    }
  }

  lemma ChildStepCounts(s: State, l: Label)
    requires Inv(s) && Enabled(s, l) && OfChild(l)
    ensures Rank(Next(s, l)) < Rank(s)
  {
    NextIsFresh(s);
    StartedBefore(s, l);
    ChildMoves(s, l);
    var u, i := Next(s, l), Mover(s, l);
    hide Inv, Next, Enabled, ChildrenRank, ChildRank, OnStopRank, Through;
    ChildrenRankUpdates(s.children, i, u.children[i]);
  }

  lemma StartedBefore(s: State, l: Label)
    requires Inv(s) && Enabled(s, l) && OfChild(l)
    ensures s.start.Starting? && Next(s, l).start.Starting?
    ensures OnStopRank(Next(s, l).onStop) <= OnStopRank(s.onStop)
  {
    if l.ResetOnStop? {
      LastOnStop(s, l.i);
    }
    hide CountOk, ResultOk, CompletionOk, OnStopOk;
    match l
    case StartChild =>
    case Notify(_, _) =>
    case Store(_) =>
    case RequestStop(_) =>
    case Subtract(_) =>
    case ResetOnStop(_) =>
    case Complete(_) =>
  }

  lemma {:induction false} RunsAreShort(states: seq<State>, labels: seq<Label>, k: nat)
    requires IsRun(states, labels) && k < |states|
    ensures k + Rank(states[k]) <= Rank(states[0])
  {
    hide Next, Enabled, Init, Rank, Inv;
    if k > 0 {
      RunsAreShort(states, labels, k - 1);
      RunsAreSafe(states, labels, k - 1);
      EveryStepCounts(states[k - 1], labels[k - 1]);
    }
  }

  /** So every run comes to an end, and where it cannot go on the receiver has been completed exactly once. */
  lemma CompletedExactlyOnce(states: seq<State>, labels: seq<Label>)
    requires IsRun(states, labels)
    requires forall l :: Enabled(states[|labels|], l) ==> l.OuterStop? || l.EnterOnStop?
    ensures states[|labels|].completions == 1
    ensures |labels| <= Rank(states[0])
  {
    hide Next, Init;
    CompletedOnceAfterAll(states, labels, |labels|);
    RunsAreShort(states, labels, |labels|);
    if states[|labels|].completions == 0 {
      var l := NeverStuck(states, labels, |labels|);
    }
  }
}
