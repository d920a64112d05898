/** What holds of every run of the future protocol. */
module FutureRuns {
  import opened FutureProtocol

  ghost predicate IsRun(states: seq<State>, labels: seq<Label>) {
    && |states| == |labels| + 1
    && Init(states[0])
    && forall k :: 0 <= k < |labels| ==> Enabled(states[k], labels[k]) && states[k + 1] == Next(states[k], labels[k])
  }

  lemma {:induction false} RunsAreSafe(states: seq<State>, labels: seq<Label>, k: nat)
    requires IsRun(states, labels) && k < |states|
    ensures Inv(states[k])
  {
    hide Next, Enabled;
    if k > 0 {
      hide Inv, Init;
      RunsAreSafe(states, labels, k - 1);
      StepKeeps(states[k - 1], labels[k - 1]);
    }
  }

  /** Every assertion about the step holds when it is reached, and the invalid-state branches are not reached. */
  lemma NeverBroken(states: seq<State>, labels: seq<Label>, k: nat)
    requires IsRun(states, labels) && k < |states|
    ensures !states[k].broken
  {
    RunsAreSafe(states, labels, k);
  }

  /** What the assertions about the step, and the checks of `__complete_`, find when they are reached. */
  lemma StepsInOrder(states: seq<State>, labels: seq<Label>, k: nat)
    requires IsRun(states, labels) && k < |labels|
    ensures var s, l := states[k], labels[k];
      && (l.Wrap? || l.FailDelete? ==> s.step.Created?)
      && (l.DropDecide? && !s.data ==> s.step.Future?)
      && (l.Decide? && s.noFuture ==> s.step.NoFuture?)
      && (l.SelfDelete? ==> s.step.Deleted?)
      && (l.DropDelete? || l.Delete? ==> s.step.Future?)
      && (l.Check? ==> s.step.Future? && s.data && !s.noFuture)
  {
    RunsAreSafe(states, labels, k);
    StepInOrder(states[k], labels[k]);
  }

  lemma StepInOrder(s: State, l: Label)
    requires Inv(s) && Enabled(s, l)
    ensures l.Wrap? || l.FailDelete? ==> s.step.Created?
    ensures l.DropDecide? && !s.data ==> s.step.Future?
    ensures l.Decide? && s.noFuture ==> s.step.NoFuture?
    ensures l.SelfDelete? ==> s.step.Deleted?
    ensures l.DropDelete? || l.Delete? ==> s.step.Future?
    ensures l.Check? ==> s.step.Future? && s.data && !s.noFuture
  {
    hide MutexOk, ForwardOk, ScopeOk;
  }

  /** The state is deleted at most once, and, unless its operation was never started, only after that has completed. */
  lemma DeletedOnceAfterCompletion(states: seq<State>, labels: seq<Label>, k: nat)
    requires IsRun(states, labels) && k < |states|
    ensures states[k].deletions <= 1
    ensures states[k].deletions == 1 ==>
              states[k].step.Deleted? && (if states[k].op.Unstarted? then states[k].con.Failed? else states[k].data)
  {
    RunsAreSafe(states, labels, k);
  }

  predicate Deletes(l: Label) {
    l.FailDelete? || l.SelfDelete? || l.DropDelete? || l.Delete?
  }

  /** At its deletion nobody holds the mutex of the state, and its own stop callback is not under way. */
  lemma DeletedInPeace(states: seq<State>, labels: seq<Label>, k: nat)
    requires IsRun(states, labels) && k < |labels| && Deletes(labels[k])
    ensures states[k].mutex.Nobody? && !states[k].scope.Entered?
    ensures states[k].deletions == 0
  {
    RunsAreSafe(states, labels, k);
    hide Next;
  }

  // ----- who uses the state after its deletion

  /** The only step that may come too late is the one of the consumer's stop callback. */
  lemma OnlyForwardIsLate(s: State, l: Label)
    requires Inv(s) && Enabled(s, l) && TouchesState(l) && s.deletions > 0
    ensures l.UseForward? && s.con.Leaving? && s.op.OpDone?
  {
    hide MutexOk;
  }

  lemma OpDoneByDeleting(s: State, l: Label)
    requires OwnershipOk(s) && OpEnabled(s, l) && s.con.Leaving? && OpStep(s, l).op.OpDone?
    ensures l.SelfDelete?
  {
    hide DeleteState, StepFromTo;
  }

  lemma CompletesOnItsThread(s: State, l: Label)
    requires CompletionEnabled(s, l)
    ensures InCompletion(l) && (l.who.Operation? ==> s.op.OpCompleting?)
  {
    match l
    case Take(_) =>
    case Lock(_) =>
    case Check(_) =>
    case Call(_) =>
    case Relock(_) =>
    case Unlock(_) =>
    case Delete(_) =>
  }

  lemma CompletionKeepsCon(s: State, l: Label)
    requires CompletionEnabled(s, l)
    ensures var con := CompletionStep(s, l).con;
      if l.who.Operation? then con == s.con else con.ConCompleting? || con.Finished?
  {
    hide At, Reset;
    match l
    case Take(_) =>
    case Lock(_) =>
    case Check(_) =>
    case Call(_) =>
    case Relock(_) =>
    case Unlock(_) =>
    case Delete(_) =>
  }

  lemma NotCompleting(s: State, l: Label)
    requires FlagsOk(s) && CompletionEnabled(s, l)
    ensures !CompletionStep(s, l).con.Leaving?
  {
    hide CompletionStep, CompletionEnabled;
    CompletesOnItsThread(s, l);
    CompletionKeepsCon(s, l);
  }

  lemma ConLeaves(s: State, l: Label)
    requires ConEnabled(s, l) && ConStep(s, l).con.Leaving?
    ensures l.DropDecide? && !s.data && ConStep(s, l).op == s.op && ConStep(s, l).forward == s.forward
  {
    hide DeleteState, Reset;
  }

  /** An operation that has been handed the state and is through has deleted it. */
  lemma DoneByDeleting(s: State, l: Label)
    requires Inv(s) && Enabled(s, l)
    requires Next(s, l).con.Leaving? && Next(s, l).op.OpDone?
    ensures l.SelfDelete? || (s.con.Leaving? && s.op.OpDone?)
  {
    hide MutexOk, OwnershipOk, ForwardOk, ScopeOk, OpStep, ConStep, CompletionStep;
    hide OpEnabled, ConEnabled, CompletionEnabled, CallbackEnabled;
    if InCompletion(l) {
      NotCompleting(s, l);
    } else if InCallback(l) {
    } else if OpEnabled(s, l) {
      OpMovesOn(s, l);
      OpDoneByDeleting(s, l);
    } else {
      ConLeaves(s, l);
    }
  }

  lemma {:induction false} SelfDeletedBefore(states: seq<State>, labels: seq<Label>, k: nat) returns (j: nat)
    requires IsRun(states, labels) && k < |states| && states[k].con.Leaving? && states[k].op.OpDone?
    ensures j < k && labels[j].SelfDelete?
  {
    hide Next, Enabled, Inv;
    if k > 0 {
      hide Init;
      RunsAreSafe(states, labels, k - 1);
      DoneByDeleting(states[k - 1], labels[k - 1]);
      if labels[k - 1].SelfDelete? {
        j := k - 1;
      } else {
        j := SelfDeletedBefore(states, labels, k - 1);
      }
    }
  }

  lemma OpDeletionsGrow(s: State, l: Label)
    ensures OpStep(s, l).deletions >= s.deletions && (l.SelfDelete? ==> OpStep(s, l).deletions > 0)
  {
    hide Reset;
    match l
    case Start =>
    case OpLock =>
    case Store(_) =>
    case Collect =>
    case ResetScope =>
    case Decide =>
    case HandOver =>
    case SelfDelete =>
    case Release =>
    case Notify =>
    case _ =>
  }

  lemma ConDeletionsGrow(s: State, l: Label)
    ensures ConStep(s, l).deletions >= s.deletions
  {
    hide Reset;
    match l
    case ConnectThrows =>
    case FailDelete =>
    case Construct =>
    case WrapLock =>
    case Wrap =>
    case Connect =>
    case Drop =>
    case DropLock =>
    case DropDecide =>
    case ResetDropped =>
    case DropDelete =>
    case ResetAbandoned =>
    case StartOp =>
    case StartLock =>
    case StartDecide =>
    case Observe =>
    case _ =>
  }

  lemma DeleteAdds(s: State)
    ensures DeleteState(s).deletions == s.deletions + 1
  {
  }

  lemma BecomeKeeps(s: State, who: Owner)
    ensures forall c :: Become(s, who, c).deletions == s.deletions && Become(s, who, c).data == s.data
    ensures forall c :: Become(s, who, c).result == s.result && Become(s, who, c).asked == s.asked
    ensures forall c :: Become(s, who, c).signal == s.signal
  {
  }

  lemma CompletionDeletionsGrow(s: State, l: Label)
    requires CompletionEnabled(s, l)
    ensures CompletionStep(s, l).deletions >= s.deletions
  {
    DeleteAdds(s);
    BecomeKeeps(s, l.who);
    hide Reset, At, DeleteState, Become;
    match l
    case Take(_) =>
    case Lock(_) =>
    case Check(_) =>
    case Call(_) =>
    case Relock(_) =>
    case Unlock(_) =>
    case Delete(_) =>
  }

  lemma DeletionsGrow(s: State, l: Label)
    requires Enabled(s, l)
    ensures Next(s, l).deletions >= s.deletions
    ensures l.SelfDelete? ==> Next(s, l).deletions > 0
  {
    assert l.SelfDelete? ==> OpEnabled(s, l);
    hide OpStep, ConStep, CompletionStep, CallbackStep, OpEnabled, ConEnabled, CompletionEnabled, CallbackEnabled;
    if InCompletion(l) {
      CompletionDeletionsGrow(s, l);
    } else if InCallback(l) {
      CallbackDeletes(s, l);
    } else if OpEnabled(s, l) {
      OpDeletionsGrow(s, l);
    } else {
      ConDeletionsGrow(s, l);
    }
  }

  lemma CallbackDeletes(s: State, l: Label)
    ensures CallbackStep(s, l).deletions == s.deletions
  {
  }

  lemma {:induction false} StaysDeleted(states: seq<State>, labels: seq<Label>, j: nat, k: nat)
    requires IsRun(states, labels) && j < k < |states| && labels[j].SelfDelete?
    ensures states[k].deletions > 0
  {
    hide Next, Enabled, Init;
    DeletionsGrow(states[k - 1], labels[k - 1]);
    if j + 1 < k {
      StaysDeleted(states, labels, j, k - 1);
    }
  }

  /**
   The state is used after its deletion in exactly one way: by the stop callback of a connected operation, run
   after the state has deleted itself.
   */
  lemma UsedAfterDeletion(states: seq<State>, labels: seq<Label>, k: nat)
    requires IsRun(states, labels) && k < |labels|
    ensures TouchesState(labels[k]) && states[k].deletions > 0 <==>
            labels[k].UseForward? && exists j :: 0 <= j < k && labels[j].SelfDelete?
  {
    if TouchesState(labels[k]) && states[k].deletions > 0 {
      RunsAreSafe(states, labels, k);
      OnlyForwardIsLate(states[k], labels[k]);
      var j := SelfDeletedBefore(states, labels, k);
      assert labels[j].SelfDelete?;
    }
    if j :| 0 <= j < k && labels[j].SelfDelete? {
      StaysDeleted(states, labels, j, k);
    }
  }

  /** Such a callback belongs to an operation that was connected, and dropped before the result was stored. */
  lemma {:induction false} LateMeansDropped(states: seq<State>, labels: seq<Label>, k: nat) returns (i: nat)
    requires IsRun(states, labels) && k < |states| && states[k].con.Leaving? && IsLive(states[k].forward)
    ensures i < k && labels[i].DropDecide? && !states[i].data && IsLive(states[i].forward)
  {
    hide Next, Enabled, Inv, IsLive;
    if k > 0 {
      hide Init;
      RunsAreSafe(states, labels, k - 1);
      LeavingSince(states[k - 1], labels[k - 1]);
      if labels[k - 1].DropDecide? {
        i := k - 1;
      } else {
        i := LateMeansDropped(states, labels, k - 1);
      }
    }
  }

  lemma LeavingSince(s: State, l: Label)
    requires Inv(s) && Enabled(s, l) && Next(s, l).con.Leaving? && IsLive(Next(s, l).forward)
    ensures IsLive(s.forward) && if l.DropDecide? then !s.data else s.con.Leaving?
  {
    hide MutexOk, OwnershipOk, FlagsOk, ForwardOk, ScopeOk, OpStep, ConStep, CompletionStep;
    hide OpEnabled, ConEnabled, CompletionEnabled;
    if InCompletion(l) {
      NotCompleting(s, l);
    } else if InCallback(l) {
    } else if OpEnabled(s, l) {
      OpMovesOn(s, l);
      OpIsNotCon(s, l);
    } else {
      ConLeaves(s, l);
    }
  }

  lemma OpIsNotCon(s: State, l: Label)
    requires OpEnabled(s, l)
    ensures !l.DropDecide?
  {
  }

  /** If no stop callback runs while a dropped operation is destroyed, nobody uses the state after its deletion. */
  lemma NotUsedAfterDeletion(states: seq<State>, labels: seq<Label>, k: nat)
    requires IsRun(states, labels) && k < |labels|
    requires labels[k].UseForward? ==> !states[k].con.Leaving?
    ensures TouchesState(labels[k]) ==> states[k].deletions == 0
  {
    RunsAreSafe(states, labels, k);
    if TouchesState(labels[k]) && states[k].deletions > 0 {
      OnlyForwardIsLate(states[k], labels[k]);
    }
  }

  // ----- a run that does so

  /** The state while the future, connected and dropped, is being destroyed. */
  function Dropping(op: OpPc, step: Step, mutex: Owner, data: bool, forward: Callback, scope: Callback): State {
    var deletions := if op.OpDone? then 1 else 0;
    State(step, !op.OpDone?, data, false, false, mutex, op, Leaving, forward, scope, 0, deletions, false, false, 0,
          Stopped)
  }

  lemma Extend(states: seq<State>, labels: seq<Label>, l: Label, t: State)
    returns (states2: seq<State>, labels2: seq<Label>)
    requires IsRun(states, labels) && Enabled(states[|labels|], l) && t == Next(states[|labels|], l)
    ensures IsRun(states2, labels2) && states2 == states + [t] && labels2 == labels + [l] && states2[|labels2|] == t
  {
    hide Next, Enabled, Init;
    states2, labels2 := states + [t], labels + [l];
  }

  lemma Begin(s: State) returns (states: seq<State>, labels: seq<Label>)
    requires Init(s)
    ensures IsRun(states, labels) && labels == [] && states == [s]
  {
    states, labels := [s], [];
  }

  /** The state while the future is made, with the operation under way. */
  function Making(op: OpPc, con: ConPc, step: Step, mutex: Owner, forward: Callback): State {
    State(step, false, false, false, false, mutex, op, con, forward, Armed, 0, 0, false, false, 0, Stopped)
  }

  lemma Constructs() returns (states: seq<State>, labels: seq<Label>)
    ensures IsRun(states, labels)
    ensures states[|labels|] == Making(Running, WrapLocking, Created, Nobody, Absent)
  {
    hide IsRun;
    states, labels := Begin(Making(Unstarted, Constructing, Created, Nobody, Absent));
    states, labels := Extend(states, labels, Start, Making(Running, Constructing, Created, Nobody, Absent));
    states, labels := Extend(states, labels, Construct, Making(Running, WrapLocking, Created, Nobody, Absent));
  }

  lemma Connects() returns (states: seq<State>, labels: seq<Label>)
    ensures IsRun(states, labels)
    ensures states[|labels|] == Making(Running, Connected, Future, Nobody, Armed)
  {
    hide IsRun;
    states, labels := Constructs();
    states, labels := Extend(states, labels, WrapLock, Making(Running, WrapHolding, Created, Consumer, Absent));
    states, labels := Extend(states, labels, Wrap, Making(Running, Owning, Future, Nobody, Absent));
    states, labels := Extend(states, labels, Connect, Making(Running, Connected, Future, Nobody, Armed));
  }

  lemma Abandons() returns (states: seq<State>, labels: seq<Label>)
    ensures IsRun(states, labels)
    ensures states[|labels|] == Dropping(Running, NoFuture, Nobody, false, Armed, Armed)
  {
    states, labels := Connects();
    hide IsRun;
    states, labels := Extend(states, labels, Drop, Making(Running, DropLocking, Future, Nobody, Armed));
    states, labels := Extend(states, labels, DropLock, Making(Running, DropHolding, Future, Consumer, Armed));
    states, labels := Extend(states, labels, DropDecide, Dropping(Running, NoFuture, Nobody, false, Armed, Armed));
  }

  lemma CompletesAbandoned() returns (states: seq<State>, labels: seq<Label>)
    ensures IsRun(states, labels)
    ensures states[|labels|] == Dropping(OpDone, Deleted, Nobody, true, Armed, Removed)
  {
    states, labels := Abandons();
    hide IsRun;
    states, labels := Extend(states, labels, OpLock, Dropping(Storing, NoFuture, Operation, false, Armed, Armed));
    states, labels := Extend(states, labels, Store(0), Dropping(Collecting, NoFuture, Operation, true, Armed, Armed));
    states, labels := Extend(states, labels, Collect, Dropping(Unscoping, NoFuture, Operation, true, Armed, Armed));
    states, labels := Extend(states, labels, ResetScope, Dropping(Deciding, NoFuture, Operation, true, Armed, Removed));
    states, labels := Extend(states, labels, Decide, Dropping(Handing, Deleted, Operation, true, Armed, Removed));
    states, labels := Extend(states, labels, HandOver, Dropping(SelfDeleting, Deleted, Nobody, true, Armed, Removed));
    states, labels := Extend(states, labels, SelfDelete, Dropping(OpDone, Deleted, Nobody, true, Armed, Removed));
  }

  /** A connected future is dropped, the operation completes, and only then the receiver's stop token is stopped. */
  lemma DroppedThenStopped() returns (states: seq<State>, labels: seq<Label>)
    ensures IsRun(states, labels) && |labels| > 0
    ensures var k := |labels| - 1; TouchesState(labels[k]) && states[k].deletions > 0
  {
    states, labels := CompletesAbandoned();
    hide IsRun;
    var s := Dropping(OpDone, Deleted, Nobody, true, Armed, Removed).(asked := true);
    states, labels := Extend(states, labels, StopReceiver, s);
    states, labels := Extend(states, labels, EnterForward, s.(forward := Entered));
    states, labels := Extend(states, labels, UseForward, s.(forward := Ran));
    assert states[|labels| - 1] == s.(forward := Entered);
  }

  // ----- completion of a started future

  /** The receiver of a started future is completed at most once, and no other one is. */
  lemma CompletedAtMostOnce(states: seq<State>, labels: seq<Label>, k: nat)
    requires IsRun(states, labels) && k < |states|
    ensures states[k].completions <= 1
    ensures states[k].completions == 1 ==> states[k].data
    ensures states[k].completions == 1 ==>
              states[k].con.Waiting? || states[k].con.ConCompleting? || states[k].con.Finished?
  {
    RunsAreSafe(states, labels, k);
  }

  /** Both threads have come to an end, as far as the state is concerned. */
  predicate Over(s: State) {
    && (s.op.OpDone? || (s.op.Unstarted? && s.con.Failed?))
    && (s.con.Failed? || s.con.Dropped? || s.con.Abandoned? || s.con.Finished?)
  }

  /** In the end the state has been deleted, and a future that was started has been completed. */
  lemma InTheEnd(states: seq<State>, labels: seq<Label>, k: nat)
    requires IsRun(states, labels) && k < |states| && Over(states[k])
    ensures states[k].deletions == 1
    ensures states[k].completions == if states[k].con.Finished? then 1 else 0
  {
    RunsAreSafe(states, labels, k);
  }

  /** Until then some step can be taken. */
  lemma NeverStuck(states: seq<State>, labels: seq<Label>, k: nat) returns (l: Label)
    requires IsRun(states, labels) && k < |states| && !Over(states[k])
    ensures Enabled(states[k], l) && !l.StopReceiver?
  {
    var s := states[k];
    RunsAreSafe(states, labels, k);
    hide IsRun;
    if s.forward.Entered? {
      l := UseForward;
    } else if s.scope.Entered? {
      l := UseScope;
    } else if s.mutex.Operation? || (s.mutex.Nobody? && !s.op.OpDone? && !s.op.Unstarted?) {
      l := OpNext(s.op);
      OpCanStep(s);
    } else {
      l := ConNext(s);
      ConCanStep(s);
    }
  }

  lemma OpCanStep(s: State)
    requires Inv(s) && !s.mutex.Consumer? && !s.op.OpDone? && !s.op.Unstarted?
    requires !s.forward.Entered? && !s.scope.Entered?
    ensures Enabled(s, OpNext(s.op)) && !OpNext(s.op).StopReceiver?
  {
    hide OwnershipOk;
  }

  lemma ConCanStep(s: State)
    requires Inv(s) && !s.mutex.Operation? && !Over(s)
    requires s.mutex.Consumer? || s.op.OpDone? || s.op.Unstarted?
    requires !s.forward.Entered? && !s.scope.Entered?
    ensures Enabled(s, ConNext(s)) && !ConNext(s).StopReceiver?
  {
    hide ForwardOk, ScopeOk;
  }

  function CompletingNext(who: Owner, c: Completing): Label {
    match c
    case Taking => Take(who)
    case Locking => Lock(who)
    case Checking => Check(who)
    case Calling => Call(who)
    case Relocking => Relock(who)
    case Unlocking => Unlock(who)
    case Deleting => Delete(who)
  }

  function OpNext(op: OpPc): Label {
    match op
    case Unstarted => Start
    case Running => OpLock
    case Storing => Store(0)
    case Collecting => Collect
    case Unscoping => ResetScope
    case Deciding => Decide
    case Handing => HandOver
    case SelfDeleting => SelfDelete
    case Releasing => Release
    case Notifying => Notify
    case OpCompleting(c) => CompletingNext(Operation, c)
    case OpDone => Notify
  }

  function ConNext(s: State): Label {
    match s.con
    case Constructing => if s.op.Unstarted? then Start else Construct
    case WrapLocking => WrapLock
    case WrapHolding => Wrap
    case Owning => Connect
    case Connected => StartOp
    case DropLocking => DropLock
    case DropHolding => DropDecide
    case Unforwarding => ResetDropped
    case DropDeleting => DropDelete
    case Leaving => ResetAbandoned
    case StartLocking => StartLock
    case StartHolding => StartDecide
    case Waiting => Observe
    case ConCompleting(c) => CompletingNext(Consumer, c)
    case Failing => FailDelete
    case _ => Observe
  }

  // ----- every step is progress

  function CompletingRank(c: Completing): nat {
    match c
    case Taking => 7
    case Locking => 6
    case Checking => 5
    case Calling => 4
    case Relocking => 3
    case Unlocking => 2
    case Deleting => 1
  }

  function OpRank(op: OpPc): nat {
    match op
    case Unstarted => 16
    case Running => 15
    case Storing => 14
    case Collecting => 13
    case Unscoping => 12
    case Deciding => 11
    case Handing => 10
    case SelfDeleting => 9
    case Releasing => 9
    case Notifying => 8
    case OpCompleting(c) => CompletingRank(c)
    case OpDone => 0
  }

  function ConRank(con: ConPc): nat {
    match con
    case Constructing => 15
    case WrapLocking => 14
    case WrapHolding => 13
    case Owning => 12
    case Connected => 11
    case DropLocking => 10
    case DropHolding => 9
    case StartLocking => 9
    case StartHolding => 8
    case ConCompleting(c) => CompletingRank(c)
    case Unforwarding => 2
    case Leaving => 1
    case DropDeleting => 1
    case Waiting => 1
    case Failing => 1
    case _ => 0
  }

  function CallbackRank(c: Callback): nat {
    match c
    case Absent => 3
    case Armed => 2
    case Entered => 1
    case _ => 0
  }

  function Rank(s: State): nat {
    OpRank(s.op) + ConRank(s.con) + CallbackRank(s.forward) + CallbackRank(s.scope) + if s.asked then 0 else 1
  }

  lemma ResetRank(c: Callback)
    ensures CallbackRank(Reset(c)) <= CallbackRank(c)
  {
  }

  /** A callback is where it was, or has been removed or armed. */
  predicate MovesOn(c: Callback, d: Callback) {
    d == c || d == Reset(c) || (c.Absent? && d.Armed?)
  }

  lemma MovesOnRank(c: Callback, d: Callback)
    requires MovesOn(c, d)
    ensures CallbackRank(d) <= CallbackRank(c)
  {
  }

  /** Under a step of either thread the other thread stays, and the callbacks only move on. */
  lemma OpMovesOn(s: State, l: Label)
    ensures OpStep(s, l).con == s.con && OpStep(s, l).forward == s.forward && MovesOn(s.scope, OpStep(s, l).scope)
    ensures OpStep(s, l).asked == s.asked
  {
    hide Reset;
    match l
    case Start =>
    case OpLock =>
    case Store(_) =>
    case Collect =>
    case ResetScope =>
    case Decide =>
    case HandOver =>
    case SelfDelete =>
    case Release =>
    case Notify =>
    case _ =>
  }

  lemma ConMovesOn(s: State, l: Label)
    requires l.Connect? ==> s.forward.Absent?
    ensures MovesOn(s.scope, ConStep(s, l).scope) && MovesOn(s.forward, ConStep(s, l).forward)
  {
    hide Reset;
    match l
    case ConnectThrows =>
    case FailDelete =>
    case Construct =>
    case WrapLock =>
    case Wrap =>
    case Connect =>
    case Drop =>
    case DropLock =>
    case DropDecide =>
    case ResetDropped =>
    case DropDelete =>
    case ResetAbandoned =>
    case StartOp =>
    case StartLock =>
    case StartDecide =>
    case Observe =>
    case _ =>
  }

  lemma ConSparesOp(s: State, l: Label)
    ensures ConStep(s, l).op == s.op && ConStep(s, l).asked == s.asked
  {
    hide Reset;
    match l
    case ConnectThrows =>
    case FailDelete =>
    case Construct =>
    case WrapLock =>
    case Wrap =>
    case Connect =>
    case Drop =>
    case DropLock =>
    case DropDecide =>
    case ResetDropped =>
    case DropDelete =>
    case ResetAbandoned =>
    case StartOp =>
    case StartLock =>
    case StartDecide =>
    case Observe =>
    case _ =>
  }

  lemma OpBeginsCounts(s: State, l: Label)
    requires OpEnabled(s, l) && OpBegins(l)
    ensures OpRank(OpStep(s, l).op) < OpRank(s.op)
  {
    hide Reset;
    match l
    case Start =>
    case OpLock =>
    case Store(_) =>
    case Collect =>
    case ResetScope =>
  }

  lemma OpEndsCounts(s: State, l: Label)
    requires OpEnabled(s, l) && !OpBegins(l)
    ensures OpRank(OpStep(s, l).op) < OpRank(s.op)
  {
    hide DeleteState, StepFromTo;
    match l
    case Decide =>
    case HandOver =>
    case SelfDelete =>
    case Release =>
    case Notify =>
  }

  lemma MakesFutureCounts(s: State, l: Label)
    requires ConEnabled(s, l) && MakesFuture(l)
    ensures ConRank(ConStep(s, l).con) < ConRank(s.con)
  {
    hide DeleteState, StepFromTo, CompletingRank;
    match l
    case ConnectThrows =>
    case FailDelete =>
    case Construct =>
    case WrapLock =>
    case Wrap =>
    case Connect =>
  }

  lemma DropsFutureCounts(s: State, l: Label)
    requires ConEnabled(s, l) && DropsFuture(l)
    ensures ConRank(ConStep(s, l).con) < ConRank(s.con)
  {
    hide DeleteState, StepFromTo, CompletingRank;
    match l
    case Drop =>
    case DropLock =>
    case DropDecide =>
    case ResetDropped =>
    case DropDelete =>
    case ResetAbandoned =>
  }

  lemma StartsFutureCounts(s: State, l: Label)
    requires ConEnabled(s, l) && !MakesFuture(l) && !DropsFuture(l)
    ensures ConRank(ConStep(s, l).con) < ConRank(s.con)
  {
    hide DeleteState, StepFromTo;
    match l
    case StartOp =>
    case StartLock =>
    case StartDecide =>
    case Observe =>
  }

  lemma DeleteKeeps(s: State)
    ensures DeleteState(s).op == s.op && DeleteState(s).con == s.con && DeleteState(s).forward == s.forward
    ensures CallbackRank(DeleteState(s).scope) <= CallbackRank(s.scope) && DeleteState(s).asked == s.asked
  {
  }

  lemma CompletingRanks()
    ensures CompletingRank(Taking) > CompletingRank(Locking) > CompletingRank(Checking) > CompletingRank(Calling)
    ensures CompletingRank(Calling) > CompletingRank(Relocking) > CompletingRank(Unlocking) > CompletingRank(Deleting)
    ensures forall c :: CompletingRank(c) > 0
  {
  }

  /** A step of `__complete_` on one thread: that thread goes on, and the callbacks are at most removed. */
  ghost predicate Completes(s: State, u: State, who: Owner) {
    && CallbackRank(u.scope) <= CallbackRank(s.scope) && CallbackRank(u.forward) <= CallbackRank(s.forward)
    && u.asked == s.asked
    && (if who.Operation? then
          && u.con == s.con && s.op.OpCompleting?
          && if u.op.OpCompleting? then CompletingRank(u.op.c) < CompletingRank(s.op.c) else u.op.OpDone?
        else
          && u.op == s.op && s.con.ConCompleting?
          && if u.con.ConCompleting? then CompletingRank(u.con.c) < CompletingRank(s.con.c) else u.con.Finished?)
  }

  lemma Moves(s: State, u: State, who: Owner, from: Completing, to: Completing)
    requires At(s, who, from) && u.op == Become(s, who, to).op && u.con == Become(s, who, to).con
    requires CompletingRank(to) < CompletingRank(from)
    requires u.scope == s.scope && CallbackRank(u.forward) <= CallbackRank(s.forward) && u.asked == s.asked
    ensures Completes(s, u, who)
  {
    hide CompletingRank, CallbackRank;
    if who.Operation? {
      assert u.op == OpCompleting(to) && u.con == s.con && s.op == OpCompleting(from);
    } else {
      assert u.con == ConCompleting(to) && u.op == s.op && s.con == ConCompleting(from);
    }
  }

  lemma Ends(s: State, u: State, who: Owner)
    requires At(s, who, Deleting)
    requires u == if who.Operation? then DeleteState(s).(op := OpDone) else DeleteState(s).(con := Finished)
    ensures Completes(s, u, who)
  {
    DeleteKeeps(s);
    hide DeleteState, CompletingRank, CallbackRank;
  }

  lemma CompletionStepCompletes(s: State, l: Label)
    requires CompletionEnabled(s, l)
    ensures Completes(s, CompletionStep(s, l), l.who)
  {
    CompletingRanks();
    ResetRank(s.forward);
    hide Completes, At, Become, CompletingRank, CallbackRank, DeleteState, Reset;
    var u := CompletionStep(s, l);
    BecomeSpares(s, l.who);
    match l
    case Take(who) => Moves(s, u, who, Taking, Locking);
    case Lock(who) => Moves(s, u, who, Locking, Checking);
    case Check(who) => Moves(s, u, who, Checking, Calling);
    case Call(who) => Moves(s, u, who, Calling, Relocking);
    case Relock(who) => Moves(s, u, who, Relocking, Unlocking);
    case Unlock(who) => Moves(s, u, who, Unlocking, Deleting);
    case Delete(who) => Ends(s, u, who);
  }

  lemma BecomeSpares(s: State, who: Owner)
    ensures forall c :: Become(s, who, c).scope == s.scope && Become(s, who, c).forward == s.forward
    ensures forall c :: Become(s, who, c).asked == s.asked
  {
  }

  lemma CompletionCounts(s: State, u: State, who: Owner)
    requires Completes(s, u, who)
    ensures Rank(u) < Rank(s)
  {
    CompletingRanks();
    hide CallbackRank, CompletingRank;
  }

  lemma CallbackCounts(s: State, l: Label)
    requires CallbackEnabled(s, l)
    ensures Rank(CallbackStep(s, l)) < Rank(s)
  {
    hide OpRank, ConRank;
  }

  lemma ThreadCounts(s: State, l: Label)
    requires Inv(s) && Enabled(s, l) && !InCompletion(l) && !InCallback(l)
    ensures Rank(Next(s, l)) < Rank(s)
  {
    assert l.Connect? && ConEnabled(s, l) ==> s.forward.Absent?;
    hide Inv, OpRank, ConRank, CallbackRank, OpEnabled, ConEnabled, OpStep, ConStep, MovesOn;
    if OpEnabled(s, l) {
      OpMovesOn(s, l);
      MovesOnRank(s.scope, OpStep(s, l).scope);
      if OpBegins(l) { OpBeginsCounts(s, l); } else { OpEndsCounts(s, l); }
    } else {
      ConCounts(s, l);
    }
  }

  lemma ConCounts(s: State, l: Label)
    requires ConEnabled(s, l) && (l.Connect? ==> s.forward.Absent?)
    ensures Rank(ConStep(s, l)) < Rank(s)
  {
    hide OpRank, ConRank, CallbackRank, ConEnabled, ConStep, MovesOn;
    ConMovesOn(s, l);
    ConSparesOp(s, l);
    if MakesFuture(l) {
      MakesFutureCounts(s, l);
    } else if DropsFuture(l) {
      DropsFutureCounts(s, l);
    } else {
      StartsFutureCounts(s, l);
    }
    MovesOnRank(s.scope, ConStep(s, l).scope);
    MovesOnRank(s.forward, ConStep(s, l).forward);
  }

  /** Every step lowers the rank. */
  lemma EveryStepCounts(s: State, l: Label)
    requires Inv(s) && Enabled(s, l)
    ensures Rank(Next(s, l)) < Rank(s)
  {
    hide Inv, Rank, Completes, CompletionEnabled, CompletionStep, CallbackStep, OpStep, ConStep;
    if InCompletion(l) {
      CompletionStepCompletes(s, l);
      CompletionCounts(s, Next(s, l), l.who);
    } else if InCallback(l) {
      CallbackCounts(s, l);
    } else {
      ThreadCounts(s, l);
    }
  }

  lemma {:induction false} RunsAreShort(states: seq<State>, labels: seq<Label>, k: nat)
    requires IsRun(states, labels) && k < |states|
    ensures k + Rank(states[k]) <= Rank(states[0])
  {
    hide Next, Enabled, Init, Rank, Inv;
    if k > 0 {
      RunsAreShort(states, labels, k - 1);
      RunsAreSafe(states, labels, k - 1);
      EveryStepCounts(states[k - 1], labels[k - 1]);
    }
  }

  /**
   So no run has more than 37 steps, and where none of the two threads can go on the state has been deleted once, and a
   future that was started has been completed once.
   */
  lemma TheEndIsReached(states: seq<State>, labels: seq<Label>)
    requires IsRun(states, labels)
    requires forall l :: Enabled(states[|labels|], l) ==> l.StopReceiver?
    ensures |labels| <= 37
    ensures var s := states[|labels|];
      Over(s) && s.deletions == 1 && s.completions == if s.con.Finished? then 1 else 0
  {
    RunsAreShort(states, labels, |labels|);
    hide Enabled, Next, Over;
    if !Over(states[|labels|]) {
      var l := NeverStuck(states, labels, |labels|);
    }
    InTheEnd(states, labels, |labels|);
  }
}
