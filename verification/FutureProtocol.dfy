/**
 Ownership of the state shared by a spawned operation and its future.

 The operation completes on one thread while another creates the future, drops it, connects it, and starts or
 destroys the operation that waits for the result. Two stop callbacks forward stop requests to the stop source
 in the state, each on whatever thread requests stop: one belongs to the state and listens to the scope, the
 other belongs to the connected operation and listens to its receiver. Every access of the shared state under
 its mutex, every locking and unlocking, every hand-over of the owning pointer, and every start and removal of a
 callback is one step.
 */
module FutureProtocol {

  datatype Step = Created | Future | NoFuture | Deleted

  datatype Owner = Nobody | Operation | Consumer

  /** `__future_opstate::__complete_`, on whichever thread calls it. */
  datatype Completing = Taking | Locking | Checking | Calling | Relocking | Unlocking | Deleting

  /** A forwarding stop callback: `Ran` has used the state's stop source, `Removed` is deregistered. */
  datatype Callback = Absent | Armed | Entered | Ran | Removed

  /** The operation. From `Storing` to `Deciding` it holds the mutex, as it does in `Handing` and `Releasing`. */
  datatype OpPc =
    | Unstarted | Running | Storing | Collecting | Unscoping | Deciding
    | Handing | SelfDeleting
    | Releasing | Notifying
    | OpCompleting(c: Completing)
    | OpDone

  /**
   The consumer: the code that spawns, and then the owner of the future or of the operation made from it.
   `Unforwarding` and `Leaving` are in a destructor whose body is done and whose members are to be destroyed.
   */
  datatype ConPc =
    | Constructing | WrapLocking | WrapHolding
    | Owning | Connected
    | DropLocking | DropHolding | Unforwarding | DropDeleting | Leaving
    | StartLocking | StartHolding | Waiting
    | ConCompleting(c: Completing)
    | Failing
    | Failed | Dropped | Abandoned | Finished

  /** What the receiver of a started future gets: stopped, or the result with the given value. */
  datatype Signal = Stopped | Result(value: nat)

  /** `asked`: the token of the receiver has been stopped. `signal` is what `__complete_` has chosen to send. */
  datatype State = State(
    step: Step,
    noFuture: bool,
    data: bool,
    subscribed: bool,
    collected: bool,
    mutex: Owner,
    op: OpPc,
    con: ConPc,
    forward: Callback,
    scope: Callback,
    completions: nat,
    deletions: nat,
    broken: bool,
    asked: bool,
    result: nat,
    signal: Signal)

  datatype Label =
      // the operation
    | Start | OpLock | Store(result: nat) | Collect | ResetScope | Decide | HandOver | SelfDelete | Release | Notify
      // the consumer
    | ConnectThrows | FailDelete | Construct | WrapLock | Wrap
    | Connect | Drop | DropLock | DropDecide | ResetDropped | DropDelete | ResetAbandoned
    | StartOp | StartLock | StartDecide | Observe
      // __complete_ on either thread
    | Take(who: Owner) | Lock(who: Owner) | Check(who: Owner) | Call(who: Owner) | Relock(who: Owner)
    | Unlock(who: Owner) | Delete(who: Owner)
      // the stop callbacks
    | StopReceiver | EnterForward | UseForward | EnterScope | UseScope

  ghost predicate Init(s: State) {
    s == State(Created, false, false, false, false, Nobody, Unstarted, Constructing, Absent, Armed, 0, 0, false,
               false, 0, Stopped)
  }

  predicate InCompletion(l: Label) {
    l.Take? || l.Lock? || l.Check? || l.Call? || l.Relock? || l.Unlock? || l.Delete?
  }

  predicate InCallback(l: Label) {
    l.StopReceiver? || l.EnterForward? || l.UseForward? || l.EnterScope? || l.UseScope?
  }

  predicate CallbackEnabled(s: State, l: Label) {
    match l
    case StopReceiver => !s.asked
    case EnterForward => s.forward.Armed? && s.asked
    case UseForward => s.forward.Entered?
    case EnterScope => s.scope.Armed?
    case UseScope => s.scope.Entered?
    case _ => false
  }

  /** Where the thread is in `__complete_`. */
  predicate At(s: State, who: Owner, c: Completing) {
    (who.Operation? && s.op == OpCompleting(c)) || (who.Consumer? && s.con == ConCompleting(c))
  }

  predicate CompletionEnabled(s: State, l: Label) {
    match l
    case Take(who) => At(s, who, Taking) && !s.forward.Entered?
    case Lock(who) => At(s, who, Locking) && s.mutex.Nobody?
    case Check(who) => At(s, who, Checking)
    case Call(who) => At(s, who, Calling)
    case Relock(who) => At(s, who, Relocking) && s.mutex.Nobody?
    case Unlock(who) => At(s, who, Unlocking)
    case Delete(who) => At(s, who, Deleting) && !s.scope.Entered?
    case _ => false
  }

  predicate OpEnabled(s: State, l: Label) {
    match l
    case Start => s.op.Unstarted? && s.con.Constructing?
    case OpLock => s.op.Running? && s.mutex.Nobody?
    case Store(_) => s.op.Storing?
    case Collect => s.op.Collecting?
    case ResetScope => s.op.Unscoping? && !s.scope.Entered?
    case Decide => s.op.Deciding?
    case HandOver => s.op.Handing?
    case SelfDelete => s.op.SelfDeleting? && !s.scope.Entered?
    case Release => s.op.Releasing?
    case Notify => s.op.Notifying?
    case _ => false
  }

  predicate ConEnabled(s: State, l: Label) {
    match l
    case ConnectThrows => s.con.Constructing? && s.op.Unstarted?
    case FailDelete => s.con.Failing? && !s.scope.Entered?
    case Construct => s.con.Constructing? && !s.op.Unstarted?
    case WrapLock => s.con.WrapLocking? && s.mutex.Nobody?
    case Wrap => s.con.WrapHolding?
    case Connect => s.con.Owning?
    case Drop => s.con.Owning? || s.con.Connected?
    case DropLock => s.con.DropLocking? && s.mutex.Nobody?
    case DropDecide => s.con.DropHolding?
    case ResetDropped => s.con.Unforwarding? && !s.forward.Entered?
    case DropDelete => s.con.DropDeleting? && !s.scope.Entered?
    case ResetAbandoned => s.con.Leaving? && !s.forward.Entered?
    case StartOp => s.con.Connected?
    case StartLock => s.con.StartLocking? && s.mutex.Nobody?
    case StartDecide => s.con.StartHolding?
    case Observe => s.con.Waiting? && s.completions > 0
    case _ => false
  }

  predicate Enabled(s: State, l: Label) {
    if InCompletion(l) then CompletionEnabled(s, l)
    else if InCallback(l) then CallbackEnabled(s, l)
    else OpEnabled(s, l) || ConEnabled(s, l)
  }

  /** `__step_from_to_`, with its assertion. */
  function StepFromTo(s: State, from: Step, to: Step): State {
    s.(step := to, broken := s.broken || s.step != from)
  }

  /** Removing a callback; the steps that do so wait while it is entered. */
  function Reset(c: Callback): Callback {
    if c.Absent? then Absent else Removed
  }

  /** The destructor of the state. */
  function DeleteState(s: State): State {
    var s1 :=
      if s.step.Created? then StepFromTo(s, Created, Deleted)
      else if !s.step.Deleted? then StepFromTo(s, Future, Deleted)
      else s;
    s1.(deletions := s.deletions + 1, scope := Reset(s.scope))
  }

  function Become(s: State, who: Owner, c: Completing): State {
    if who.Operation? then s.(op := OpCompleting(c)) else s.(con := ConCompleting(c))
  }

  function CompletionStep(s: State, l: Label): State
    requires CompletionEnabled(s, l)
  {
    match l
    case Take(who) => Become(s, who, Locking).(forward := Reset(s.forward))
    case Lock(who) => Become(s, who, Checking).(mutex := who)
    case Check(who) =>
      Become(s, who, Calling)
        .(mutex := Nobody, broken := s.broken || s.noFuture || !s.step.Future? || !s.data,
          signal := if s.asked then Stopped else Result(s.result))
    case Call(who) => Become(s, who, Relocking).(completions := s.completions + 1)
    case Relock(who) => Become(s, who, Unlocking).(mutex := who)
    case Unlock(who) => Become(s, who, Deleting).(mutex := Nobody)
    case Delete(who) =>
      var s1 := DeleteState(s);
      if who.Operation? then s1.(op := OpDone) else s1.(con := Finished)
    case _ => s
  }

  function OpStep(s: State, l: Label): State {
    match l
    case Start => s.(op := Running)
    case OpLock => s.(op := Storing, mutex := Operation)
    case Store(result) => s.(op := Collecting, data := true, result := result)
    case Collect => s.(op := Unscoping, collected := s.subscribed, subscribed := false)
    case ResetScope => s.(op := Deciding, scope := Reset(s.scope))
    case Decide =>
      if s.noFuture then StepFromTo(s, NoFuture, Deleted).(op := Handing) else s.(op := Releasing)
    case HandOver => s.(op := SelfDeleting, mutex := Nobody)
    case SelfDelete => DeleteState(s.(noFuture := false)).(op := OpDone)
    case Release => s.(op := Notifying, mutex := Nobody)
    case Notify => s.(op := if s.collected then OpCompleting(Taking) else OpDone)
    case _ => s
  }

  function ConStep(s: State, l: Label): State {
    match l
    case ConnectThrows => s.(con := Failing)
    case FailDelete => DeleteState(s).(con := Failed)
    case Construct => s.(con := WrapLocking)
    case WrapLock => s.(con := WrapHolding, mutex := Consumer)
    case Wrap => StepFromTo(s, Created, Future).(con := Owning, mutex := Nobody)
    case Connect => s.(con := Connected, forward := Armed)
    case Drop => s.(con := DropLocking)
    case DropLock => s.(con := DropHolding, mutex := Consumer)
    case DropDecide =>
      if s.data then s.(con := Unforwarding, mutex := Nobody)
      else StepFromTo(s, Future, NoFuture).(con := Leaving, noFuture := true, mutex := Nobody)
    case ResetDropped => s.(con := DropDeleting, forward := Reset(s.forward))
    case DropDelete => DeleteState(s).(con := Dropped)
    case ResetAbandoned => s.(con := Abandoned, forward := Reset(s.forward))
    case StartOp => s.(con := StartLocking)
    case StartLock => s.(con := StartHolding, mutex := Consumer)
    case StartDecide =>
      if s.data then s.(con := ConCompleting(Taking), mutex := Nobody)
      else s.(con := Waiting, subscribed := true, mutex := Nobody)
    case Observe => s.(con := Finished)
    case _ => s
  }

  /** A stop callback requests stop of the source in the state. */
  function CallbackStep(s: State, l: Label): State {
    match l
    case StopReceiver => s.(asked := true)
    case EnterForward => s.(forward := Entered)
    case UseForward => s.(forward := Ran)
    case EnterScope => s.(scope := Entered)
    case UseScope => s.(scope := Ran)
    case _ => s
  }

  function Next(s: State, l: Label): State
    requires Enabled(s, l)
  {
    if InCompletion(l) then CompletionStep(s, l)
    else if InCallback(l) then CallbackStep(s, l)
    else if OpEnabled(s, l) then OpStep(s, l) else ConStep(s, l)
  }

  /**
   Whether the step reads or writes the shared state. A request of stop accesses the source in the state several
   times, and `UseForward` and `UseScope` stand for the last of these. Nothing else happens between them: the
   operation listens to the token of the scope, so no callback is ever registered with this source.
   */
  predicate TouchesState(l: Label) {
    !l.Call? && !l.Connect? && !l.Drop? && !l.StartOp? && !l.Notify? && !l.Observe? && !l.ConnectThrows?
    && !l.Construct? && !l.Take? && !l.ResetDropped? && !l.ResetAbandoned? && !l.EnterForward?
    && !l.StopReceiver?
  }

  // ----- the invariant

  predicate Holds(c: Completing) {
    c.Checking? || c.Unlocking?
  }

  ghost predicate MutexOk(s: State) {
    && (s.mutex.Operation? <==>
          s.op.Storing? || s.op.Collecting? || s.op.Unscoping? || s.op.Deciding? || s.op.Handing? || s.op.Releasing?
          || (s.op.OpCompleting? && Holds(s.op.c)))
    && (s.mutex.Consumer? <==>
          s.con.WrapHolding? || s.con.DropHolding? || s.con.StartHolding? || (s.con.ConCompleting? && Holds(s.con.c)))
  }

  /** The operation has let go of the mutex, and nobody had subscribed. */
  predicate OpIsThrough(s: State) {
    (s.op.Notifying? && !s.collected) || s.op.OpDone?
  }

  predicate BeforeStore(op: OpPc) {
    op.Unstarted? || op.Running? || op.Storing?
  }

  /** The operation holds the mutex and has yet to see whether it owns the state. */
  predicate Dispatching(op: OpPc) {
    op.Collecting? || op.Unscoping? || op.Deciding?
  }

  predicate HasCalled(c: Completing) {
    c.Relocking? || c.Unlocking? || c.Deleting?
  }

  /** The future or its operation owns the state. */
  predicate ConsumerOwns(con: ConPc) {
    con.Owning? || con.Connected? || con.DropLocking? || con.DropHolding? || con.StartLocking? || con.StartHolding?
  }

  /** The state owns itself until the operation deletes it. */
  ghost predicate HandedOver(s: State) {
    && (s.noFuture <==> !s.op.OpDone?)
    && (BeforeStore(s.op) || Dispatching(s.op) || s.op.Handing? || s.op.SelfDeleting? || s.op.OpDone?)
    && (s.step.NoFuture? <==> BeforeStore(s.op) || Dispatching(s.op))
    && (s.step.Deleted? || s.step.NoFuture?)
    && s.deletions == if s.op.OpDone? then 1 else 0
  }

  ghost predicate OwnershipOk(s: State) {
    match s.con
    case Failing => s.op.Unstarted? && s.step.Created? && s.deletions == 0
    case Failed => s.op.Unstarted? && s.step.Deleted? && s.deletions == 1
    case Unforwarding => OpIsThrough(s) && s.step.Future? && s.deletions == 0
    case DropDeleting => OpIsThrough(s) && s.step.Future? && s.deletions == 0
    case Dropped => OpIsThrough(s) && s.step.Deleted? && s.deletions == 1
    case Leaving => HandedOver(s)
    case Abandoned => HandedOver(s)
    case Waiting =>
      && (s.subscribed <==> BeforeStore(s.op) || s.op.Collecting?)
      && (s.collected <==> !s.subscribed)
      && (if s.op.OpDone? then s.step.Deleted? && s.deletions == 1 else s.step.Future? && s.deletions == 0)
      && !s.op.Handing? && !s.op.SelfDeleting?
      && s.completions == if s.op.OpDone? || (s.op.OpCompleting? && HasCalled(s.op.c)) then 1 else 0
    case ConCompleting(c) =>
      && OpIsThrough(s) && s.step.Future? && s.deletions == 0
      && s.completions == if HasCalled(c) then 1 else 0
    case Finished =>
      && s.completions == 1
      && (OpIsThrough(s) || (s.op.OpCompleting? && HasCalled(s.op.c)))
      && (if s.op.OpCompleting? then s.step.Future? && s.deletions == 0 else s.step.Deleted? && s.deletions == 1)
    case _ =>
      && s.step == (if ConsumerOwns(s.con) then Future else Created)
      && s.deletions == 0 && !s.op.Handing? && !s.op.SelfDeleting?
      && (s.con.Constructing? || !s.op.Unstarted?)
  }

  ghost predicate FlagsOk(s: State) {
    && !s.broken
    && (s.data <==> !BeforeStore(s.op))
    && (s.noFuture ==> s.con.Leaving? || s.con.Abandoned?)
    && (s.subscribed ==> s.con.Waiting?)
    && (s.collected ==> s.con.Waiting? || s.con.Finished?)
    && (s.op.OpCompleting? ==> s.con.Waiting? || s.con.Finished?)
    && (s.op.Unstarted? ==> s.con.Constructing? || s.con.Failing? || s.con.Failed?)
    && (s.completions > 0 ==> s.con.Waiting? || s.con.ConCompleting? || s.con.Finished?)
  }

  predicate IsLive(c: Callback) {
    c.Armed? || c.Entered? || c.Ran?
  }

  /** The consumer's callback lives from `Connect` to the destruction of the operation or to its completion. */
  ghost predicate ForwardOk(s: State) {
    && (s.con.Constructing? || s.con.WrapLocking? || s.con.WrapHolding? || s.con.Owning? ==> s.forward.Absent?)
    && (s.con.Failing? || s.con.Failed? ==> s.forward.Absent?)
    && (s.con.DropDeleting? || s.con.Dropped? || s.con.Abandoned? || s.con.Finished? ==> !IsLive(s.forward))
    && (s.con.ConCompleting? && !s.con.c.Taking? ==> !IsLive(s.forward))
    && (s.con.Waiting? && (s.op.OpDone? || (s.op.OpCompleting? && !s.op.c.Taking?)) ==> !IsLive(s.forward))
  }

  /** The state's own callback lives until the result is dispatched. */
  ghost predicate ScopeOk(s: State) {
    && !s.scope.Absent?
    && (s.scope.Removed? <==> s.con.Failed? || !(BeforeStore(s.op) || s.op.Collecting? || s.op.Unscoping?))
  }

  ghost predicate Inv(s: State) {
    MutexOk(s) && OwnershipOk(s) && FlagsOk(s) && ForwardOk(s) && ScopeOk(s)
  }

  ghost predicate Core(s: State) {
    MutexOk(s) && OwnershipOk(s) && FlagsOk(s)
  }

  // ----- every step keeps it

  predicate OpBegins(l: Label) {
    l.Start? || l.OpLock? || l.Store? || l.Collect? || l.ResetScope?
  }

  predicate MakesFuture(l: Label) {
    l.ConnectThrows? || l.FailDelete? || l.Construct? || l.WrapLock? || l.Wrap? || l.Connect?
  }

  predicate DropsFuture(l: Label) {
    l.Drop? || l.DropLock? || l.DropDecide? || l.ResetDropped? || l.DropDelete? || l.ResetAbandoned?
  }

  predicate BeforeCall(l: Label) {
    l.Take? || l.Lock? || l.Check? || l.Call?
  }

  lemma OpBeginsKeeps(s: State, l: Label)
    requires Core(s) && OpEnabled(s, l) && OpBegins(l)
    ensures Core(OpStep(s, l))
  {
  }

  lemma OpEndsKeeps(s: State, l: Label)
    requires Core(s) && OpEnabled(s, l) && !OpBegins(l)
    ensures Core(OpStep(s, l))
  {
  }

  lemma MakesFutureKeeps(s: State, l: Label)
    requires Core(s) && ConEnabled(s, l) && MakesFuture(l)
    ensures Core(ConStep(s, l))
  {
  }

  lemma DropsFutureKeeps(s: State, l: Label)
    requires Core(s) && ConEnabled(s, l) && DropsFuture(l)
    ensures Core(ConStep(s, l))
  {
  }

  lemma StartsFutureKeeps(s: State, l: Label)
    requires Core(s) && ConEnabled(s, l) && !MakesFuture(l) && !DropsFuture(l)
    ensures Core(ConStep(s, l))
  {
  }

  lemma OnOperationBeforeCallKeeps(s: State, l: Label)
    requires Core(s) && CompletionEnabled(s, l) && l.who.Operation? && BeforeCall(l)
    ensures Core(CompletionStep(s, l))
  {
  }

  lemma OnOperationAfterCallKeeps(s: State, l: Label)
    requires Core(s) && CompletionEnabled(s, l) && l.who.Operation? && !BeforeCall(l)
    ensures Core(CompletionStep(s, l))
  {
  }

  lemma OnConsumerBeforeCallKeeps(s: State, l: Label)
    requires Core(s) && CompletionEnabled(s, l) && !l.who.Operation? && BeforeCall(l)
    ensures Core(CompletionStep(s, l))
  {
  }

  lemma OnConsumerAfterCallKeeps(s: State, l: Label)
    requires Core(s) && CompletionEnabled(s, l) && !l.who.Operation? && !BeforeCall(l)
    ensures Core(CompletionStep(s, l))
  {
  }

  lemma CallbackSparesCore(s: State, l: Label)
    requires CallbackEnabled(s, l)
    ensures var u := CallbackStep(s, l); u == s.(forward := u.forward, scope := u.scope, asked := u.asked)
  {
    match l
    case StopReceiver =>
    case EnterForward =>
    case UseForward =>
    case EnterScope =>
    case UseScope =>
  }

  lemma CoreFrame(s: State, u: State)
    requires Core(s) && u == s.(forward := u.forward, scope := u.scope, asked := u.asked)
    ensures Core(u)
  {
  }

  lemma CallbackKeeps(s: State, l: Label)
    requires Core(s) && CallbackEnabled(s, l)
    ensures Core(CallbackStep(s, l))
  {
    CallbackSparesCore(s, l);
    hide Core, CallbackStep, CallbackEnabled;
    CoreFrame(s, CallbackStep(s, l));
  }

  lemma CoreKeeps(s: State, l: Label)
    requires Core(s) && Enabled(s, l)
    ensures Core(Next(s, l))
  {
    hide Core, CompletionStep, OpStep, ConStep, CallbackStep, OpEnabled, ConEnabled, CompletionEnabled;
    if InCompletion(l) {
      if l.who.Operation? {
        if BeforeCall(l) { OnOperationBeforeCallKeeps(s, l); } else { OnOperationAfterCallKeeps(s, l); }
      } else {
        if BeforeCall(l) { OnConsumerBeforeCallKeeps(s, l); } else { OnConsumerAfterCallKeeps(s, l); }
      }
    } else if InCallback(l) {
      CallbackKeeps(s, l);
    } else if OpEnabled(s, l) {
      if OpBegins(l) { OpBeginsKeeps(s, l); } else { OpEndsKeeps(s, l); }
    } else {
      if MakesFuture(l) {
        MakesFutureKeeps(s, l);
      } else if DropsFuture(l) {
        DropsFutureKeeps(s, l);
      } else {
        StartsFutureKeeps(s, l);
      }
    }
  }

  lemma OpKeepsCallbacks(s: State, l: Label)
    requires Inv(s) && OpEnabled(s, l)
    ensures ForwardOk(OpStep(s, l)) && ScopeOk(OpStep(s, l))
  {
    hide MutexOk;
  }

  lemma ConKeepsCallbacks(s: State, l: Label)
    requires Inv(s) && ConEnabled(s, l)
    ensures ForwardOk(ConStep(s, l)) && ScopeOk(ConStep(s, l))
  {
    hide MutexOk;
  }

  lemma BeforeCallKeepsCallbacks(s: State, l: Label)
    requires Inv(s) && CompletionEnabled(s, l) && BeforeCall(l)
    ensures ForwardOk(CompletionStep(s, l)) && ScopeOk(CompletionStep(s, l))
  {
    hide MutexOk;
    match l
    case Take(_) =>
    case Lock(_) =>
    case Check(_) =>
    case Call(_) =>
  }

  lemma AfterCallKeepsCallbacks(s: State, l: Label)
    requires Inv(s) && CompletionEnabled(s, l) && !BeforeCall(l)
    ensures ForwardOk(CompletionStep(s, l)) && ScopeOk(CompletionStep(s, l))
  {
    hide MutexOk;
    match l
    case Relock(_) =>
    case Unlock(_) =>
    case Delete(_) =>
  }

  lemma CompletionKeepsCallbacks(s: State, l: Label)
    requires Inv(s) && CompletionEnabled(s, l)
    ensures ForwardOk(CompletionStep(s, l)) && ScopeOk(CompletionStep(s, l))
  {
    hide Inv, CompletionEnabled, CompletionStep, ForwardOk, ScopeOk;
    if BeforeCall(l) {
      BeforeCallKeepsCallbacks(s, l);
    } else {
      AfterCallKeepsCallbacks(s, l);
    }
  }

  lemma CallbacksKeepCallbacks(s: State, l: Label)
    requires ForwardOk(s) && ScopeOk(s) && CallbackEnabled(s, l)
    ensures ForwardOk(CallbackStep(s, l)) && ScopeOk(CallbackStep(s, l))
  {
  }

  lemma StepKeeps(s: State, l: Label)
    requires Inv(s) && Enabled(s, l)
    ensures Inv(Next(s, l))
  {
    CoreKeeps(s, l);
    hide MutexOk, OwnershipOk, FlagsOk, ForwardOk, ScopeOk, OpStep, ConStep, CompletionStep, CallbackStep;
    if InCompletion(l) {
      CompletionKeepsCallbacks(s, l);
    } else if InCallback(l) {
      CallbacksKeepCallbacks(s, l);
    } else if OpEnabled(s, l) {
      OpKeepsCallbacks(s, l);
    } else {
      ConKeepsCallbacks(s, l);
    }
  }
}
