/** Which signal the receiver of a started future gets, and that stop callbacks under way are waited for. */
module FutureSignals {
  import opened FutureProtocol
  import opened FutureRuns

  /** What the steps do to the result and to the choice of the signal. */
  ghost predicate Chooses(s: State, l: Label, u: State) {
    && (u.asked <==> s.asked || l.StopReceiver?)
    && (if l.Store? then u.data && u.result == l.result else u.data == s.data && u.result == s.result)
    && (if l.Check? then u.signal == if s.asked then Stopped else Result(s.result) else u.signal == s.signal)
  }

  lemma OpChooses(s: State, l: Label)
    requires OpEnabled(s, l)
    ensures Chooses(s, l, OpStep(s, l))
    ensures !OpStep(s, l).op.OpCompleting? || OpStep(s, l).op.c.Taking?
  {
    hide Reset;
    match l
    case Start =>
    case OpLock =>
    case Store(_) =>
    case Collect =>
    case ResetScope =>
    case Decide =>
    case HandOver =>
    case SelfDelete =>
    case Release =>
    case Notify =>
    case _ =>
  }

  lemma ConChooses(s: State, l: Label)
    requires ConEnabled(s, l)
    ensures Chooses(s, l, ConStep(s, l))
    ensures !ConStep(s, l).con.ConCompleting? || ConStep(s, l).con.c.Taking?
  {
    hide Reset;
    match l
    case ConnectThrows =>
    case FailDelete =>
    case Construct =>
    case WrapLock =>
    case Wrap =>
    case Connect =>
    case Drop =>
    case DropLock =>
    case DropDecide =>
    case ResetDropped =>
    case DropDelete =>
    case ResetAbandoned =>
    case StartOp =>
    case StartLock =>
    case StartDecide =>
    case Observe =>
    case _ =>
  }

  lemma DeleteSpares(s: State)
    ensures DeleteState(s).data == s.data && DeleteState(s).result == s.result
    ensures DeleteState(s).asked == s.asked && DeleteState(s).signal == s.signal
  {
  }

  lemma CompletionChooses(s: State, l: Label)
    requires CompletionEnabled(s, l)
    ensures Chooses(s, l, CompletionStep(s, l))
  {
    DeleteSpares(s);
    BecomeKeeps(s, l.who);
    hide Reset, At, DeleteState, Become;
    match l
    case Take(_) =>
    case Lock(_) =>
    case Check(_) =>
    case Call(_) =>
    case Relock(_) =>
    case Unlock(_) =>
    case Delete(_) =>
  }

  lemma CallbackChooses(s: State, l: Label)
    requires CallbackEnabled(s, l)
    ensures Chooses(s, l, CallbackStep(s, l))
    ensures CallbackStep(s, l).op == s.op && CallbackStep(s, l).con == s.con
  {
    match l
    case StopReceiver =>
    case EnterForward =>
    case UseForward =>
    case EnterScope =>
    case UseScope =>
  }

  lemma ChoosesInStep(s: State, l: Label)
    requires Enabled(s, l)
    ensures Chooses(s, l, Next(s, l))
  {
    hide Chooses, OpStep, ConStep, CompletionStep, CallbackStep;
    if InCompletion(l) {
      CompletionChooses(s, l);
    } else if InCallback(l) {
      CallbackChooses(s, l);
    } else if OpEnabled(s, l) {
      OpChooses(s, l);
    } else {
      ConChooses(s, l);
    }
  }

  /** Only one of the threads completes a started future. */
  lemma OneCompletes(s: State)
    requires FlagsOk(s)
    ensures !(s.op.OpCompleting? && s.con.ConCompleting?)
  {
  }

  lemma CallingInCompletion(s: State, l: Label, who: Owner)
    requires FlagsOk(s) && CompletionEnabled(s, l) && At(CompletionStep(s, l), who, Calling)
    ensures l == Check(who) || (At(s, who, Calling) && !l.Check?)
  {
    OneCompletes(s);
    hide FlagsOk, Reset;
    match l
    case Take(_) =>
    case Lock(_) =>
    case Check(_) =>
    case Call(_) =>
    case Relock(_) =>
    case Unlock(_) =>
    case Delete(_) =>
  }

  lemma CallingInStep(s: State, l: Label, who: Owner)
    requires Inv(s) && Enabled(s, l) && At(Next(s, l), who, Calling)
    ensures l == Check(who) || (At(s, who, Calling) && !l.Check?)
  {
    hide MutexOk, OwnershipOk, FlagsOk, ForwardOk, ScopeOk, OpStep, ConStep, CompletionStep, CallbackStep;
    hide OpEnabled, ConEnabled, CompletionEnabled, CallbackEnabled;
    if InCompletion(l) {
      CallingInCompletion(s, l, who);
    } else if InCallback(l) {
      CallbackChooses(s, l);
    } else if OpEnabled(s, l) {
      OpMovesOn(s, l);
      OpChooses(s, l);
    } else {
      ConSparesOp(s, l);
      ConChooses(s, l);
    }
  }

  lemma UnaskedAtFirst(states: seq<State>, labels: seq<Label>)
    requires IsRun(states, labels)
    ensures !states[0].asked && !states[0].data && forall who :: !At(states[0], who, Calling)
  {
  }

  lemma StepOfRun(states: seq<State>, labels: seq<Label>, k: nat)
    requires IsRun(states, labels) && k + 1 < |states|
    ensures |states| == |labels| + 1
    ensures Inv(states[k]) && Enabled(states[k], labels[k]) && states[k + 1] == Next(states[k], labels[k])
  {
    RunsAreSafe(states, labels, k);
  }

  lemma {:induction false} AskedExactly(states: seq<State>, labels: seq<Label>, k: nat)
    requires IsRun(states, labels) && k < |states|
    ensures states[k].asked <==> exists j :: 0 <= j < k && labels[j].StopReceiver?
  {
    hide IsRun, Next, Enabled, Inv;
    if k == 0 {
      UnaskedAtFirst(states, labels);
    } else {
      StepOfRun(states, labels, k - 1);
      ChoosesInStep(states[k - 1], labels[k - 1]);
      AskedExactly(states, labels, k - 1);
    }
  }

  lemma {:induction false} StoredSince(states: seq<State>, labels: seq<Label>, k: nat) returns (m: nat)
    requires IsRun(states, labels) && k < |states| && states[k].data
    ensures m < k && labels[m].Store? && labels[m].result == states[k].result
  {
    hide IsRun, Next, Enabled, Inv;
    if k == 0 {
      UnaskedAtFirst(states, labels);
    } else {
      StepOfRun(states, labels, k - 1);
      ChoosesInStep(states[k - 1], labels[k - 1]);
      if labels[k - 1].Store? {
        m := k - 1;
      } else {
        m := StoredSince(states, labels, k - 1);
      }
    }
  }

  lemma {:induction false} CheckedSince(states: seq<State>, labels: seq<Label>, k: nat, who: Owner) returns (j: nat)
    requires IsRun(states, labels) && k < |states| && At(states[k], who, Calling)
    ensures j < k && labels[j] == Check(who)
    ensures states[k].signal == if states[j].asked then Stopped else Result(states[j].result)
  {
    hide IsRun, Next, Enabled, Inv, At;
    if k == 0 {
      UnaskedAtFirst(states, labels);
    } else {
      StepOfRun(states, labels, k - 1);
      ChoosesInStep(states[k - 1], labels[k - 1]);
      CallingInStep(states[k - 1], labels[k - 1], who);
      if labels[k - 1] == Check(who) {
        j := k - 1;
      } else {
        j := CheckedSince(states, labels, k - 1, who);
      }
    }
  }

  /**
   The receiver of a started future is stopped if its token has been stopped by the time `__complete_` looks, and
   otherwise gets the result that the operation has stored.
   */
  lemma SentExactly(states: seq<State>, labels: seq<Label>, k: nat) returns (j: nat, m: nat)
    requires IsRun(states, labels) && k < |labels| && labels[k].Call?
    ensures j < k && labels[j] == Check(labels[k].who) && m < j && labels[m].Store?
    ensures states[k].signal ==
            if exists n :: 0 <= n < j && labels[n].StopReceiver? then Stopped else Result(labels[m].result)
  {
    CallsAt(states[k], labels[k]);
    j := CheckedSince(states, labels, k, labels[k].who);
    AskedExactly(states, labels, j);
    RunsAreSafe(states, labels, j);
    RunsAreSafe(states, labels, j + 1);
    ChecksData(states[j], labels[j]);
    m := StoredSince(states, labels, j);
  }

  /** A stop request is forwarded only after the token of the receiver has been stopped. */
  lemma ForwardsOnlyIfAsked(states: seq<State>, labels: seq<Label>, k: nat) returns (j: nat)
    requires IsRun(states, labels) && k < |labels| && labels[k].EnterForward?
    ensures j < k && labels[j].StopReceiver?
  {
    assert states[k].asked;
    hide Next, Enabled, Init;
    AskedExactly(states, labels, k);
    j :| 0 <= j < k && labels[j].StopReceiver?;
  }

  lemma CallsAt(s: State, l: Label)
    requires Enabled(s, l) && l.Call?
    ensures At(s, l.who, Calling)
  {
  }

  lemma ChecksData(s: State, l: Label)
    requires Inv(s) && Enabled(s, l) && l.Check? && !Next(s, l).broken
    ensures s.data
  {
    hide Inv;
  }

  // ----- nobody deregisters a callback under way

  /** A callback that has been entered is there until its own last step. */
  ghost predicate Spares(s: State, l: Label, u: State) {
    && (s.forward.Entered? ==> u.forward.Entered? || l.UseForward?)
    && (s.scope.Entered? ==> u.scope.Entered? || l.UseScope?)
  }

  lemma OpSpares(s: State, l: Label)
    requires Inv(s) && OpEnabled(s, l)
    ensures Spares(s, l, OpStep(s, l))
  {
    hide MutexOk, OwnershipOk, FlagsOk;
    match l
    case Start =>
    case OpLock =>
    case Store(_) =>
    case Collect =>
    case ResetScope =>
    case Decide =>
    case HandOver =>
    case SelfDelete =>
    case Release =>
    case Notify =>
    case _ =>
  }

  lemma ConSparesCallbacks(s: State, l: Label)
    requires Inv(s) && ConEnabled(s, l)
    ensures Spares(s, l, ConStep(s, l))
  {
    hide MutexOk, OwnershipOk, FlagsOk;
    match l
    case ConnectThrows =>
    case FailDelete =>
    case Construct =>
    case WrapLock =>
    case Wrap =>
    case Connect =>
    case Drop =>
    case DropLock =>
    case DropDecide =>
    case ResetDropped =>
    case DropDelete =>
    case ResetAbandoned =>
    case StartOp =>
    case StartLock =>
    case StartDecide =>
    case Observe =>
    case _ =>
  }

  lemma DeleteMoves(s: State)
    ensures DeleteState(s).forward == s.forward && DeleteState(s).scope == Reset(s.scope)
  {
  }

  lemma CompletionSpares(s: State, l: Label)
    requires CompletionEnabled(s, l)
    ensures Spares(s, l, CompletionStep(s, l))
  {
    BecomeSpares(s, l.who);
    DeleteMoves(s);
    hide At, Become, DeleteState;
    match l
    case Take(_) =>
    case Lock(_) =>
    case Check(_) =>
    case Call(_) =>
    case Relock(_) =>
    case Unlock(_) =>
    case Delete(_) =>
  }

  lemma CallbackSpares(s: State, l: Label)
    requires CallbackEnabled(s, l)
    ensures Spares(s, l, CallbackStep(s, l))
  {
    match l
    case StopReceiver =>
    case EnterForward =>
    case UseForward =>
    case EnterScope =>
    case UseScope =>
  }

  lemma SparesInStep(s: State, l: Label)
    requires Inv(s) && Enabled(s, l)
    ensures Spares(s, l, Next(s, l))
  {
    hide Inv, Spares, OpStep, ConStep, CompletionStep, CallbackStep;
    if InCompletion(l) {
      CompletionSpares(s, l);
    } else if InCallback(l) {
      CallbackSpares(s, l);
    } else if OpEnabled(s, l) {
      OpSpares(s, l);
    } else {
      ConSparesCallbacks(s, l);
    }
  }

  /** So whoever deregisters the receiver's stop callback has waited for its end. */
  lemma {:induction false} ForwardEnds(states: seq<State>, labels: seq<Label>, j: nat, k: nat) returns (n: nat)
    requires IsRun(states, labels) && j < k < |states| && states[j].forward.Entered? && !states[k].forward.Entered?
    ensures j <= n < k && labels[n].UseForward?
  {
    hide IsRun, Next, Enabled, Inv;
    StepOfRun(states, labels, k - 1);
    SparesInStep(states[k - 1], labels[k - 1]);
    if states[k - 1].forward.Entered? {
      n := k - 1;
    } else {
      n := ForwardEnds(states, labels, j, k - 1);
    }
  }

  lemma {:induction false} ScopeEnds(states: seq<State>, labels: seq<Label>, j: nat, k: nat) returns (n: nat)
    requires IsRun(states, labels) && j < k < |states| && states[j].scope.Entered? && !states[k].scope.Entered?
    ensures j <= n < k && labels[n].UseScope?
  {
    hide IsRun, Next, Enabled, Inv;
    StepOfRun(states, labels, k - 1);
    SparesInStep(states[k - 1], labels[k - 1]);
    if states[k - 1].scope.Entered? {
      n := k - 1;
    } else {
      n := ScopeEnds(states, labels, j, k - 1);
    }
  }
}
