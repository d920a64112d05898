/** How timed operations end: which signal they get, what a stop request achieves, and that they do end. */
module TimedRuns {
  import opened TimedProtocol
  import opened TimedShutdown

  lemma StepOfRun(states: seq<State>, labels: seq<Label>, k: nat)
    requires IsRun(states, labels) && k + 1 < |states|
    ensures |states| == |labels| + 1
    ensures Inv(states[k]) && Enabled(states[k], labels[k]) && states[k + 1] == Next(states[k], labels[k])
  {
    RunsAreSafe(states, labels, k);
  }

  lemma RunLength(states: seq<State>, labels: seq<Label>)
    requires IsRun(states, labels)
    ensures |states| == |labels| + 1
  {
  }

  // ----- which signal is sent

  /** The timer of `i` has expired before step `k`, and no completion function has been called since. */
  ghost predicate JustExpired(labels: seq<Label>, k: nat, i: nat)
    requires k <= |labels|
  {
    exists j :: 0 <= j < k && labels[j] == Expire(i) && forall n :: j < n < k ==> labels[n] != FireNow
  }

  /** Step `m` calls the completion function for an expired timer, and that was the last command of `i`. */
  ghost predicate ExpiresLast(states: seq<State>, labels: seq<Label>, m: nat, i: nat)
    requires m < |labels| < |states|
  {
    labels[m] == FireNow && JustExpired(labels, m, i) && i in states[m].ops && Outstanding(states[m].ops[i]) == 1
  }

  /** The step after which the run loop is about to call a completion function of `i`. */
  predicate SetsFire(s: State, l: Label, i: nat) {
    l == Expire(i) || l == DrainOne(i) || (l.TakeCommand? && s.queue != [] && s.queue[0] == Stop(i))
  }

  lemma FireInStep(s: State, l: Label)
    requires Enabled(s, l)
    ensures l.FireNow? ==> s.run.Fire? && !Next(s, l).run.Fire?
    ensures s.run.Fire? && !l.FireNow? ==> Next(s, l).run == s.run && !l.Expire?
    ensures !s.run.Fire? && Next(s, l).run.Fire? ==>
              var i := Next(s, l).run.id;
              SetsFire(s, l, i) && (Next(s, l).run.signal.Value? <==> l == Expire(i))
    ensures l.Expire? ==> Next(s, l).run.Fire? && Next(s, l).run.id == l.i && Next(s, l).run.signal.Value?
  {
    if IsOpLabel(l) {
      assert Next(s, l).run == s.run;
    }
    hide OpStep, OpEnabled, Consume;
  }

  /** What the run loop is about to call has been set by one step, and the signal by whether that was an expiry. */
  lemma {:induction false} FireSince(states: seq<State>, labels: seq<Label>, k: nat) returns (j: nat)
    requires IsRun(states, labels) && k < |states| && states[k].run.Fire?
    ensures j < k && (states[k].run.signal.Value? <==> labels[j] == Expire(states[k].run.id))
    ensures !states[j].run.Fire?
    ensures forall n | j < n <= k :: states[n].run.Fire? && states[n].run.id == states[k].run.id
    ensures forall n | j < n < k :: labels[n] != FireNow
  {
    hide Next, Enabled;
    if k > 0 {
      hide Init, SetsFire;
      FireInStep(states[k - 1], labels[k - 1]);
      if states[k - 1].run.Fire? {
        j := FireSince(states, labels, k - 1);
      } else {
        j := k - 1;
      }
    }
  }

  /** So a value is about to be signalled exactly if the last thing that set it was an expiry. */
  lemma FireMeansExpiry(states: seq<State>, labels: seq<Label>, k: nat)
    requires IsRun(states, labels) && k < |labels| && labels[k] == FireNow
    ensures states[k].run.Fire?
    ensures forall i :: JustExpired(labels, k, i) <==> states[k].run.id == i && states[k].run.signal.Value?
  {
    FireInStep(states[k], labels[k]);
    var j := FireSince(states, labels, k);
    hide Next, Enabled, Init;
    forall i | JustExpired(labels, k, i)
      ensures states[k].run.id == i && labels[j] == Expire(i)
    {
      var e :| 0 <= e < k && labels[e] == Expire(i) && forall n :: e < n < k ==> labels[n] != FireNow;
      FireInStep(states[e], labels[e]);
      assert states[e + 1].run.Fire? && states[e + 1].run.id == i;
      if e < j {
        StaysFire(states, labels, e + 1, j);
      }
    }
  }

  lemma {:induction false} StaysFire(states: seq<State>, labels: seq<Label>, j: nat, k: nat)
    requires IsRun(states, labels) && j <= k < |states| && states[j].run.Fire?
    requires forall n :: j <= n < k ==> labels[n] != FireNow
    ensures states[k].run == states[j].run
  {
    hide Next, Enabled, Init;
    if j < k {
      StaysFire(states, labels, j, k - 1);
      FireInStep(states[k - 1], labels[k - 1]);
    }
  }

  /** The run loop is about to call a completion function of `i`. */
  predicate Fires(r: RunPc, i: nat) {
    r.Fire? && r.id == i
  }

  /** What a step of the run loop does to an operation: a command moves on, or a completion function is called. */
  ghost predicate LoopMoves(s: State, l: Label, i: nat, before: Op, after: Op) {
    || after == before
    || (l.TakeCommand? && before.schedule.Queued? && after == before.(schedule := InHeap))
    || (l.TakeCommand? && before.stop.Queued? && after == before.(stop := Taken))
    || (l.TakeCommand? && before.stop.Queued? && before.schedule.InHeap?
        && after == before.(schedule := Taken, stop := Taken))
    || ((l.Expire? || l.DrainOne?) && before.schedule.InHeap? && after == before.(schedule := Taken))
    || (l.FireNow? && Fires(s.run, i) && before.schedule.Taken?
        && after == Consume(before.(schedule := Consumed), Runner, s.run.signal))
    || (l.AckNow? && before.stop.Taken? && after == Consume(before.(stop := Consumed), Runner, Stopped))
  }

  lemma LoopStepMoves(s: State, l: Label, i: nat)
    requires Inv(s) && Enabled(s, l) && !IsOpLabel(l) && i in s.ops
    ensures i in Next(s, l).ops && LoopMoves(s, l, i, s.ops[i], Next(s, l).ops[i])
    ensures l.FireNow? && Fires(s.run, i) ==>
              Next(s, l).ops[i] == Consume(s.ops[i].(schedule := Consumed), Runner, s.run.signal)
  {
    assert l.TakeCommand? ==> s.queue[0] in s.queue;
    hide OpStep, OpEnabled, OpsOk, Consume;
  }

  lemma SameOps(s: State, l: Label)
    requires Enabled(s, l)
    ensures Next(s, l).ops.Keys == s.ops.Keys
    ensures IsOpLabel(l) ==> forall i | i in s.ops && i != l.i :: Next(s, l).ops[i] == s.ops[i]
  {
    hide OpStep, OpEnabled, Consume;
  }

  /** What becomes of the completion of an operation in a step of its own, or of the run loop. */
  ghost predicate CompletionMoves(s: State, l: Label, i: nat, before: Op, after: Op) {
    && (!before.completion.Pending? ==>
          !after.completion.Pending? && after.completion.signal == before.completion.signal && Outstanding(before) == 0)
    && (before.completion.Pending? && !after.completion.Pending? ==>
          (after.completion.signal.Value? <==> l.FireNow? && Fires(s.run, i) && s.run.signal.Value?)
          && (l.FireNow? ==> Outstanding(before) == 1))
    && (l.FireNow? && Fires(s.run, i) && Outstanding(before) == 1 ==> !after.completion.Pending?)
  }

  lemma OwnCompletionMoves(s: State, l: Label)
    requires Enabled(s, l) && IsOpLabel(l) && OpInv(s.ops[l.i])
    ensures CompletionMoves(s, l, l.i, s.ops[l.i], Next(s, l).ops[l.i])
  {
    assert Next(s, l).ops[l.i] == OpStep(s.ops[l.i], s.inFlight < 0, l);
    hide Next;
    match l
    case Emplace(_) =>
    case Exchange(_) =>
    case SendSchedule(_) =>
    case PushSchedule(_) =>
    case RefuseSchedule(_) =>
    case EnterCallback(_) =>
    case Raise(_) =>
    case SendStop(_) =>
    case PushStop(_) =>
    case RefuseStop(_) =>
    case LeaveCallback(_) =>
    case Reset(_) =>
    case Complete(_) =>
    case Destroy(_) =>
  }

  lemma CompletionInStep(s: State, l: Label, i: nat)
    requires Inv(s) && Enabled(s, l) && i in Next(s, l).ops
    ensures i in s.ops && CompletionMoves(s, l, i, s.ops[i], Next(s, l).ops[i])
  {
    SameOps(s, l);
    assert OpInv(s.ops[i]);
    if IsOpLabel(l) {
      OwnCompletionMoves(s, l);
      hide *;
    } else {
      LoopStepMoves(s, l, i);
      LoopCompletionMoves(s, l, i, s.ops[i], Next(s, l).ops[i]);
    }
  }

  lemma LoopCompletionMoves(s: State, l: Label, i: nat, before: Op, after: Op)
    requires OpInv(before) && LoopMoves(s, l, i, before, after) && !IsOpLabel(l)
    requires l.FireNow? && Fires(s.run, i) ==>
               before.schedule.Taken? && after == Consume(before.(schedule := Consumed), Runner, s.run.signal)
    ensures CompletionMoves(s, l, i, before, after)
  {
  }

  ghost predicate HasExpired(states: seq<State>, labels: seq<Label>, k: nat, i: nat)
    requires k <= |labels| < |states|
  {
    exists m :: 0 <= m < k && ExpiresLast(states, labels, m, i)
  }

  lemma ExpiresInStep(states: seq<State>, labels: seq<Label>, k: nat, i: nat)
    requires IsRun(states, labels) && k < |labels| && i in states[k + 1].ops
    ensures i in states[k].ops
    ensures var before, after := states[k].ops[i].completion, states[k + 1].ops[i].completion;
      && (!before.Pending? ==>
            !after.Pending? && after.signal == before.signal && !ExpiresLast(states, labels, k, i))
      && (before.Pending? ==> (ExpiresLast(states, labels, k, i) <==> !after.Pending? && after.signal.Value?))
  {
    var s, l := states[k], labels[k];
    RunsAreSafe(states, labels, k);
    CompletionInStep(s, l, i);
    if l == FireNow {
      FireMeansExpiry(states, labels, k);
    }
    hide Next, Enabled, Init, Inv, Outstanding, JustExpired;
  }

  /** A receiver gets a value exactly if its timer has expired and no other command was outstanding then. */
  lemma {:induction false} SentExactly(states: seq<State>, labels: seq<Label>, k: nat, i: nat)
    requires IsRun(states, labels) && k < |states| && i in states[k].ops
    ensures HasExpired(states, labels, k, i) <==>
            !states[k].ops[i].completion.Pending? && states[k].ops[i].completion.signal.Value?
  {
    if k == 0 {
      assert states[0].ops[i] == NEW_OP;
    } else {
      hide Next, Enabled, Init, ExpiresLast;
      ExpiresInStep(states, labels, k - 1, i);
      SentExactly(states, labels, k - 1, i);
    }
  }

  // ----- what a stop request achieves

  /** The places of a command in the order in which it passes them. */
  function Stage(p: Place): nat {
    match p
    case NotSent => 0
    case Held => 1
    case Queued => 2
    case InHeap => 3
    case Taken => 4
    case Consumed => 5
  }

  /** Neither command ever goes back. */
  lemma StagesGrowInStep(s: State, l: Label, i: nat)
    requires Inv(s) && Enabled(s, l) && i in s.ops
    ensures i in Next(s, l).ops
    ensures Stage(Next(s, l).ops[i].schedule) >= Stage(s.ops[i].schedule)
    ensures Stage(Next(s, l).ops[i].stop) >= Stage(s.ops[i].stop)
  {
    SameOps(s, l);
    assert OpInv(s.ops[i]);
    hide Next, Enabled, Inv, OpInv;
    if IsOpLabel(l) {
      OwnStagesGrow(s, l);
    } else {
      LoopStepMoves(s, l, i);
    }
  }

  lemma OwnStagesGrow(s: State, l: Label)
    requires Enabled(s, l) && IsOpLabel(l) && OpInv(s.ops[l.i])
    ensures Stage(Next(s, l).ops[l.i].schedule) >= Stage(s.ops[l.i].schedule)
    ensures Stage(Next(s, l).ops[l.i].stop) >= Stage(s.ops[l.i].stop)
  {
    assert Next(s, l).ops[l.i] == OpStep(s.ops[l.i], s.inFlight < 0, l);
    hide Next;
    match l
    case Emplace(_) =>
    case Exchange(_) =>
    case SendSchedule(_) =>
    case PushSchedule(_) =>
    case RefuseSchedule(_) =>
    case EnterCallback(_) =>
    case Raise(_) =>
    case SendStop(_) =>
    case PushStop(_) =>
    case RefuseStop(_) =>
    case LeaveCallback(_) =>
    case Reset(_) =>
    case Complete(_) =>
    case Destroy(_) =>
  }

  lemma {:induction false} StagesGrow(states: seq<State>, labels: seq<Label>, j: nat, k: nat, i: nat)
    requires IsRun(states, labels) && j <= k < |states| && i in states[j].ops
    ensures i in states[k].ops
    ensures Stage(states[k].ops[i].schedule) >= Stage(states[j].ops[i].schedule)
    ensures Stage(states[k].ops[i].stop) >= Stage(states[j].ops[i].stop)
  {
    hide IsRun, Next, Enabled, Inv, Stage;
    if j < k {
      StepOfRun(states, labels, k - 1);
      StagesGrow(states, labels, j, k - 1, i);
      StagesGrowInStep(states[k - 1], labels[k - 1], i);
    }
  }

  /** The stop command of `i` is taken from the queue. */
  predicate TakesStop(s: State, l: Label, i: nat) {
    l.TakeCommand? && s.queue != [] && s.queue[0] == Stop(i)
  }

  lemma TakenStop(s: State, l: Label, i: nat)
    requires Inv(s) && Enabled(s, l) && TakesStop(s, l, i)
    ensures s.run.Loop? && i in s.ops && s.ops[i].stop.Queued? && i in Next(s, l).ops
    ensures Stage(Next(s, l).ops[i].stop) >= 4
    ensures Stage(s.ops[i].schedule) >= 3 ==> Stage(Next(s, l).ops[i].schedule) >= 4
  {
    assert s.queue[0] in s.queue;
    hide OpsOk;
  }

  lemma ExpiredTimer(s: State, l: Label, i: nat)
    requires Inv(s) && Enabled(s, l) && l == Expire(i)
    ensures s.run.Loop? && i in s.ops && s.ops[i].schedule.InHeap? && !s.ops[i].stop.Taken?
    ensures i in Next(s, l).ops && Next(s, l).ops[i].schedule.Taken?
    ensures Next(s, l).run.Fire? && Next(s, l).run.id == i
  {
    hide OpsOk, QueueOk;
  }

  lemma PendingWhileOut(s: State, i: nat)
    requires Inv(s) && i in s.ops
    ensures Outstanding(s.ops[i]) > 0 ==> s.ops[i].completion.Pending?
    ensures s.run.Fire? && s.run.id == i ==> s.ops[i].schedule.Taken?
  {
    assert OpInv(s.ops[i]);
  }

  /** If the timer was pending or had expired when the stop command was taken, no value is sent. */
  lemma StoppedInTime(states: seq<State>, labels: seq<Label>, j: nat, k: nat, i: nat)
    requires IsRun(states, labels) && j < k < |states| && TakesStop(states[j], labels[j], i) && i in states[j].ops
    requires Stage(states[j].ops[i].schedule) >= 3
    ensures !HasExpired(states, labels, k, i)
    ensures forall e | j < e < k :: labels[e] != Expire(i)
  {
    RunsAreSafe(states, labels, j);
    TakenStop(states[j], labels[j], i);
    assert states[j + 1] == Next(states[j], labels[j]);
    hide Next, Enabled, Init, Inv, Stage;
    forall e | j < e < k
      ensures labels[e] != Expire(i)
    {
      if labels[e] == Expire(i) {
        StagesGrow(states, labels, j + 1, e, i);
        AtExpiry(states, labels, e, i);
      }
    }
    if HasExpired(states, labels, k, i) {
      var m :| 0 <= m < k && ExpiresLast(states, labels, m, i);
      if m < j {
        SentExactly(states, labels, j, i);
        PendingWhileOut(states[j], i);
      } else {
        var e :| 0 <= e < m && labels[e] == Expire(i) && forall n :: e < n < m ==> labels[n] != FireNow;
        AtExpiry(states, labels, e, i);
        StaysFire(states, labels, e + 1, j);
      }
    }
  }

  lemma AtExpiry(states: seq<State>, labels: seq<Label>, e: nat, i: nat)
    requires IsRun(states, labels) && e < |labels| && labels[e] == Expire(i)
    ensures i in states[e].ops && Stage(states[e].ops[i].schedule) == 3 && !states[e].ops[i].stop.Taken?
    ensures states[e + 1].run.Fire? && states[e + 1].run.id == i
  {
    RunsAreSafe(states, labels, e);
    ExpiredTimer(states[e], labels[e], i);
  }

  /** The first call of a completion function from step `j` on, if there is one before `k`. */
  lemma {:induction false} NextFire(labels: seq<Label>, j: nat, k: nat) returns (m: nat)
    requires j <= k <= |labels|
    ensures j <= m <= k && (m < k ==> labels[m] == FireNow)
    ensures forall n | j <= n < m :: labels[n] != FireNow
    decreases k - j
  {
    if j == k || labels[j] == FireNow {
      m := j;
    } else {
      m := NextFire(labels, j + 1, k);
    }
  }

  /** If the stop command was taken before the command that it was to stop, an expiry still means a value. */
  lemma StopOvertook(states: seq<State>, labels: seq<Label>, j: nat, e: nat, k: nat, i: nat)
    requires IsRun(states, labels) && j < k < |states| && TakesStop(states[j], labels[j], i) && i in states[j].ops
    requires Stage(states[j].ops[i].schedule) < 3 && e < k && labels[e] == Expire(i)
    requires i in states[k].ops && !states[k].ops[i].completion.Pending?
    ensures HasExpired(states, labels, k, i)
  {
    RunsAreSafe(states, labels, j);
    TakenStop(states[j], labels[j], i);
    assert states[j + 1] == Next(states[j], labels[j]);
    AtExpiry(states, labels, e, i);
    hide IsRun, Next, Enabled, Inv;
    if e < j {
      StagesGrow(states, labels, e, j, i);
    }
    assert e > j;
    StagesGrow(states, labels, j + 1, e, i);
    ExpiresAlone(states, labels, e, k, i);
  }

  /** An expiry without a stop command outstanding leads to a value. */
  lemma ExpiresAlone(states: seq<State>, labels: seq<Label>, e: nat, k: nat, i: nat)
    requires IsRun(states, labels) && e < k < |states| && labels[e] == Expire(i)
    requires i in states[e].ops && Stage(states[e].ops[i].stop) >= 4
    requires i in states[k].ops && !states[k].ops[i].completion.Pending?
    ensures HasExpired(states, labels, k, i)
  {
    AtExpiry(states, labels, e, i);
    RunLength(states, labels);
    var m := NextFire(labels, e + 1, k);
    hide IsRun, Next, Enabled, Inv;
    StagesGrow(states, labels, e, m, i);
    StaysFire(states, labels, e + 1, m);
    RunsAreSafe(states, labels, m);
    PendingWhileOut(states[m], i);
    assert Outstanding(states[m].ops[i]) == 1;
    if m < k {
      assert ExpiresLast(states, labels, m, i);
    }
  }

  /**
   Once its stop command has been taken, a receiver gets a value if and only if the schedule command had not been
   taken before, and the timer expires all the same.
   */
  lemma StopTakenExactly(states: seq<State>, labels: seq<Label>, j: nat, k: nat, i: nat)
    requires IsRun(states, labels) && j < k < |states| && TakesStop(states[j], labels[j], i) && i in states[j].ops
    requires i in states[k].ops && !states[k].ops[i].completion.Pending?
    ensures states[k].ops[i].completion.signal.Value? <==>
            && Stage(states[j].ops[i].schedule) < Stage(InHeap)
            && exists e :: 0 <= e < k && labels[e] == Expire(i)
  {
    SentExactly(states, labels, k, i);
    hide Next, Enabled, Init, Inv, TakesStop;
    if Stage(states[j].ops[i].schedule) >= 3 {
      StoppedInTime(states, labels, j, k, i);
    } else if e :| 0 <= e < k && labels[e] == Expire(i) {
      StopOvertook(states, labels, j, e, k, i);
    }
  }

  // ----- when a stop is requested, and what for

  ghost predicate HasRaised(labels: seq<Label>, k: nat, i: nat)
    requires k <= |labels|
  {
    exists j :: 0 <= j < k && labels[j] == Raise(i)
  }

  /** Traces that the callback leaves when it raises the count. */
  predicate Marked(op: Op) {
    || !op.stop.NotSent? || op.start.Lost?
    || op.callback.CbSending? || op.callback.CbPushing? || op.callback.CbRefused? || op.callback.Leaving?
    || op.callback.Finished?
  }

  predicate NotRaised(c: CallbackPc) {
    c.Absent? || c.Registered? || c.Entered?
  }

  lemma MarkInStep(s: State, l: Label, i: nat)
    requires Inv(s) && Enabled(s, l) && i in s.ops
    ensures i in Next(s, l).ops
    ensures Marked(Next(s, l).ops[i]) ==> Marked(s.ops[i]) || l == Raise(i)
    ensures NotRaised(Next(s, l).ops[i].callback) ==> NotRaised(s.ops[i].callback) && l != Raise(i)
  {
    SameOps(s, l);
    assert OpInv(s.ops[i]);
    hide Next, Enabled, Inv, OpInv;
    if IsOpLabel(l) {
      OwnMarkInStep(s, l);
      OwnRaiseInStep(s, l);
    } else {
      LoopStepMoves(s, l, i);
    }
  }

  lemma OwnMarkInStep(s: State, l: Label)
    requires Enabled(s, l) && IsOpLabel(l) && OpInv(s.ops[l.i])
    ensures Marked(Next(s, l).ops[l.i]) ==> Marked(s.ops[l.i]) || l.Raise?
  {
    assert Next(s, l).ops[l.i] == OpStep(s.ops[l.i], s.inFlight < 0, l);
    hide Next;
    match l
    case Emplace(_) =>
    case Exchange(_) =>
    case SendSchedule(_) =>
    case PushSchedule(_) =>
    case RefuseSchedule(_) =>
    case EnterCallback(_) =>
    case Raise(_) =>
    case SendStop(_) =>
    case PushStop(_) =>
    case RefuseStop(_) =>
    case LeaveCallback(_) =>
    case Reset(_) =>
    case Complete(_) =>
    case Destroy(_) =>
  }

  lemma OwnRaiseInStep(s: State, l: Label)
    requires Enabled(s, l) && IsOpLabel(l) && OpInv(s.ops[l.i])
    ensures NotRaised(Next(s, l).ops[l.i].callback) ==> NotRaised(s.ops[l.i].callback) && !l.Raise?
  {
    assert Next(s, l).ops[l.i] == OpStep(s.ops[l.i], s.inFlight < 0, l);
    hide Next;
    match l
    case Emplace(_) =>
    case Exchange(_) =>
    case SendSchedule(_) =>
    case PushSchedule(_) =>
    case RefuseSchedule(_) =>
    case EnterCallback(_) =>
    case Raise(_) =>
    case SendStop(_) =>
    case PushStop(_) =>
    case RefuseStop(_) =>
    case LeaveCallback(_) =>
    case Reset(_) =>
    case Complete(_) =>
    case Destroy(_) =>
  }

  lemma UnmarkedAtFirst(states: seq<State>, labels: seq<Label>, i: nat)
    requires IsRun(states, labels) && i in states[0].ops
    ensures !Marked(states[0].ops[i])
  {
    assert states[0].ops[i] == NEW_OP;
  }

  lemma {:induction false} MarksAreTrue(states: seq<State>, labels: seq<Label>, k: nat, i: nat)
    requires IsRun(states, labels) && k < |states| && i in states[k].ops
    ensures i in states[0].ops
    ensures Marked(states[k].ops[i]) ==> HasRaised(labels, k, i)
    ensures NotRaised(states[k].ops[i].callback) ==> !HasRaised(labels, k, i)
  {
    hide IsRun, Next, Enabled, Inv, Marked, NotRaised;
    if k == 0 {
      UnmarkedAtFirst(states, labels, i);
    } else {
      StepOfRun(states, labels, k - 1);
      SameOps(states[k - 1], labels[k - 1]);
      MarksAreTrue(states, labels, k - 1, i);
      MarkInStep(states[k - 1], labels[k - 1], i);
    }
  }

  /** The start succeeds if and only if no stop request has come before its exchange. */
  lemma StartsExactly(states: seq<State>, labels: seq<Label>, k: nat, i: nat)
    requires IsRun(states, labels) && k < |labels| && labels[k] == Exchange(i)
    ensures i in states[k + 1].ops && (Won(states[k + 1].ops[i]) <==> !HasRaised(labels, k, i))
  {
    RunsAreSafe(states, labels, k);
    assert OpInv(states[k].ops[i]);
    MarksAreTrue(states, labels, k, i);
    hide QueueOk, HeapOk, RunOk, OpsOk;
  }

  /** A stop request sends a stop command if and only if the operation has started and is not yet complete. */
  lemma StopIsSent(states: seq<State>, labels: seq<Label>, k: nat, i: nat)
    requires IsRun(states, labels) && k < |labels| && labels[k] == Raise(i)
    ensures i in states[k].ops && i in states[k + 1].ops
    ensures states[k + 1].ops[i].stop.Held? <==> Won(states[k].ops[i]) && Outstanding(states[k].ops[i]) > 0
  {
    RunLength(states, labels);
    hide IsRun, Inv, Next, Enabled;
    StepOfRun(states, labels, k);
    RaiseInStep(states[k], labels[k], i);
  }

  lemma RaiseInStep(s: State, l: Label, i: nat)
    requires Inv(s) && Enabled(s, l) && l == Raise(i)
    ensures i in s.ops && i in Next(s, l).ops
    ensures Next(s, l).ops[i].stop.Held? <==> Won(s.ops[i]) && Outstanding(s.ops[i]) > 0
  {
    assert OpInv(s.ops[i]);
    hide Inv;
  }

  // ----- a callback under way is not left behind

  /** The callback returns, or completes the receiver itself. */
  predicate EndsCallback(s: State, l: Label, i: nat) {
    || l == LeaveCallback(i)
    || (l == Reset(i) && i in s.ops && s.ops[i].completion.Resetting? && s.ops[i].completion.who.Stopper?)
  }

  lemma RunningInStep(s: State, l: Label, i: nat)
    requires Inv(s) && Enabled(s, l) && i in s.ops && Running(s.ops[i].callback)
    ensures i in Next(s, l).ops && (Running(Next(s, l).ops[i].callback) || EndsCallback(s, l, i))
  {
    SameOps(s, l);
    assert OpInv(s.ops[i]);
    if !IsOpLabel(l) {
      LoopStepMoves(s, l, i);
    } else if l.i == i {
      OwnRunningInStep(s, l);
    }
    hide Next, Enabled, Inv, OpInv;
  }

  lemma OwnRunningInStep(s: State, l: Label)
    requires Enabled(s, l) && IsOpLabel(l) && Running(s.ops[l.i].callback) && OpInv(s.ops[l.i])
    ensures Running(Next(s, l).ops[l.i].callback) || EndsCallback(s, l, l.i)
  {
    assert Next(s, l).ops[l.i] == OpStep(s.ops[l.i], s.inFlight < 0, l);
    hide Next;
    match l
    case Emplace(_) =>
    case Exchange(_) =>
    case SendSchedule(_) =>
    case PushSchedule(_) =>
    case RefuseSchedule(_) =>
    case EnterCallback(_) =>
    case Raise(_) =>
    case SendStop(_) =>
    case PushStop(_) =>
    case RefuseStop(_) =>
    case LeaveCallback(_) =>
    case Reset(_) =>
    case Complete(_) =>
    case Destroy(_) =>
  }

  /** The completion waits for a stop callback under way, unless that completes the receiver itself. */
  lemma {:induction false} CallbackEnds(states: seq<State>, labels: seq<Label>, j: nat, k: nat, i: nat) returns (n: nat)
    requires IsRun(states, labels) && j < k < |states| && i in states[j].ops && Running(states[j].ops[i].callback)
    requires i in states[k].ops && !Running(states[k].ops[i].callback)
    ensures j <= n < k && EndsCallback(states[n], labels[n], i)
  {
    hide IsRun, Next, Enabled, Inv, Running, EndsCallback;
    StepOfRun(states, labels, k - 1);
    SameOps(states[k - 1], labels[k - 1]);
    if Running(states[k - 1].ops[i].callback) {
      RunningInStep(states[k - 1], labels[k - 1], i);
      n := k - 1;
    } else {
      n := CallbackEnds(states, labels, j, k - 1, i);
    }
  }

  lemma CompletionWaits(states: seq<State>, labels: seq<Label>, j: nat, k: nat, i: nat) returns (n: nat)
    requires IsRun(states, labels) && j < k < |states| && i in states[j].ops && Running(states[j].ops[i].callback)
    requires i in states[k].ops && states[k].ops[i].completions == 1
    ensures j <= n < k && EndsCallback(states[n], labels[n], i)
  {
    RunsAreSafe(states, labels, k);
    assert OpInv(states[k].ops[i]);
    hide Next, Enabled, Init, EndsCallback;
    n := CallbackEnds(states, labels, j, k, i);
  }

  // ----- why an operation is stopped

  ghost predicate HasClosed(labels: seq<Label>, k: nat)
    requires k <= |labels|
  {
    exists j :: 0 <= j < k && labels[j] == SeeStop
  }

  lemma ClosedInStep(s: State, l: Label)
    requires Enabled(s, l) && Closed(Next(s, l))
    ensures Closed(s) || l == SeeStop
  {
    if IsOpLabel(l) {
      assert Next(s, l).run == s.run;
    }
    hide OpStep, OpEnabled, Consume;
  }

  lemma {:induction false} ClosedBySeeStop(states: seq<State>, labels: seq<Label>, k: nat)
    requires IsRun(states, labels) && k < |states|
    ensures Closed(states[k]) ==> HasClosed(labels, k)
    ensures !HasClosed(labels, k) ==> Late(states, labels, k) == 0 && states[k].inFlight >= 0
  {
    if k > 0 {
      hide Next, Enabled, Init, Inv, Closed;
      ClosedBySeeStop(states, labels, k - 1);
      if Closed(states[k]) {
        ClosedInStep(states[k - 1], labels[k - 1]);
      }
    }
    if !HasClosed(labels, k) {
      RunsCount(states, labels, k);
    }
  }

  /** What the run loop is about to signal, and what it does afterwards, belong together. */
  predicate AfterOk(r: RunPc) {
    r.Fire? ==> (r.signal.Stopped? <==> r.after.Acknowledge? || r.after.Drain?)
  }

  lemma AfterInStep(s: State, l: Label)
    requires Enabled(s, l) && AfterOk(s.run)
    ensures AfterOk(Next(s, l).run)
  {
    if IsOpLabel(l) {
      assert Next(s, l).run == s.run;
    }
    hide OpStep, OpEnabled, Consume;
  }

  lemma {:induction false} AfterIsOk(states: seq<State>, labels: seq<Label>, k: nat)
    requires IsRun(states, labels) && k < |states|
    ensures AfterOk(states[k].run)
  {
    if k > 0 {
      hide Next, Enabled, Init, AfterOk;
      AfterIsOk(states, labels, k - 1);
      AfterInStep(states[k - 1], labels[k - 1]);
    }
  }

  lemma RefusedInStep(s: State, l: Label, i: nat)
    requires Inv(s) && Enabled(s, l) && i in s.ops && i in Next(s, l).ops && Next(s, l).ops[i].start.Refused?
    ensures s.ops[i].start.Refused? || s.inFlight < 0
  {
    SameOps(s, l);
    if IsOpLabel(l) {
      hide Inv;
    } else {
      LoopStepMoves(s, l, i);
      hide Next, Enabled, Inv;
    }
  }

  lemma {:induction false} RefusedMeansClosed(states: seq<State>, labels: seq<Label>, k: nat, i: nat)
    requires IsRun(states, labels) && k < |states| && i in states[k].ops && states[k].ops[i].start.Refused?
    ensures HasClosed(labels, k)
  {
    hide IsRun, Next, Enabled, Inv;
    if k == 0 {
      UnrefusedAtFirst(states, labels, i);
    } else {
      StepOfRun(states, labels, k - 1);
      SameOps(states[k - 1], labels[k - 1]);
      RefusedInStep(states[k - 1], labels[k - 1], i);
      if states[k - 1].ops[i].start.Refused? {
        RefusedMeansClosed(states, labels, k - 1, i);
      } else {
        ClosedBySeeStop(states, labels, k - 1);
      }
    }
  }

  lemma UnrefusedAtFirst(states: seq<State>, labels: seq<Label>, i: nat)
    requires IsRun(states, labels) && i in states[0].ops
    ensures states[0].ops[i] == NEW_OP
  {
  }

  /** A completion that begins with a stopped signal, in terms of where the operation is. */
  lemma StoppedInStep(s: State, l: Label, i: nat)
    requires Inv(s) && Enabled(s, l) && AfterOk(s.run) && i in s.ops && i in Next(s, l).ops
    requires BeginsCompletion(s, l, i, Stopped)
    ensures Marked(s.ops[i]) || s.ops[i].start.Refused? || Closed(s)
  {
    SameOps(s, l);
    assert OpInv(s.ops[i]);
    if IsOpLabel(l) {
      hide QueueOk, HeapOk, RunOk, OpsOk;
    } else {
      LoopStepMoves(s, l, i);
      hide Next, QueueOk, HeapOk, OpsOk;
    }
  }

  lemma BeginsOrGoesOn(s: State, l: Label, i: nat)
    requires Inv(s) && Enabled(s, l) && i in s.ops && i in Next(s, l).ops
    ensures var before, after := s.ops[i].completion, Next(s, l).ops[i].completion;
      !after.Pending? && after.signal.Stopped? ==>
        BeginsCompletion(s, l, i, Stopped) || (!before.Pending? && before.signal.Stopped?)
  {
    CompletionInStep(s, l, i);
    SameOps(s, l);
    if IsOpLabel(l) {
      hide Inv;
    } else {
      LoopStepMoves(s, l, i);
      hide Next, Enabled, Inv;
    }
  }

  /** A receiver is stopped only if stop has been requested for it, or the context has been closed. */
  lemma {:induction false} StoppedHasReason(states: seq<State>, labels: seq<Label>, k: nat, i: nat)
    requires IsRun(states, labels) && k < |states| && i in states[k].ops
    requires !states[k].ops[i].completion.Pending? && states[k].ops[i].completion.signal.Stopped?
    ensures HasRaised(labels, k, i) || HasClosed(labels, k)
  {
    hide IsRun, Next, Enabled, Inv, Marked, Closed, BeginsCompletion;
    if k == 0 {
      UnrefusedAtFirst(states, labels, i);
    } else {
      StepOfRun(states, labels, k - 1);
      var s, l := states[k - 1], labels[k - 1];
      SameOps(s, l);
      BeginsOrGoesOn(s, l, i);
      if BeginsCompletion(s, l, i, Stopped) {
        AfterIsOk(states, labels, k - 1);
        StoppedInStep(s, l, i);
        MarksAreTrue(states, labels, k - 1, i);
        ClosedBySeeStop(states, labels, k - 1);
        if s.ops[i].start.Refused? {
          RefusedMeansClosed(states, labels, k - 1, i);
        }
      } else {
        StoppedHasReason(states, labels, k - 1, i);
      }
    }
  }

  // ----- a stop request that comes too early

  /** One operation alone; its stop command is pushed before its schedule command. */
  function Overtaking(op: Op, queue: seq<Command>, heap: set<nat>, run: RunPc, inFlight: int, pushed: nat): State {
    State(map[0 := op], queue, heap, run, false, inFlight, pushed, multiset{})
  }

  function Raced(ref: int, start: StartPc, callback: CallbackPc, schedule: Place, stop: Place): Op {
    Op(ref, start, callback, schedule, stop, Pending, 0, false)
  }

  lemma StopRaised() returns (states: seq<State>, labels: seq<Label>)
    ensures IsRun(states, labels)
    ensures states[|labels|] == Overtaking(Raced(2, Pushing, CbSending, Held, Held), [], {}, Loop, 1, 0)
  {
    states, labels := StartsAlone();
    hide IsRun;
    states, labels := Extend(states, labels, SendSchedule(0),
                             Overtaking(Raced(1, Pushing, Registered, Held, NotSent), [], {}, Loop, 1, 0));
    states, labels := Extend(states, labels, EnterCallback(0),
                             Overtaking(Raced(1, Pushing, Entered, Held, NotSent), [], {}, Loop, 1, 0));
    states, labels := Extend(states, labels, Raise(0),
                             Overtaking(Raced(2, Pushing, CbSending, Held, Held), [], {}, Loop, 1, 0));
  }

  lemma StopPushedFirst() returns (states: seq<State>, labels: seq<Label>)
    ensures IsRun(states, labels)
    ensures states[|labels|] == Overtaking(Raced(2, Pushing, Finished, Held, Queued), [Stop(0)], {}, Loop, 2, 1)
  {
    states, labels := StopRaised();
    hide IsRun;
    states, labels := Extend(states, labels, SendStop(0),
                             Overtaking(Raced(2, Pushing, CbPushing, Held, Held), [], {}, Loop, 2, 0));
    states, labels := Extend(states, labels, PushStop(0),
                             Overtaking(Raced(2, Pushing, Leaving, Held, Queued), [Stop(0)], {}, Loop, 2, 1));
    states, labels := Extend(states, labels, LeaveCallback(0),
                             Overtaking(Raced(2, Pushing, Finished, Held, Queued), [Stop(0)], {}, Loop, 2, 1));
  }

  lemma StopTakenFirst() returns (states: seq<State>, labels: seq<Label>)
    ensures IsRun(states, labels)
    ensures states[|labels|] == Overtaking(Raced(1, Returned, Finished, InHeap, Consumed), [], {0}, Loop, 2, 2)
  {
    states, labels := StopPushedFirst();
    hide IsRun;
    states, labels := Extend(states, labels, TakeCommand,
                             Overtaking(Raced(2, Pushing, Finished, Held, Taken), [], {}, Ack(0), 2, 1));
    states, labels := Extend(states, labels, AckNow,
                             Overtaking(Raced(1, Pushing, Finished, Held, Consumed), [], {}, Loop, 2, 1));
    states, labels := Extend(states, labels, PushSchedule(0),
                             Overtaking(Raced(1, Returned, Finished, Queued, Consumed), [Schedule(0)], {}, Loop, 2, 2));
    states, labels := Extend(states, labels, TakeCommand,
                             Overtaking(Raced(1, Returned, Finished, InHeap, Consumed), [], {0}, Loop, 2, 2));
  }

  /** A stop request between the exchange of the start and the push of the schedule command: the timer runs on. */
  lemma StopIsLost() returns (states: seq<State>, labels: seq<Label>)
    ensures IsRun(states, labels) && HasRaised(labels, |labels|, 0)
    ensures 0 in states[|labels|].ops
    ensures var op := states[|labels|].ops[0]; !op.completion.Pending? && op.completion.signal.Value?
  {
    states, labels := StopTakenFirst();
    var op := Raced(0, Returned, Finished, Consumed, Consumed).(completion := Resetting(Runner, Value));
    var fire := Fire(0, Value, Continue);
    hide IsRun, HasRaised;
    states, labels := Extend(states, labels, Expire(0),
                             Overtaking(Raced(1, Returned, Finished, Taken, Consumed), [], {}, fire, 2, 2));
    states, labels := Extend(states, labels, FireNow, Overtaking(op, [], {}, Await(0, Continue), 2, 2));
    RunLength(states, labels);
    MarksAreTrue(states, labels, |labels|, 0);
  }
}
