/**
 The submission counter of the timed context: while the context is open it counts the submissions in flight,
 and once the run loop has closed it, every later submission is refused.
 */
module TimedShutdown {
  import opened TimedProtocol

  /** The run loop has closed the context, and drains its heap or has exited. */
  predicate Closed(s: State) {
    s.run.Draining? || s.run.Exited? || ((s.run.Fire? || s.run.Await?) && s.run.after.Drain?)
  }

  /** The operations about to push their schedule command, or their stop command. */
  ghost function Scheduling(s: State): set<nat> {
    set i | i in s.ops && s.ops[i].start.Pushing?
  }

  ghost function Stopping(s: State): set<nat> {
    set i | i in s.ops && s.ops[i].callback.CbPushing?
  }

  predicate IsSubmission(l: Label) {
    l.SendSchedule? || l.SendStop?
  }

  /** How many submissions have begun after the closing, in the first `k` steps of a run. */
  function Late(states: seq<State>, labels: seq<Label>, k: nat): nat
    requires k <= |labels| < |states|
  {
    if k == 0 then 0
    else Late(states, labels, k - 1) + if Closed(states[k - 1]) && IsSubmission(labels[k - 1]) then 1 else 0
  }

  /** More than this many late submissions are mistaken for early ones. */
  const MAX_LATE: nat := -CONTEXT_CLOSED

  ghost predicate CounterOk(s: State, late: nat) {
    if Closed(s) then
      && Scheduling(s) == {} && Stopping(s) == {} && s.pushed == 0
      && s.inFlight == CONTEXT_CLOSED + late
      && forall n | n in s.late :: n < s.inFlight
    else
      && s.inFlight == |Scheduling(s)| + |Stopping(s)| + s.pushed
      && s.late == multiset{} && late == 0
  }

  /** How a set changes when one element comes or goes. */
  ghost predicate Changed(s: set<nat>, t: set<nat>, before: bool, after: bool) {
    && (before == after ==> t == s)
    && (!before && after ==> |t| == |s| + 1)
    && (before && !after ==> |t| == |s| - 1)
  }

  lemma Changes(s: set<nat>, t: set<nat>, i: nat, before: bool, after: bool)
    requires (i in s <==> before) && t == if after then s + {i} else s - {i}
    ensures Changed(s, t, before, after)
  {
  }

  lemma OnePushes(s: State, t: State, i: nat, op: Op)
    requires i in s.ops && t.ops == s.ops[i := op]
    ensures Changed(Scheduling(s), Scheduling(t), s.ops[i].start.Pushing?, op.start.Pushing?)
    ensures Changed(Stopping(s), Stopping(t), s.ops[i].callback.CbPushing?, op.callback.CbPushing?)
    ensures s.ops[i].start.Pushing? ==> i in Scheduling(s)
    ensures s.ops[i].callback.CbPushing? ==> i in Stopping(s)
  {
    hide Changed;
    assert Scheduling(t) == if op.start.Pushing? then Scheduling(s) + {i} else Scheduling(s) - {i};
    assert Stopping(t) == if op.callback.CbPushing? then Stopping(s) + {i} else Stopping(s) - {i};
    Changes(Scheduling(s), Scheduling(t), i, s.ops[i].start.Pushing?, op.start.Pushing?);
    Changes(Stopping(s), Stopping(t), i, s.ops[i].callback.CbPushing?, op.callback.CbPushing?);
  }

  /** A submission begins: it is counted, and refused if the context is closed. */
  lemma SendCounts(s: State, l: Label, late: nat)
    requires CounterOk(s, late) && Enabled(s, l) && IsSubmission(l) && (Closed(s) ==> late < MAX_LATE)
    ensures CounterOk(Next(s, l), if Closed(s) then late + 1 else late)
  {
    var t := Next(s, l);
    OnePushes(s, t, l.i, t.ops[l.i]);
    hide Scheduling, Stopping;
  }

  /** The push itself: from then on the submission is counted among those pushed. */
  lemma PushCounts(s: State, l: Label, late: nat)
    requires CounterOk(s, late) && Enabled(s, l) && (l.PushSchedule? || l.PushStop?)
    ensures CounterOk(Next(s, l), late)
  {
    var t := Next(s, l);
    OnePushes(s, t, l.i, t.ops[l.i]);
    hide Scheduling, Stopping;
  }

  lemma OtherOwnStepCounts(s: State, l: Label, late: nat)
    requires CounterOk(s, late) && Enabled(s, l) && IsOpLabel(l) && OpInv(s.ops[l.i])
    requires !IsSubmission(l) && !l.PushSchedule? && !l.PushStop?
    ensures CounterOk(Next(s, l), late)
  {
    var t, op := Next(s, l), OpStep(s.ops[l.i], s.inFlight < 0, l);
    assert t == s.(ops := s.ops[l.i := op]);
    assert op.start.Pushing? == s.ops[l.i].start.Pushing? && op.callback.CbPushing? == s.ops[l.i].callback.CbPushing?;
    OnePushes(s, t, l.i, op);
    hide Scheduling, Stopping;
  }

  /** The run loop touches no operation that is about to push. */
  lemma LoopLeavesPushers(s: State, l: Label)
    requires Enabled(s, l) && !IsOpLabel(l)
    ensures Scheduling(Next(s, l)) == Scheduling(s) && Stopping(Next(s, l)) == Stopping(s)
  {
  }

  /** A step of the run loop or of the context alone. */
  lemma LoopStepCounts(s: State, l: Label, late: nat)
    requires CounterOk(s, late) && Enabled(s, l) && !IsOpLabel(l)
    ensures CounterOk(Next(s, l), late)
  {
    LoopLeavesPushers(s, l);
    hide Scheduling, Stopping;
  }

  lemma StepCounts(s: State, l: Label, late: nat)
    requires Inv(s) && CounterOk(s, late) && Enabled(s, l)
    requires Closed(s) && IsSubmission(l) ==> late < MAX_LATE
    ensures CounterOk(Next(s, l), if Closed(s) && IsSubmission(l) then late + 1 else late)
  {
    hide CounterOk, Next, QueueOk, HeapOk, RunOk, OpInv;
    if !IsOpLabel(l) {
      LoopStepCounts(s, l, late);
    } else if IsSubmission(l) {
      SendCounts(s, l, late);
    } else if l.PushSchedule? || l.PushStop? {
      PushCounts(s, l, late);
    } else {
      OtherOwnStepCounts(s, l, late);
    }
  }

  /** The counter is exact: the submissions in flight until the closing, and the late ones afterwards. */
  lemma {:induction false} RunsCount(states: seq<State>, labels: seq<Label>, k: nat)
    requires IsRun(states, labels) && k < |states| && Late(states, labels, k) <= MAX_LATE
    ensures CounterOk(states[k], Late(states, labels, k))
  {
    if k == 0 {
      assert Scheduling(states[0]) == {} && Stopping(states[0]) == {};
    } else {
      hide Init, Inv, Next, Enabled, CounterOk, Closed, IsSubmission;
      RunsAreSafe(states, labels, k - 1);
      RunsCount(states, labels, k - 1);
      StepCounts(states[k - 1], labels[k - 1], Late(states, labels, k - 1));
    }
  }

  lemma ClosedStaysInStep(s: State, l: Label)
    requires Enabled(s, l) && Closed(s)
    ensures Closed(Next(s, l))
  {
  }

  /**
   Once the run loop has closed the context, it stays closed: through 2^62 late submissions the queue does not
   change any more.
   */
  lemma {:induction false} ClosedForGood(states: seq<State>, labels: seq<Label>, j: nat, k: nat)
    requires IsRun(states, labels) && j <= k < |states| && Closed(states[j]) && Late(states, labels, k) <= MAX_LATE
    ensures Closed(states[k]) && states[k].queue == states[j].queue
    ensures Scheduling(states[k]) == {} && Stopping(states[k]) == {} && states[k].pushed == 0
  {
    hide Inv, Init, Next, Enabled, Closed, CounterOk, Scheduling, Stopping;
    RunsCount(states, labels, k);
    if j < k {
      ClosedForGood(states, labels, j, k - 1);
      ClosedStaysInStep(states[k - 1], labels[k - 1]);
      QueueStays(states[k - 1], labels[k - 1]);
    }
    NobodyInFlight(states[k], Late(states, labels, k));
  }

  lemma NobodyInFlight(s: State, late: nat)
    requires CounterOk(s, late) && Closed(s)
    ensures Scheduling(s) == {} && Stopping(s) == {} && s.pushed == 0
  {
  }

  /** A submission is refused exactly if the context has been closed and 2^62 others have not come since. */
  lemma RefusedExactly(states: seq<State>, labels: seq<Label>, k: nat)
    requires IsRun(states, labels) && k < |labels| && IsSubmission(labels[k]) && Late(states, labels, k) <= MAX_LATE
    ensures var l := labels[k];
      && l.i in states[k + 1].ops
      && var op := states[k + 1].ops[l.i];
      (if l.SendSchedule? then op.start.Refused? else op.callback.CbRefused?)
      <==> Closed(states[k]) && Late(states, labels, k) < MAX_LATE
  {
    RunsCount(states, labels, k);
    hide Scheduling, Stopping, Inv, Init;
  }

  /**
   What shutdown leaves behind: once the run loop has exited, an operation that has been started and holds no
   command is without completion exactly if one of its commands was in the queue when the loop closed the context.
   */
  lemma LeftAtShutdown(states: seq<State>, labels: seq<Label>, j: nat, k: nat, i: nat)
    requires IsRun(states, labels) && j < k < |states| && labels[j].SeeStop? && states[k].run.Exited?
    requires Late(states, labels, k) <= MAX_LATE && i in states[k].ops
    requires var op := states[k].ops[i]; Won(op) && !op.schedule.Held? && !op.stop.Held?
    ensures states[k].ops[i].completion.Pending? <==> Schedule(i) in states[j].queue || Stop(i) in states[j].queue
  {
    assert Closed(states[j + 1]) && states[j + 1].queue == states[j].queue;
    hide Next, Enabled, Inv, Init;
    ClosedForGood(states, labels, j + 1, k);
    LeftAtExit(states, labels, k, i);
  }

  lemma NobodyPushes(s: State)
    requires Scheduling(s) == {} && Stopping(s) == {}
    ensures forall i | i in s.ops :: !s.ops[i].start.Pushing? && !s.ops[i].callback.CbPushing?
  {
    forall i | i in s.ops
      ensures !s.ops[i].start.Pushing? && !s.ops[i].callback.CbPushing?
    {
      assert i !in Scheduling(s) && i !in Stopping(s);
    }
  }

  lemma QueueStays(s: State, l: Label)
    requires Enabled(s, l) && Closed(s) && Scheduling(s) == {} && Stopping(s) == {}
    ensures Next(s, l).queue == s.queue
  {
    NobodyPushes(s);
  }
}
