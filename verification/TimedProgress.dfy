/** Every timed operation comes to its end, unless the shutdown of the context has left its command in the queue. */
module TimedProgress {
  import opened TimedProtocol
  import opened TimedShutdown
  import opened TimedRuns

  /** The steps that go on with what has begun: not those of callers, of the stop token and of the environment. */
  predicate GoesOn(l: Label) {
    !l.Emplace? && !l.EnterCallback? && !l.RequestStop? && !l.Destroy?
  }

  // ----- something can always be done

  /** A callback under way goes on, unless it is in the middle of completing the receiver. */
  lemma CallbackGoesOn(op: Op, i: nat) returns (l: Label)
    requires OpInv(op) && Running(op.callback)
    ensures OpEnabled(op, l) && IsOpLabel(l) && l.i == i && GoesOn(l)
  {
    match op.callback
    case Entered => l := Raise(i);
    case CbSending => l := SendStop(i);
    case CbPushing => l := PushStop(i);
    case CbRefused => l := RefuseStop(i);
    case Leaving =>
      if op.completion.Resetting? && op.completion.who.Stopper? { l := Reset(i); } else { l := LeaveCallback(i); }
  }

  lemma CompletionGoesOn(op: Op, i: nat) returns (l: Label)
    requires OpInv(op) && !op.completion.Pending? && !op.completion.Done?
    ensures OpEnabled(op, l) && IsOpLabel(l) && l.i == i && GoesOn(l)
  {
    if op.completion.Ready? {
      l := Complete(i);
    } else if Running(op.callback) {
      l := CallbackGoesOn(op, i);
    } else {
      l := Reset(i);
    }
  }

  /** An operation whose own threads have something to do. */
  predicate IsBusy(op: Op) {
    || op.start.Armed? || op.start.Sending? || op.start.Pushing? || op.start.Refused?
    || Running(op.callback)
    || (!op.completion.Pending? && !op.completion.Done?)
  }

  lemma OwnGoesOn(op: Op, i: nat) returns (l: Label)
    requires OpInv(op) && IsBusy(op)
    ensures OpEnabled(op, l) && IsOpLabel(l) && l.i == i && GoesOn(l)
  {
    if op.start.Armed? {
      l := Exchange(i);
    } else if op.start.Sending? {
      l := SendSchedule(i);
    } else if op.start.Pushing? {
      l := PushSchedule(i);
    } else if op.start.Refused? {
      l := RefuseSchedule(i);
    } else if Running(op.callback) {
      l := CallbackGoesOn(op, i);
    } else {
      l := CompletionGoesOn(op, i);
    }
  }

  /** The run loop goes on, unless it waits at the top for a command, an expiry or a stop request, or has exited. */
  lemma LoopGoesOn(s: State) returns (l: Label)
    requires Inv(s) && !s.run.Exited? && (s.run.Loop? ==> s.queue != [] || s.heap != {})
    ensures Enabled(s, l) && GoesOn(l)
  {
    match s.run
    case Loop =>
      if s.queue != [] {
        assert s.queue[0] in s.queue;
        l := TakeCommand;
      } else {
        var i :| i in s.heap;
        l := Expire(i);
      }
    case Fire(_, _, _) => l := FireNow;
    case Ack(_) => l := AckNow;
    case Await(i, _) =>
      if s.ops[i].completion.Done? {
        l := Resume;
      } else {
        assert OpInv(s.ops[i]);
        l := CompletionGoesOn(s.ops[i], i);
      }
    case Draining =>
      if s.heap == {} {
        l := Exit;
      } else {
        var i :| i in s.heap;
        l := DrainOne(i);
      }
  }

  /** A command of the operation is still in the queue after the run loop has exited. */
  predicate LeftBehind(s: State, i: nat) {
    s.run.Exited? && (Schedule(i) in s.queue || Stop(i) in s.queue)
  }

  /** An operation that has been started and not completed can go on, or waits for the run loop, which can. */
  lemma NeverStuck(s: State, i: nat) returns (l: Label)
    requires Inv(s) && i in s.ops && !s.ops[i].start.Unstarted? && !s.ops[i].completion.Done? && !LeftBehind(s, i)
    ensures Enabled(s, l) && GoesOn(l)
  {
    var op := s.ops[i];
    assert OpInv(op);
    if IsBusy(op) {
      l := OwnGoesOn(op, i);
    } else {
      WaitsForLoop(s, i);
      l := LoopGoesOn(s);
    }
  }

  lemma WaitsForLoop(s: State, i: nat)
    requires Inv(s) && i in s.ops && !s.ops[i].start.Unstarted? && !s.ops[i].completion.Done?
    requires !IsBusy(s.ops[i]) && !LeftBehind(s, i)
    ensures !s.run.Exited? && (s.run.Loop? ==> s.queue != [] || s.heap != {})
  {
    assert OpInv(s.ops[i]);
    assert PlaceOf(s.ops[i], Schedule(i)) == s.ops[i].schedule && PlaceOf(s.ops[i], Stop(i)) == s.ops[i].stop;
  }

  /** In the end each operation that was started has been completed once, except those left behind. */
  lemma CompletedInTheEnd(states: seq<State>, labels: seq<Label>, i: nat)
    requires IsRun(states, labels) && (forall l :: Enabled(states[|labels|], l) ==> !GoesOn(l))
    requires i in states[|labels|].ops && !states[|labels|].ops[i].start.Unstarted?
    ensures states[|labels|].ops[i].completions == 1 || LeftBehind(states[|labels|], i)
  {
    RunsAreSafe(states, labels, |labels|);
    var s := states[|labels|];
    hide IsRun, Enabled;
    if !s.ops[i].completion.Done? && !LeftBehind(s, i) {
      var l := NeverStuck(s, i);
    }
    assert OpInv(s.ops[i]);
  }

  lemma {:induction false} StopExactly(states: seq<State>, labels: seq<Label>, k: nat)
    requires IsRun(states, labels) && k < |states|
    ensures states[k].stopRequested <==> exists j :: 0 <= j < k && labels[j] == RequestStop
  {
    if k > 0 {
      hide Next, Enabled, Init;
      StopInStep(states[k - 1], labels[k - 1]);
      StopExactly(states, labels, k - 1);
    }
  }

  /** The run loop closes the context only if it has been asked to. */
  lemma ClosesOnlyIfAsked(states: seq<State>, labels: seq<Label>, k: nat) returns (j: nat)
    requires IsRun(states, labels) && k < |labels| && labels[k] == SeeStop
    ensures j < k && labels[j] == RequestStop
  {
    assert states[k].stopRequested;
    hide Next, Enabled, Init;
    StopExactly(states, labels, k);
    j :| 0 <= j < k && labels[j] == RequestStop;
  }

  lemma StopInStep(s: State, l: Label)
    requires Enabled(s, l)
    ensures Next(s, l).stopRequested <==> s.stopRequested || l == RequestStop
  {
    hide OpStep, OpEnabled, Consume;
  }

  lemma {:induction false} NoneLateWhileOpen(states: seq<State>, labels: seq<Label>, k: nat)
    requires IsRun(states, labels) && k < |states| && !Closed(states[k])
    ensures Late(states, labels, k) == 0
  {
    hide Next, Enabled, Init, Closed;
    if k > 0 {
      if Closed(states[k - 1]) {
        ClosedStaysInStep(states[k - 1], labels[k - 1]);
      } else {
        NoneLateWhileOpen(states, labels, k - 1);
      }
    }
  }

  /** At the top of the run loop a submission in flight can go on, and without any the loop sees a stop request. */
  lemma SubmissionGoesOn(s: State) returns (l: Label)
    requires CounterOk(s, 0) && s.run.Loop? && s.stopRequested
    ensures Enabled(s, l) && GoesOn(l)
  {
    hide OpStep, Consume;
    if s.pushed > 0 {
      l := EndPush;
    } else if Scheduling(s) != {} {
      var i :| i in Scheduling(s);
      l := PushSchedule(i);
    } else if Stopping(s) != {} {
      var i :| i in Stopping(s);
      l := PushStop(i);
    } else {
      l := SeeStop;
    }
  }

  /** Then also the run loop has exited, if it has been asked to. */
  lemma ExitedInTheEnd(states: seq<State>, labels: seq<Label>, j: nat)
    requires IsRun(states, labels) && (forall l :: Enabled(states[|labels|], l) ==> !GoesOn(l))
    requires j < |labels| && labels[j] == RequestStop
    ensures states[|labels|].run.Exited?
  {
    var s := states[|labels|];
    RunsAreSafe(states, labels, |labels|);
    StopExactly(states, labels, |labels|);
    if s.run.Loop? {
      NoneLateWhileOpen(states, labels, |labels|);
      RunsCount(states, labels, |labels|);
      var l := SubmissionGoesOn(s);
    } else if !s.run.Exited? {
      var l := LoopGoesOn(s);
    }
  }

  // ----- and runs are finite

  function CompletionRank(c: Completion): nat {
    match c
    case Pending => 4
    case Resetting(_, _) => 3
    case Ready(_, _) => 2
    case Done(_) => 1
  }

  function StartRank(c: StartPc): nat {
    match c
    case Unstarted => 8
    case Armed => 7
    case Sending => 6
    case Pushing => 3
    case Refused => 3
    case Lost => 0
    case Returned => 0
  }

  function CallbackRank(c: CallbackPc): nat {
    match c
    case Absent => 10
    case Registered => 9
    case Entered => 8
    case CbSending => 7
    case CbPushing => 4
    case CbRefused => 4
    case Leaving => 2
    case Finished => 1
    case Removed => 0
  }

  function PlaceRank(p: Place): nat {
    match p
    case NotSent => 9
    case Held => 8
    case Queued => 6
    case InHeap => 5
    case Taken => 3
    case Consumed => 0
  }

  function OpRank(op: Op): nat {
    StartRank(op.start) + CallbackRank(op.callback) + CompletionRank(op.completion)
    + PlaceRank(op.schedule) + PlaceRank(op.stop) + (if op.destroyed then 0 else 1)
  }

  function RunRank(r: RunPc): nat {
    match r
    case Loop => 2
    case Fire(_, _, _) => 2
    case Ack(_) => 2
    case Await(_, _) => 3
    case Draining => 1
    case Exited => 0
  }

  ghost function OpsRank(ids: set<nat>, ops: map<nat, Op>): nat
    requires ids <= ops.Keys
  {
    if ids == {} then 0
    else
      var i :| i in ids;
      OpRank(ops[i]) + OpsRank(ids - {i}, ops)
  }

  ghost function Rank(s: State): nat {
    OpsRank(s.ops.Keys, s.ops) + RunRank(s.run) + s.pushed + |s.late| + (if s.stopRequested then 0 else 1)
  }

  lemma {:induction false} OpsRankSplits(ids: set<nat>, ops: map<nat, Op>, i: nat)
    requires ids <= ops.Keys && i in ids
    ensures OpsRank(ids, ops) == OpRank(ops[i]) + OpsRank(ids - {i}, ops)
  {
    hide OpRank;
    var j :| j in ids && OpsRank(ids, ops) == OpRank(ops[j]) + OpsRank(ids - {j}, ops);
    if j != i {
      OpsRankSplits(ids - {j}, ops, i);
      OpsRankSplits(ids - {i}, ops, j);
      assert ids - {j} - {i} == ids - {i} - {j};
    }
  }

  lemma {:induction false} OpsRankFrame(ids: set<nat>, a: map<nat, Op>, b: map<nat, Op>)
    requires ids <= a.Keys && ids <= b.Keys && forall i | i in ids :: a[i] == b[i]
    ensures OpsRank(ids, a) == OpsRank(ids, b)
  {
    hide OpRank;
    if ids != {} {
      var i :| i in ids;
      OpsRankSplits(ids, a, i);
      OpsRankSplits(ids, b, i);
      OpsRankFrame(ids - {i}, a, b);
    }
  }

  /** When one operation changes, the sum changes by as much. */
  lemma OpsRankUpdates(s: State, t: State, i: nat)
    requires i in s.ops && i in t.ops && t.ops == s.ops[i := t.ops[i]]
    ensures OpsRank(t.ops.Keys, t.ops) == OpsRank(s.ops.Keys, s.ops) - OpRank(s.ops[i]) + OpRank(t.ops[i])
  {
    hide OpRank;
    assert t.ops.Keys == s.ops.Keys;
    OpsRankSplits(s.ops.Keys, s.ops, i);
    OpsRankSplits(s.ops.Keys, t.ops, i);
    OpsRankFrame(s.ops.Keys - {i}, s.ops, t.ops);
  }

  predicate Submits(l: Label) {
    IsSubmission(l) || l.PushSchedule? || l.PushStop?
  }

  lemma OwnStepCounts(op: Op, closed: bool, l: Label)
    requires OpInv(op) && OpEnabled(op, l)
    ensures OpRank(OpStep(op, closed, l)) + (if Submits(l) then 1 else 0) < OpRank(op)
  {
    match l
    case Emplace(_) =>
    case Exchange(_) =>
    case SendSchedule(_) =>
    case PushSchedule(_) =>
    case RefuseSchedule(_) =>
    case EnterCallback(_) =>
    case Raise(_) =>
    case SendStop(_) =>
    case PushStop(_) =>
    case RefuseStop(_) =>
    case LeaveCallback(_) =>
    case Reset(_) =>
    case Complete(_) =>
    case Destroy(_) =>
  }

  lemma OwnCounts(s: State, l: Label)
    requires Inv(s) && Enabled(s, l) && IsOpLabel(l)
    ensures Rank(Next(s, l)) < Rank(s)
  {
    var t := Next(s, l);
    assert OpInv(s.ops[l.i]);
    OwnStepCounts(s.ops[l.i], s.inFlight < 0, l);
    OwnStepElsewhere(s, l);
    hide Inv, Next, Enabled, OpStep, OpRank, OpsRank, RunRank, OpInv;
    OpsRankUpdates(s, t, l.i);
  }

  lemma OwnStepElsewhere(s: State, l: Label)
    requires Enabled(s, l) && IsOpLabel(l)
    ensures var t := Next(s, l);
      && t.ops == s.ops[l.i := OpStep(s.ops[l.i], s.inFlight < 0, l)] && t.run == s.run
      && t.stopRequested == s.stopRequested && t.pushed + |t.late| <= s.pushed + |s.late| + if Submits(l) then 1 else 0
  {
    hide OpStep, OpEnabled;
  }

  /** The operation whose command the run loop moves on. */
  function Served(s: State, l: Label): nat
    requires Enabled(s, l) && Serves(l)
  {
    match l
    case TakeCommand => s.queue[0].id
    case Expire(i) => i
    case DrainOne(i) => i
    case FireNow => s.run.id
    case AckNow => s.run.id
  }

  predicate Serves(l: Label) {
    l.TakeCommand? || l.Expire? || l.DrainOne? || l.FireNow? || l.AckNow?
  }

  lemma ServedCounts(s: State, l: Label)
    requires Inv(s) && Enabled(s, l) && Serves(l)
    ensures var t, i := Next(s, l), Served(s, l);
      && i in s.ops && i in t.ops && t.ops == s.ops[i := t.ops[i]]
      && OpRank(t.ops[i]) + RunRank(t.run) < OpRank(s.ops[i]) + RunRank(s.run)
      && t.pushed == s.pushed && t.late == s.late && t.stopRequested == s.stopRequested
  {
    assert l.TakeCommand? ==> s.queue[0] in s.queue;
    assert OpInv(s.ops[Served(s, l)]);
    hide OpStep, OpEnabled, OpsOk, StartRank, CallbackRank;
  }

  lemma LoopCounts(s: State, l: Label)
    requires Inv(s) && Enabled(s, l) && Serves(l)
    ensures Rank(Next(s, l)) < Rank(s)
  {
    ServedCounts(s, l);
    var t, i := Next(s, l), Served(s, l);
    hide Inv, Next, Enabled, OpRank, OpsRank, RunRank;
    OpsRankUpdates(s, t, i);
  }

  /** Every step but a repeated stop request lowers the rank. */
  lemma EveryStepCounts(s: State, l: Label)
    requires Inv(s) && Enabled(s, l) && (l.RequestStop? ==> !s.stopRequested)
    ensures Rank(Next(s, l)) < Rank(s)
  {
    if IsOpLabel(l) {
      OwnCounts(s, l);
    } else if Serves(l) {
      LoopCounts(s, l);
    } else {
      hide OpsRank, OpStep, OpEnabled, OpsOk, QueueOk, HeapOk;
    }
  }

  /** So every run without such repetitions comes to its end. */
  lemma {:induction false} RunsAreShort(states: seq<State>, labels: seq<Label>, k: nat)
    requires IsRun(states, labels) && k < |states|
    requires forall n :: 0 <= n < k && labels[n] == RequestStop ==> !states[n].stopRequested
    ensures k + Rank(states[k]) <= Rank(states[0])
  {
    hide IsRun, Next, Enabled, Inv, Rank;
    if k > 0 {
      StepOfRun(states, labels, k - 1);
      RunsAreShort(states, labels, k - 1);
      EveryStepCounts(states[k - 1], labels[k - 1]);
    }
  }
}
