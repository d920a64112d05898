/**
 The protocol between a timed operation, its stop callback and the run loop of the timed context.

 Any number of operations run through one command queue and one timer heap. Every atomic access, every
 queue operation and every call of a completion function is one step, and the steps of all threads
 interleave freely. Each operation has up to two commands, `schedule` and `stop`; whoever consumes a
 command decrements the reference count, and the one that sees it drop to zero completes the receiver.
 */
module TimedProtocol {
  import opened Sequences

  /** The threads that may execute an operation's code. */
  datatype Actor = Runner | Starter | Stopper

  datatype Signal = Value | Stopped

  /** Where a command is. It is outstanding from `Held` to `Taken`. */
  datatype Place = NotSent | Held | Queued | InHeap | Taken | Consumed

  /** Inside `start()`: `Armed` has its callback in place, `Lost` found the count already raised. */
  datatype StartPc = Unstarted | Armed | Lost | Sending | Pushing | Refused | Returned

  /** The stop callback. `Leaving` is still inside it; `Removed` is deregistered or destroyed. */
  datatype CallbackPc =
    Absent | Registered | Entered | CbSending | CbPushing | CbRefused | Leaving | Finished | Removed

  /**
   `Resetting` waits for `stop_callback_.reset()`; `Ready` is about to complete the receiver, and `Done` has done so
   with the signal.
   */
  datatype Completion =
    Pending | Resetting(who: Actor, signal: Signal) | Ready(who: Actor, signal: Signal) | Done(signal: Signal)

  datatype Op = Op(
    ref: int,
    start: StartPc,
    callback: CallbackPc,
    schedule: Place,
    stop: Place,
    completion: Completion,
    completions: nat,
    destroyed: bool)

  datatype Command = Schedule(id: nat) | Stop(id: nat)

  /** What the run loop does after a completion function returns. */
  datatype Then = Continue | Acknowledge | Drain

  datatype RunPc = Loop | Fire(id: nat, signal: Signal, after: Then) | Ack(id: nat)
                 | Await(id: nat, after: Then) | Draining | Exited

  datatype State = State(
    ops: map<nat, Op>,
    queue: seq<Command>,
    heap: set<nat>,
    run: RunPc,
    stopRequested: bool,
    inFlight: int,
    pushed: nat,
    late: multiset<int>)

  const CONTEXT_CLOSED: int := -0x4000_0000_0000_0000

  const NEW_OP := Op(0, Unstarted, Absent, NotSent, NotSent, Pending, 0, false)

  ghost predicate Init(s: State) {
    && (forall i | i in s.ops :: s.ops[i] == NEW_OP)
    && s.queue == [] && s.heap == {} && s.run == Loop
    && !s.stopRequested && s.inFlight == 0 && s.pushed == 0 && s.late == multiset{}
  }

  // ----- steps of one operation

  /** A completion function: the count drops, and the last one to see it drop completes the receiver. */
  function Consume(op: Op, who: Actor, signal: Signal): Op {
    op.(ref := op.ref - 1, completion := if op.ref == 1 then Resetting(who, signal) else op.completion)
  }

  datatype Label =
      // start()
    | Emplace(i: nat) | Exchange(i: nat) | SendSchedule(i: nat) | PushSchedule(i: nat) | RefuseSchedule(i: nat)
      // the stop callback
    | EnterCallback(i: nat) | Raise(i: nat) | SendStop(i: nat) | PushStop(i: nat) | RefuseStop(i: nat)
    | LeaveCallback(i: nat)
      // completing the receiver
    | Reset(i: nat) | Complete(i: nat) | Destroy(i: nat)
      // the run loop
    | TakeCommand | Expire(i: nat) | FireNow | AckNow | Resume | SeeStop | DrainOne(i: nat) | Exit
      // the context alone
    | RequestStop | EndPush | EndLate(n: int)

  /** The operations whose memory the step reads or writes; relinking the heap touches all tasks in it. */
  function Touches(s: State, l: Label): set<nat> {
    match l
    case TakeCommand => (if s.queue == [] then {} else {s.queue[0].id}) + s.heap
    case FireNow => if s.run.Fire? then {s.run.id} else {}
    case AckNow => if s.run.Ack? then {s.run.id} else {}
    case Expire(i) => {i} + s.heap
    case DrainOne(i) => {i} + s.heap
    case Resume | SeeStop | Exit | RequestStop | EndPush | EndLate(_) | Destroy(_) => {}
    case _ => {l.i}
  }

  predicate Running(c: CallbackPc) {
    c.Entered? || c.CbSending? || c.CbPushing? || c.CbRefused? || c.Leaving?
  }

  /** When an operation's own threads may take a step. */
  predicate OpEnabled(op: Op, l: Label) {
    match l
    case Emplace(_) => op.start.Unstarted? && !op.destroyed
    case Exchange(_) => op.start.Armed?
    case SendSchedule(_) => op.start.Sending?
    case PushSchedule(_) => op.start.Pushing?
    case RefuseSchedule(_) => op.start.Refused?
    case EnterCallback(_) => op.callback.Registered?
    case Raise(_) => op.callback.Entered?
    case SendStop(_) => op.callback.CbSending?
    case PushStop(_) => op.callback.CbPushing?
    case RefuseStop(_) => op.callback.CbRefused?
    case LeaveCallback(_) => op.callback.Leaving? && !(op.completion.Resetting? && op.completion.who.Stopper?)
    case Reset(_) => op.completion.Resetting? && (op.completion.who.Stopper? || !Running(op.callback))
    case Complete(_) => op.completion.Ready?
    case Destroy(_) => op.completion.Done? && !op.destroyed
    case _ => false
  }

  predicate Enabled(s: State, l: Label) {
    if IsOpLabel(l) then l.i in s.ops && OpEnabled(s.ops[l.i], l)
    else
      match l
      case TakeCommand => s.run.Loop? && s.queue != [] && s.queue[0].id in s.ops
      case FireNow => s.run.Fire? && s.run.id in s.ops
      case AckNow => s.run.Ack? && s.run.id in s.ops
      case Resume => s.run.Await? && s.run.id in s.ops && s.ops[s.run.id].completion.Done?
      case SeeStop => s.run.Loop? && s.stopRequested && s.inFlight == 0
      case Exit => s.run.Draining? && s.heap == {}
      case RequestStop => true
      case EndPush => s.pushed > 0
      case EndLate(n) => n in s.late
      case Expire(i) => s.run.Loop? && i in s.heap && i in s.ops
      case DrainOne(i) => s.run.Draining? && i in s.heap && i in s.ops
      case _ => false
  }

  /** A submission: the counter is raised, and a closed context is noticed. */
  function Submit(s: State): State {
    if s.inFlight < 0 then s.(inFlight := s.inFlight + 1, late := s.late + multiset{s.inFlight})
    else s.(inFlight := s.inFlight + 1)
  }

  function OpStep(op: Op, closed: bool, l: Label): Op {
    match l
    case Emplace(_) => op.(start := Armed, callback := Registered)
    case Exchange(_) =>
      if op.ref == 0 then op.(ref := 1, start := Sending, schedule := Held)
      else op.(start := Lost, completion := Resetting(Starter, Stopped))
    case SendSchedule(_) => op.(start := if closed then Refused else Pushing)
    case PushSchedule(_) => op.(start := Returned, schedule := Queued)
    case RefuseSchedule(_) => Consume(op.(start := Returned, schedule := Consumed), Starter, Stopped)
    case EnterCallback(_) => op.(callback := Entered)
    case Raise(_) =>
      if op.ref == 1 then op.(ref := 2, callback := CbSending, stop := Held)
      else op.(ref := op.ref + 1, callback := Leaving)
    case SendStop(_) => op.(callback := if closed then CbRefused else CbPushing)
    case PushStop(_) => op.(callback := Leaving, stop := Queued)
    case RefuseStop(_) => Consume(op.(callback := Leaving, stop := Consumed), Stopper, Stopped)
    case LeaveCallback(_) => op.(callback := Finished)
    case Reset(_) =>
      if op.completion.Resetting? then
        op.(callback := Removed, completion := Ready(op.completion.who, op.completion.signal))
      else op
    case Complete(_) =>
      if op.completion.Ready? then op.(completion := Done(op.completion.signal), completions := op.completions + 1)
      else op
    case Destroy(_) => op.(destroyed := true)
    case _ => op
  }

  /** The steps that concern one operation and, at most, the queue and the submission counter. */
  predicate IsOpLabel(l: Label) {
    !(l.TakeCommand? || l.Expire? || l.FireNow? || l.AckNow? || l.Resume? || l.SeeStop? || l.DrainOne? || l.Exit?
      || l.RequestStop? || l.EndPush? || l.EndLate?)
  }

  function Next(s: State, l: Label): State
    requires Enabled(s, l)
  {
    if IsOpLabel(l) then
      var s1 := s.(ops := s.ops[l.i := OpStep(s.ops[l.i], s.inFlight < 0, l)]);
      match l
      case SendSchedule(_) => Submit(s1)
      case SendStop(_) => Submit(s1)
      case PushSchedule(i) => s1.(queue := s.queue + [Schedule(i)], pushed := s.pushed + 1)
      case PushStop(i) => s1.(queue := s.queue + [Stop(i)], pushed := s.pushed + 1)
      case _ => s1
    else
      match l
      case TakeCommand =>
        var i, op := s.queue[0].id, s.ops[s.queue[0].id];
        var s1 := s.(queue := s.queue[1..]);
        if s.queue[0].Schedule? then
          s1.(ops := s.ops[i := op.(schedule := InHeap)], heap := s.heap + {i})
        else if i in s.heap then
          s1.(ops := s.ops[i := op.(schedule := Taken, stop := Taken)], heap := s.heap - {i},
              run := Fire(i, Stopped, Acknowledge))
        else
          s1.(ops := s.ops[i := op.(stop := Taken)], run := Ack(i))
      case Expire(i) =>
        s.(ops := s.ops[i := s.ops[i].(schedule := Taken)], heap := s.heap - {i}, run := Fire(i, Value, Continue))
      case DrainOne(i) =>
        s.(ops := s.ops[i := s.ops[i].(schedule := Taken)], heap := s.heap - {i}, run := Fire(i, Stopped, Drain))
      case FireNow =>
        var i := s.run.id;
        var op := Consume(s.ops[i].(schedule := Consumed), Runner, s.run.signal);
        s.(ops := s.ops[i := op], run := AfterFire(s.run, op.completion.Resetting?))
      case AckNow =>
        var i := s.run.id;
        var op := Consume(s.ops[i].(stop := Consumed), Runner, Stopped);
        s.(ops := s.ops[i := op], run := if op.completion.Resetting? then Await(i, Continue) else Loop)
      case Resume => s.(run := AfterWait(s.run))
      case SeeStop => s.(run := Draining, inFlight := CONTEXT_CLOSED)
      case Exit => s.(run := Exited)
      case RequestStop => s.(stopRequested := true)
      case EndPush => s.(pushed := s.pushed - 1, inFlight := s.inFlight - 1)
      case EndLate(n) =>
        s.(late := s.late - multiset{n}, inFlight := if s.inFlight == n then CONTEXT_CLOSED else s.inFlight)
      case _ => s
  }

  function AfterFire(r: RunPc, last: bool): RunPc
    requires r.Fire?
  {
    if last then Await(r.id, r.after) else AfterWait(Await(r.id, r.after))
  }

  function AfterWait(r: RunPc): RunPc
    requires r.Await?
  {
    match r.after
    case Continue => Loop
    case Acknowledge => Ack(r.id)
    case Drain => Draining
  }

  // ----- what holds of each operation on its own

  function IsOut(p: Place): nat {
    if p.Held? || p.Queued? || p.InHeap? || p.Taken? then 1 else 0
  }

  function Outstanding(op: Op): nat {
    IsOut(op.schedule) + IsOut(op.stop)
  }

  /** The exchange in `start()` succeeded. */
  predicate Won(op: Op) {
    op.start.Sending? || op.start.Pushing? || op.start.Refused? || op.start.Returned?
  }

  ghost predicate CallbackOk(op: Op) {
    match op.callback
    case Absent => false
    case Registered => op.stop.NotSent? && (Outstanding(op) == 0 ==> op.ref == 0)
    case Entered => op.stop.NotSent? && (Outstanding(op) == 0 ==> op.ref == 0)
    case CbSending => op.stop.Held?
    case CbPushing => op.stop.Held?
    case CbRefused => op.stop.Held?
    case Leaving => !op.stop.Held? && !op.stop.InHeap?
    case Finished => !op.stop.Held? && !op.stop.InHeap?
    case Removed => Outstanding(op) == 0 && (op.completion.Ready? || op.completion.Done?)
  }

  ghost predicate CompletionOk(op: Op) {
    && op.completions == (if op.completion.Done? then 1 else 0)
    && (op.completion.Ready? || op.completion.Done? <==> op.callback.Removed?)
    && (op.completion.Resetting? && op.completion.who.Stopper? ==> op.callback.Leaving?)
    && (op.destroyed ==> op.completion.Done?)
  }

  ghost predicate OpInv(op: Op) {
    && CompletionOk(op)
    && match op.start
       case Unstarted =>
         && op.ref == 0 && op.callback.Absent? && op.schedule.NotSent? && op.stop.NotSent? && op.completion.Pending?
       case Armed =>
         && op.schedule.NotSent? && op.stop.NotSent? && op.completion.Pending?
         && (op.callback.Registered? || op.callback.Entered? || op.callback.Leaving? || op.callback.Finished?)
         && op.ref == (if op.callback.Leaving? || op.callback.Finished? then 1 else 0)
       case Lost =>
         && op.schedule.NotSent? && op.stop.NotSent? && !op.completion.Pending?
         && (op.callback.Leaving? || op.callback.Finished? || op.callback.Removed?)
         && (op.completion.Resetting? || op.completion.Ready? ==> op.completion.who.Starter?)
       case _ =>
         && CallbackOk(op)
         && (op.schedule.Held? <==> !op.start.Returned?)
         && !op.schedule.NotSent?
         && (if Outstanding(op) > 0 then op.ref == Outstanding(op) && op.completion.Pending?
             else 0 <= op.ref <= 1 && !op.completion.Pending?)
  }

  // ----- where the commands are

  function PlaceOf(op: Op, c: Command): Place {
    if c.Schedule? then op.schedule else op.stop
  }

  ghost predicate OnlyQueued(s: State) {
    forall c | c in s.queue :: c.id in s.ops && PlaceOf(s.ops[c.id], c).Queued?
  }

  ghost predicate AllQueued(s: State) {
    forall c: Command | c.id in s.ops && PlaceOf(s.ops[c.id], c).Queued? :: c in s.queue
  }

  ghost predicate QueueOk(s: State) {
    OnlyQueued(s) && AllQueued(s) && Distinct(s.queue)
  }

  ghost predicate HeapOk(s: State) {
    && (forall i | i in s.heap :: i in s.ops)
    && (forall i | i in s.ops :: i in s.heap <==> s.ops[i].schedule.InHeap?)
  }

  ghost predicate RunOk(s: State) {
    && (forall i | i in s.ops :: s.ops[i].schedule.Taken? <==> s.run.Fire? && s.run.id == i)
    && (forall i | i in s.ops :: s.ops[i].stop.Taken? <==>
          && (s.run.Ack? || (s.run.Fire? && s.run.after.Acknowledge?))
          && s.run.id == i)
    && (s.run.Fire? || s.run.Ack? || s.run.Await? ==> s.run.id in s.ops)
    && (s.run.Exited? ==> s.heap == {})
    && (s.run.Await? ==> !s.run.after.Acknowledge? && !s.ops[s.run.id].completion.Pending?)
  }

  ghost predicate OpsOk(s: State) {
    forall i | i in s.ops :: OpInv(s.ops[i])
  }

  ghost predicate Inv(s: State) {
    OpsOk(s) && QueueOk(s) && HeapOk(s) && RunOk(s)
  }

  // ----- every step keeps the invariant

  lemma StartKeeps(op: Op, closed: bool, l: Label)
    requires OpInv(op) && OpEnabled(op, l)
    requires l.Emplace? || l.Exchange? || l.SendSchedule? || l.PushSchedule? || l.RefuseSchedule?
    ensures OpInv(OpStep(op, closed, l))
  {
  }

  lemma CallbackKeeps(op: Op, closed: bool, l: Label)
    requires OpInv(op) && OpEnabled(op, l)
    requires l.EnterCallback? || l.Raise? || l.SendStop? || l.PushStop? || l.RefuseStop? || l.LeaveCallback?
    ensures OpInv(OpStep(op, closed, l))
  {
  }

  lemma CompletionKeeps(op: Op, closed: bool, l: Label)
    requires OpInv(op) && OpEnabled(op, l)
    requires l.Reset? || l.Complete? || l.Destroy?
    ensures OpInv(OpStep(op, closed, l))
  {
  }

  /** What the rest of the state knows about an operation does not change under its own steps. */
  ghost predicate SamePlaces(a: Op, b: Op) {
    && (a.schedule.Queued? <==> b.schedule.Queued?)
    && (a.schedule.InHeap? <==> b.schedule.InHeap?)
    && (a.schedule.Taken? <==> b.schedule.Taken?)
    && (a.stop.Queued? <==> b.stop.Queued?)
    && (a.stop.Taken? <==> b.stop.Taken?)
    && (b.completion.Pending? ==> a.completion.Pending?)
  }

  lemma OpStepKeeps(op: Op, closed: bool, l: Label)
    requires OpInv(op) && OpEnabled(op, l)
    ensures OpInv(OpStep(op, closed, l))
    ensures !l.PushSchedule? && !l.PushStop? ==> SamePlaces(op, OpStep(op, closed, l))
    ensures l.PushSchedule? ==> op.schedule.Held? && SamePlaces(op, OpStep(op, closed, l).(schedule := op.schedule))
    ensures l.PushStop? ==> op.stop.Held? && SamePlaces(op, OpStep(op, closed, l).(stop := op.stop))
  {
    assert OpInv(OpStep(op, closed, l)) by {
      hide OpInv, OpEnabled, OpStep;
      if l.Emplace? || l.Exchange? || l.SendSchedule? || l.PushSchedule? || l.RefuseSchedule? {
        StartKeeps(op, closed, l);
      } else if l.Reset? || l.Complete? || l.Destroy? {
        CompletionKeeps(op, closed, l);
      } else if l.EnterCallback? || l.Raise? || l.SendStop? || l.PushStop? || l.RefuseStop? || l.LeaveCallback? {
        CallbackKeeps(op, closed, l);
      } else {
        NoOtherOpStep(op, l);
      }
    }
  }

  lemma NoOtherOpStep(op: Op, l: Label)
    requires OpEnabled(op, l)
    ensures IsOpLabel(l)
  {
  }

  ghost predicate Elsewhere(s: State) {
    QueueOk(s) && HeapOk(s) && RunOk(s)
  }

  lemma ElsewhereKeeps(s: State, i: nat, op: Op)
    requires Elsewhere(s) && i in s.ops && SamePlaces(s.ops[i], op)
    ensures Elsewhere(s.(ops := s.ops[i := op]))
  {
  }

  /** The run loop moves a command on, from the queue to the heap or to its own hands. */
  lemma MovedKeeps(op: Op, schedule: Place, stop: Place)
    requires OpInv(op)
    requires
      schedule == op.schedule || (IsOut(op.schedule) == IsOut(schedule) == 1 && !op.schedule.Held? && !schedule.Held?)
    requires stop == op.stop || (op.stop.Queued? && stop.Taken?)
    ensures OpInv(op.(schedule := schedule, stop := stop))
  {
  }

  lemma FiredKeeps(op: Op, signal: Signal)
    requires OpInv(op) && op.schedule.Taken?
    ensures OpInv(Consume(op.(schedule := Consumed), Runner, signal))
    ensures Consume(op.(schedule := Consumed), Runner, signal).completion.Resetting? <==> !IsOutStop(op)
  {
  }

  predicate IsOutStop(op: Op) {
    IsOut(op.stop) == 1
  }

  lemma AckedKeeps(op: Op)
    requires OpInv(op) && op.stop.Taken?
    ensures OpInv(Consume(op.(stop := Consumed), Runner, Stopped))
  {
    assert op.callback.Leaving? || op.callback.Finished?;
    assert IsOut(op.stop) == 1 && op.ref == Outstanding(op) && op.completion.Pending?;
    var after := Consume(op.(stop := Consumed), Runner, Stopped);
    assert Outstanding(after) == Outstanding(op) - 1 == after.ref;
  }

  lemma PushKeeps(s: State, c: Command, op: Op)
    requires Elsewhere(s) && c.id in s.ops
    requires if c.Schedule? then s.ops[c.id].schedule.Held? && op.schedule.Queued?
                                && SamePlaces(s.ops[c.id], op.(schedule := s.ops[c.id].schedule))
             else s.ops[c.id].stop.Held? && op.stop.Queued? && SamePlaces(s.ops[c.id], op.(stop := s.ops[c.id].stop))
    ensures Elsewhere(s.(ops := s.ops[c.id := op], queue := s.queue + [c]))
  {
    var t := s.(ops := s.ops[c.id := op], queue := s.queue + [c]);
    assert c !in s.queue;
    assert Distinct(t.queue);
    InQueue(s.queue, c);
  }

  lemma InQueue(queue: seq<Command>, c: Command)
    ensures forall d :: d in queue + [c] <==> d in queue || d == c
    ensures forall d :: d in [c] + queue <==> d in queue || d == c
  {
  }

  lemma PopKeeps(s: State, op: Op, t: State)
    requires QueueOk(s) && s.queue != []
    requires t.ops == s.ops[s.queue[0].id := op] && t.queue == s.queue[1..]
    requires var c := s.queue[0];
      && (op.schedule.Queued? <==> s.ops[c.id].schedule.Queued? && !c.Schedule?)
      && (op.stop.Queued? <==> s.ops[c.id].stop.Queued? && !c.Stop?)
    ensures QueueOk(t)
  {
    var c := s.queue[0];
    Tail(s.queue);
    assert forall d: Command | d.id in t.ops ::
        PlaceOf(t.ops[d.id], d).Queued? <==> d != c && d.id in s.ops && PlaceOf(s.ops[d.id], d).Queued?;
    hide PlaceOf, Distinct;
  }

  lemma Tail(queue: seq<Command>)
    requires Distinct(queue) && queue != []
    ensures forall d :: d in queue[1..] <==> d in queue && d != queue[0]
    ensures Distinct(queue[1..])
  {
    var rest := queue[1..];
    assert queue == [queue[0]] + rest;
    assert forall k :: 0 <= k < |rest| ==> rest[k] == queue[k + 1];
    InQueue(rest, queue[0]);
    assert queue[0] !in rest;
  }

  lemma OpsKeep(s: State, t: State, i: nat, op: Op)
    requires OpsOk(s) && OpInv(op) && t.ops == s.ops[i := op]
    ensures OpsOk(t)
  {
    hide OpInv;
  }

  lemma HeapKeeps(s: State, t: State, i: nat, op: Op)
    requires HeapOk(s) && i in s.ops && t.ops == s.ops[i := op]
    requires t.heap == if op.schedule.InHeap? then s.heap + {i} else s.heap - {i}
    ensures HeapOk(t)
  {
  }

  /** The run loop, holding no command, takes hold of at most one operation's commands. */
  lemma HandsKeep(s: State, t: State, i: nat, op: Op)
    requires RunOk(s) && i in s.ops && t.ops == s.ops[i := op]
    requires s.run.Loop? || s.run.Draining?
    requires t.run == s.run || ((t.run.Fire? || t.run.Ack?) && t.run.id == i)
    requires op.schedule.Taken? <==> t.run.Fire?
    requires op.stop.Taken? <==> t.run.Ack? || (t.run.Fire? && t.run.after.Acknowledge?)
    ensures RunOk(t)
  {
  }

  lemma TakeScheduleKeeps(s: State)
    requires Inv(s) && Enabled(s, TakeCommand) && s.queue[0].Schedule?
    ensures Inv(Next(s, TakeCommand))
  {
    var t, c := Next(s, TakeCommand), s.queue[0];
    var op := s.ops[c.id].(schedule := InHeap);
    assert t == s.(queue := s.queue[1..], ops := s.ops[c.id := op], heap := s.heap + {c.id});
    assert s.ops[c.id].schedule.Queued? && !s.ops[c.id].stop.Taken?;
    hide *;
    Assemble(s, t, c, op);
  }

  /** A stop command that finds its timer pending. */
  lemma TakeStopKeeps(s: State)
    requires Inv(s) && Enabled(s, TakeCommand) && s.queue[0].Stop? && s.queue[0].id in s.heap
    ensures Inv(Next(s, TakeCommand))
  {
    var t, c := Next(s, TakeCommand), s.queue[0];
    var op := s.ops[c.id].(schedule := Taken, stop := Taken);
    assert t == s.(queue := s.queue[1..], ops := s.ops[c.id := op], heap := s.heap - {c.id},
                   run := Fire(c.id, Stopped, Acknowledge));
    assert s.ops[c.id].schedule.InHeap? && s.ops[c.id].stop.Queued?;
    hide *;
    Assemble(s, t, c, op);
  }

  /** A stop command that comes too late, or before its schedule command. */
  lemma TakeStaleStopKeeps(s: State)
    requires Inv(s) && Enabled(s, TakeCommand) && s.queue[0].Stop? && s.queue[0].id !in s.heap
    ensures Inv(Next(s, TakeCommand))
  {
    var t, c := Next(s, TakeCommand), s.queue[0];
    var op := s.ops[c.id].(stop := Taken);
    assert t == s.(queue := s.queue[1..], ops := s.ops[c.id := op], run := Ack(c.id));
    assert !s.ops[c.id].schedule.InHeap? && !s.ops[c.id].schedule.Taken? && s.ops[c.id].stop.Queued?;
    assert t.heap == s.heap - {c.id};
    hide *;
    Assemble(s, t, c, op);
  }

  lemma Assemble(s: State, t: State, c: Command, op: Op)
    requires Inv(s) && s.queue != [] && c == s.queue[0] && c.id in s.ops && s.run.Loop?
    requires t.queue == s.queue[1..] && t.ops == s.ops[c.id := op]
    requires t.heap == if op.schedule.InHeap? then s.heap + {c.id} else s.heap - {c.id}
    requires t.run == s.run || ((t.run.Fire? || t.run.Ack?) && t.run.id == c.id)
    requires op.schedule.Taken? <==> t.run.Fire?
    requires op.stop.Taken? <==> t.run.Ack? || (t.run.Fire? && t.run.after.Acknowledge?)
    requires var o := s.ops[c.id];
      && op == o.(schedule := op.schedule, stop := op.stop)
      && (op.schedule == o.schedule
          || ((o.schedule.Queued? || o.schedule.InHeap?) && (op.schedule.InHeap? || op.schedule.Taken?)))
      && (op.stop == o.stop || (o.stop.Queued? && op.stop.Taken?))
      && (op.schedule.Queued? <==> o.schedule.Queued? && !c.Schedule?)
      && (op.stop.Queued? <==> o.stop.Queued? && !c.Stop?)
    ensures Inv(t)
  {
    MovedKeeps(s.ops[c.id], op.schedule, op.stop);
    hide QueueOk, OpInv, OpsOk, HeapOk, RunOk;
    OpsKeep(s, t, c.id, op);
    PopKeeps(s, op, t);
    HeapKeeps(s, t, c.id, op);
    HandsKeep(s, t, c.id, op);
  }

  lemma ExpireKeeps(s: State, i: nat, l: Label)
    requires Inv(s) && Enabled(s, l) && (l == Expire(i) || l == DrainOne(i))
    ensures Inv(Next(s, l))
  {
    var t, op := Next(s, l), s.ops[i].(schedule := Taken);
    assert t == s.(ops := s.ops[i := op], heap := s.heap - {i},
                   run := Fire(i, if l.Expire? then Value else Stopped, if l.Expire? then Continue else Drain));
    assert s.ops[i].schedule.InHeap? && !s.ops[i].stop.Taken?;
    MovedKeeps(s.ops[i], Taken, s.ops[i].stop);
    hide *;
    OpsKeep(s, t, i, op);
    QueueKeeps(s, t, i, op);
    HeapKeeps(s, t, i, op);
    HandsKeep(s, t, i, op);
  }

  lemma QueueKeeps(s: State, t: State, i: nat, op: Op)
    requires QueueOk(s) && i in s.ops && t.ops == s.ops[i := op] && t.queue == s.queue
    requires (op.schedule.Queued? <==> s.ops[i].schedule.Queued?) && (op.stop.Queued? <==> s.ops[i].stop.Queued?)
    ensures QueueOk(t)
  {
  }

  /** The run loop lets go of the command it holds. */
  lemma ReleasedKeeps(s: State, t: State, i: nat, op: Op)
    requires RunOk(s) && (s.run.Fire? || s.run.Ack?) && s.run.id == i && t.ops == s.ops[i := op]
    requires !op.schedule.Taken?
    requires op.stop.Taken? <==> s.run.Fire? && s.run.after.Acknowledge?
    requires t.run == AfterFire(if s.run.Fire? then s.run else Fire(i, Stopped, Continue), op.completion.Resetting?)
    requires op.stop.Taken? ==> !op.completion.Resetting?
    ensures RunOk(t)
  {
  }

  lemma FireKeeps(s: State)
    requires Inv(s) && Enabled(s, FireNow)
    ensures Inv(Next(s, FireNow))
  {
    var i, t := s.run.id, Next(s, FireNow);
    var op := Consume(s.ops[i].(schedule := Consumed), Runner, s.run.signal);
    assert t == s.(ops := s.ops[i := op], run := AfterFire(s.run, op.completion.Resetting?));
    FiredKeeps(s.ops[i], s.run.signal);
    hide QueueOk, OpInv, OpsOk, HeapOk, AfterFire;
    OpsKeep(s, t, i, op);
    QueueKeeps(s, t, i, op);
    assert !s.ops[i].schedule.InHeap?;
    SameHeap(s, t, i, op);
    ReleasedKeeps(s, t, i, op);
  }

  lemma SameHeap(s: State, t: State, i: nat, op: Op)
    requires HeapOk(s) && i in s.ops && t.ops == s.ops[i := op] && t.heap == s.heap
    requires op.schedule.InHeap? <==> s.ops[i].schedule.InHeap?
    ensures HeapOk(t)
  {
  }

  lemma AckKeeps(s: State)
    requires Inv(s) && Enabled(s, AckNow)
    ensures Inv(Next(s, AckNow))
  {
    var i, t := s.run.id, Next(s, AckNow);
    var op := Consume(s.ops[i].(stop := Consumed), Runner, Stopped);
    assert t.run == AfterFire(Fire(i, Stopped, Continue), op.completion.Resetting?);
    AckedKeeps(s.ops[i]);
    hide QueueOk, OpInv, OpsOk, HeapOk, AfterFire;
    OpsKeep(s, t, i, op);
    QueueKeeps(s, t, i, op);
    SameHeap(s, t, i, op);
    ReleasedKeeps(s, t, i, op);
  }

  lemma OwnStepKeeps(s: State, l: Label)
    requires Inv(s) && Enabled(s, l) && IsOpLabel(l)
    ensures Inv(Next(s, l))
  {
    var op := OpStep(s.ops[l.i], s.inFlight < 0, l);
    OpStepKeeps(s.ops[l.i], s.inFlight < 0, l);
    assert OpsOk(Next(s, l));
    var s1 := s.(ops := s.ops[l.i := op]);
    if l.PushSchedule? {
      PushKeeps(s, Schedule(l.i), op);
      Unaffected(s1.(queue := s.queue + [Schedule(l.i)]), Next(s, l));
    } else if l.PushStop? {
      PushKeeps(s, Stop(l.i), op);
      Unaffected(s1.(queue := s.queue + [Stop(l.i)]), Next(s, l));
    } else {
      ElsewhereKeeps(s, l.i, op);
      Unaffected(s1, Next(s, l));
    }
  }

  lemma Unaffected(s: State, t: State)
    requires Elsewhere(s) && t.ops == s.ops && t.queue == s.queue && t.heap == s.heap && t.run == s.run
    ensures Elsewhere(t)
  {
  }

  lemma StepKeeps(s: State, l: Label)
    requires Inv(s) && Enabled(s, l)
    ensures Inv(Next(s, l))
  {
    if IsOpLabel(l) {
      OwnStepKeeps(s, l);
    } else if l.TakeCommand? {
      if s.queue[0].Schedule? {
        TakeScheduleKeeps(s);
      } else if s.queue[0].id in s.heap {
        TakeStopKeeps(s);
      } else {
        TakeStaleStopKeeps(s);
      }
    } else if l.Expire? || l.DrainOne? {
      ExpireKeeps(s, l.i, l);
    } else if l.FireNow? {
      FireKeeps(s);
    } else if l.AckNow? {
      AckKeeps(s);
    } else {
      hide OpInv, QueueOk, HeapOk;
      QuietKeeps(s, l);
    }
  }

  /** Steps that move no command. */
  lemma QuietKeeps(s: State, l: Label)
    requires Inv(s) && Enabled(s, l)
    requires l.Resume? || l.SeeStop? || l.Exit? || l.RequestStop? || l.EndPush? || l.EndLate?
    ensures Inv(Next(s, l))
  {
  }

  // ----- whole runs

  ghost predicate IsRun(states: seq<State>, labels: seq<Label>) {
    && |states| == |labels| + 1
    && Init(states[0])
    && forall k :: 0 <= k < |labels| ==> Enabled(states[k], labels[k]) && states[k + 1] == Next(states[k], labels[k])
  }

  lemma InitOk(s: State)
    requires Init(s)
    ensures Inv(s)
  {
  }

  lemma {:induction false} RunsAreSafe(states: seq<State>, labels: seq<Label>, k: nat)
    requires IsRun(states, labels) && k < |states|
    ensures Inv(states[k])
  {
    hide Inv, Next, Enabled, Init;
    if k == 0 {
      InitOk(states[0]);
    } else {
      RunsAreSafe(states, labels, k - 1);
      StepKeeps(states[k - 1], labels[k - 1]);
    }
  }

  /** No receiver is completed twice, however the run went. */
  lemma CompletedAtMostOnce(states: seq<State>, labels: seq<Label>, k: nat, i: nat)
    requires IsRun(states, labels) && k < |states| && i in states[k].ops
    ensures states[k].ops[i].completions <= 1
  {
    RunsAreSafe(states, labels, k);
  }

  /** While a started operation has commands outstanding, its count is their number and it is not completed. */
  lemma CountIsOutstanding(states: seq<State>, labels: seq<Label>, k: nat, i: nat)
    requires IsRun(states, labels) && k < |states| && i in states[k].ops && Won(states[k].ops[i])
    ensures var op := states[k].ops[i];
      && (op.completion.Pending? <==> Outstanding(op) > 0)
      && (Outstanding(op) > 0 ==> op.ref == Outstanding(op) && op.completions == 0)
  {
    RunsAreSafe(states, labels, k);
    assert OpInv(states[k].ops[i]);
  }

  /** Completion begins in exactly the step that consumes the last command. */
  lemma CompletedByTheLastConsumer(states: seq<State>, labels: seq<Label>, k: nat, i: nat)
    requires IsRun(states, labels) && k < |labels| && i in states[k].ops && Won(states[k].ops[i])
    ensures i in states[k + 1].ops
    ensures var before, after := states[k].ops[i], states[k + 1].ops[i];
      before.completion.Pending? && !after.completion.Pending? <==> Outstanding(before) > 0 && Outstanding(after) == 0
  {
    hide Inv, Enabled, Init, Consume, Outstanding;
    StaysWon(states[k], labels[k], i);
    CountIsOutstanding(states, labels, k, i);
    CountIsOutstanding(states, labels, k + 1, i);
  }

  lemma StaysWon(s: State, l: Label, i: nat)
    requires Enabled(s, l) && i in s.ops && Won(s.ops[i])
    ensures i in Next(s, l).ops && Won(Next(s, l).ops[i])
  {
  }

  predicate BeginsCompletion(s: State, l: Label, i: nat, signal: Signal)
    requires Enabled(s, l) && i in s.ops && i in Next(s, l).ops
  {
    var after := Next(s, l).ops[i].completion;
    s.ops[i].completion.Pending? && after.Resetting? && after.signal == signal
  }

  /** A receiver gets a value only when its timer has expired and no stop command is outstanding any more. */
  lemma {:induction false} ValueMeansExpired(states: seq<State>, labels: seq<Label>, k: nat, i: nat) returns (j: nat)
    requires IsRun(states, labels) && k < |labels| && i in states[k].ops && i in Next(states[k], labels[k]).ops
    requires BeginsCompletion(states[k], labels[k], i, Value)
    ensures j < k && labels[j] == Expire(i) && labels[k] == FireNow
    ensures Outstanding(states[k].ops[i]) == 1 && states[k].ops[i].schedule.Taken?
  {
    BeganByFiring(states[k], labels[k], i);
    hide *;
    RunsAreSafe(states, labels, k);
    j := ExpiredBefore(states, labels, k, i);
    LastToFire(states[k], i);
  }

  lemma BeganByFiring(s: State, l: Label, i: nat)
    requires Enabled(s, l) && i in s.ops && i in Next(s, l).ops && BeginsCompletion(s, l, i, Value)
    ensures l == FireNow && s.run.Fire? && s.run.id == i && s.run.signal.Value? && s.ops[i].ref == 1
  {
  }

  lemma LastToFire(s: State, i: nat)
    requires Inv(s) && i in s.ops && s.run.Fire? && s.run.id == i && s.ops[i].ref == 1
    ensures Outstanding(s.ops[i]) == 1 && s.ops[i].schedule.Taken?
  {
    assert OpInv(s.ops[i]);
  }

  lemma {:induction false} ExpiredBefore(states: seq<State>, labels: seq<Label>, k: nat, i: nat) returns (j: nat)
    requires IsRun(states, labels) && k < |states|
    requires states[k].run.Fire? && states[k].run.id == i && states[k].run.signal.Value?
    ensures j < k && labels[j] == Expire(i)
  {
    if k > 0 && labels[k - 1] == Expire(i) {
      j := k - 1;
    } else {
      FireStays(states, labels, k, i);
      j := ExpiredBefore(states, labels, k - 1, i);
    }
  }

  lemma FireStays(states: seq<State>, labels: seq<Label>, k: nat, i: nat)
    requires IsRun(states, labels) && k < |states|
    requires states[k].run.Fire? && states[k].run.id == i && states[k].run.signal.Value?
    requires k == 0 || labels[k - 1] != Expire(i)
    ensures k > 0 && states[k - 1].run == states[k].run
  {
    if k > 0 {
      var s, l := states[k - 1], labels[k - 1];
      assert Enabled(s, l) && states[k] == Next(s, l);
    }
  }

  /** Once an operation has been completed, no thread reads or writes it: it may have been destroyed. */
  lemma NeverUsedAfterCompletion(states: seq<State>, labels: seq<Label>, k: nat, i: nat)
    requires IsRun(states, labels) && k < |labels| && i in Touches(states[k], labels[k])
    ensures i in states[k].ops && !states[k].ops[i].completion.Done? && !states[k].ops[i].destroyed
  {
    RunsAreSafe(states, labels, k);
    assert OpInv(states[k].ops[i]);
  }

  /**
   What shutdown leaves behind: once the run loop has exited, a started operation that holds no command of
   its own is without completion if and only if one of its commands is still in the queue.
   */
  lemma LeftAtExit(states: seq<State>, labels: seq<Label>, k: nat, i: nat)
    requires IsRun(states, labels) && k < |states| && i in states[k].ops
    requires states[k].run.Exited?
    requires var op := states[k].ops[i]; Won(op) && !op.schedule.Held? && !op.stop.Held?
    ensures states[k].ops[i].completion.Pending? <==> Schedule(i) in states[k].queue || Stop(i) in states[k].queue
  {
    RunsAreSafe(states, labels, k);
    assert OpInv(states[k].ops[i]);
  }

  /** One operation alone, with its schedule command pushed. */
  function Stranded(pushed: nat, inFlight: int, stopRequested: bool, run: RunPc): State {
    State(map[0 := Op(1, Returned, Registered, Queued, NotSent, Pending, 0, false)], [Schedule(0)], {}, run,
          stopRequested, inFlight, pushed, multiset{})
  }

  lemma Extend(states: seq<State>, labels: seq<Label>, l: Label, t: State)
    returns (states2: seq<State>, labels2: seq<Label>)
    requires IsRun(states, labels) && Enabled(states[|labels|], l) && t == Next(states[|labels|], l)
    ensures IsRun(states2, labels2) && |labels2| == |labels| + 1 && states2[|labels2|] == t
  {
    hide Next, Enabled, Init;
    states2, labels2 := states + [t], labels + [l];
  }

  lemma Begin(s: State) returns (states: seq<State>, labels: seq<Label>)
    requires Init(s)
    ensures IsRun(states, labels) && labels == [] && states == [s]
  {
    states, labels := [s], [];
  }

  /** One operation alone, inside `start()`. */
  function StartingAlone(start: StartPc, ref: int, callback: CallbackPc, schedule: Place, inFlight: int): State {
    State(map[0 := Op(ref, start, callback, schedule, NotSent, Pending, 0, false)], [], {}, Loop, false, inFlight, 0,
          multiset{})
  }

  lemma StartsAlone() returns (states: seq<State>, labels: seq<Label>)
    ensures IsRun(states, labels) && states[|labels|] == StartingAlone(Sending, 1, Registered, Held, 0)
  {
    hide IsRun;
    states, labels := Begin(StartingAlone(Unstarted, 0, Absent, NotSent, 0));
    states, labels := Extend(states, labels, Emplace(0), StartingAlone(Armed, 0, Registered, NotSent, 0));
    states, labels := Extend(states, labels, Exchange(0), StartingAlone(Sending, 1, Registered, Held, 0));
  }

  lemma SubmittedAlone() returns (states: seq<State>, labels: seq<Label>)
    ensures IsRun(states, labels) && states[|labels|] == Stranded(1, 1, false, Loop)
  {
    states, labels := StartsAlone();
    hide IsRun;
    states, labels := Extend(states, labels, SendSchedule(0), StartingAlone(Pushing, 1, Registered, Held, 1));
    states, labels := Extend(states, labels, PushSchedule(0), Stranded(1, 1, false, Loop));
  }

  /** That does happen: a command pushed between the loop's last look at the queue and its exit is stranded. */
  lemma ShutdownStrands() returns (states: seq<State>, labels: seq<Label>)
    ensures IsRun(states, labels)
    ensures states[|labels|].run.Exited? && 0 in states[|labels|].ops
    ensures Won(states[|labels|].ops[0]) && states[|labels|].ops[0].completion.Pending?
  {
    states, labels := SubmittedAlone();
    hide IsRun;
    states, labels := Extend(states, labels, EndPush, Stranded(0, 0, false, Loop));
    states, labels := Extend(states, labels, RequestStop, Stranded(0, 0, true, Loop));
    states, labels := Extend(states, labels, SeeStop, Stranded(0, CONTEXT_CLOSED, true, Draining));
    states, labels := Extend(states, labels, Exit, Stranded(0, CONTEXT_CLOSED, true, Exited));
  }
}
