/**
 Parallel bulk execution on the static thread pool.

 The receiver of the bulk operation enqueues one task per agent, and the workers of the pool pop or steal the
 tasks from each other. Every queue operation and every access of the shared state is one step; a queue is
 the bag of the tasks whose place names it.
 */
module BulkProtocol {
  import opened EvenShare

  /** Where a task is; `tid` is the index that is passed to it when it is executed. */
  datatype Place =
    | Idle
    | Remote(queue: nat) | Local(queue: nat)
    | Running(tid: nat) | Threw(tid: nat) | Storing(tid: nat) | Counting(tid: nat)
    | Finished(tid: nat)

  /** `calls` records the ranges for which the bulk function has been called. */
  datatype Task = Task(place: Place, threw: bool, calls: seq<Range>)

  datatype Phase = Receiving | Enqueueing | Bypassed

  datatype Signal = Value | Error | Stopped

  /** The receiver's completion: not due, due to the last task, or sent. */
  datatype Completion = NotDue | Due(task: nat) | Sent(signal: Signal)

  datatype State = State(
    shape: nat,
    workers: nat,
    phase: Phase,
    next: nat,
    tasks: seq<Task>,
    finished: nat,
    thrower: nat,
    exception: bool,
    completion: Completion,
    completions: nat)

  datatype Label =
    | PassOn(signal: Signal) | DataThrows | DataStored | Enqueue
    | MoveToLocal(task: nat) | Take(task: nat, worker: nat)
    | Call(task: nat, throws: bool) | TryRecord(task: nat) | StoreException(task: nat) | Count(task: nat) | Complete

  /** The receiver of the predecessor is called. */
  predicate Receives(l: Label) {
    l.PassOn? || l.DataThrows? || l.DataStored?
  }

  function Agents(shape: nat, workers: nat): (agents: nat)
    ensures agents <= shape && agents <= workers && (agents == shape || agents == workers)
  {
    if shape < workers then shape else workers
  }

  ghost predicate Init(s: State) {
    && s.workers > 0 && |s.tasks| == Agents(s.shape, s.workers)
    && (forall i | 0 <= i < |s.tasks| :: s.tasks[i] == Task(Idle, false, []))
    && s.phase.Receiving? && s.next == 0 && s.finished == 0 && s.thrower == |s.tasks| && !s.exception
    && s.completion.NotDue? && s.completions == 0
  }

  predicate Enabled(s: State, l: Label) {
    match l
    case PassOn(signal) => s.phase.Receiving? && !signal.Value?
    case DataThrows => s.phase.Receiving?
    case DataStored => s.phase.Receiving?
    case Enqueue => s.phase.Enqueueing? && s.next < |s.tasks| && s.workers > 0
    case MoveToLocal(i) => i < |s.tasks| && s.tasks[i].place.Remote?
    case Take(i, worker) => i < |s.tasks| && s.tasks[i].place.Local? && worker < s.workers
    case Call(i, throws) => i < |s.tasks| && s.tasks[i].place.Running? && s.tasks[i].place.tid < |s.tasks|
    case TryRecord(i) => i < |s.tasks| && s.tasks[i].place.Threw?
    case StoreException(i) => i < |s.tasks| && s.tasks[i].place.Storing?
    case Count(i) => i < |s.tasks| && s.tasks[i].place.Counting?
    case Complete => s.completion.Due?
  }

  /** The result of `pop`: a worker's own queue has the worker's index, a victim's queue the victim's. */
  function QueueIndex(worker: nat, queue: nat): nat {
    var stolen := worker != queue;
    if stolen then queue else worker
  }

  function With(s: State, i: nat, task: Task): State
    requires i < |s.tasks|
  {
    s.(tasks := s.tasks[i := task])
  }

  function Next(s: State, l: Label): State
    requires Enabled(s, l)
  {
    match l
    case PassOn(signal) => s.(phase := Bypassed, completion := Sent(signal), completions := s.completions + 1)
    case DataThrows => s.(phase := Bypassed, completion := Sent(Error), completions := s.completions + 1)
    case DataStored =>
      if s.shape > 0 then s.(phase := Enqueueing)
      else s.(phase := Bypassed, completion := Sent(Value), completions := s.completions + 1)
    case Enqueue => With(s, s.next, s.tasks[s.next].(place := Remote(s.next % s.workers))).(next := s.next + 1)
    case MoveToLocal(i) => With(s, i, s.tasks[i].(place := Local(s.tasks[i].place.queue)))
    case Take(i, worker) => With(s, i, s.tasks[i].(place := Running(QueueIndex(worker, s.tasks[i].place.queue))))
    case Call(i, throws) =>
      var tid := s.tasks[i].place.tid;
      With(s, i, Task(if throws then Threw(tid) else Counting(tid), throws,
                      s.tasks[i].calls + [Share(s.shape, tid, |s.tasks|)]))
    case TryRecord(i) =>
      var tid := s.tasks[i].place.tid;
      if s.thrower == |s.tasks| then With(s, i, s.tasks[i].(place := Storing(tid))).(thrower := tid)
      else With(s, i, s.tasks[i].(place := Counting(tid)))
    case StoreException(i) => With(s, i, s.tasks[i].(place := Counting(s.tasks[i].place.tid))).(exception := true)
    case Count(i) =>
      With(s, i, s.tasks[i].(place := Finished(s.tasks[i].place.tid)))
        .(finished := s.finished + 1, completion := if s.finished == |s.tasks| - 1 then Due(i) else s.completion)
    case Complete => s.(completion := Sent(if s.exception then Error else Value), completions := s.completions + 1)
  }

  // ----- the invariant

  function FinishedCount(tasks: seq<Task>): nat {
    if tasks == [] then 0
    else FinishedCount(tasks[..|tasks| - 1]) + if tasks[|tasks| - 1].place.Finished? then 1 else 0
  }

  /** A task that has thrown is past the attempt to record its exception. */
  predicate Recorded(task: Task) {
    task.threw && (task.place.Storing? || task.place.Counting? || task.place.Finished?)
  }

  ghost predicate TaskOk(i: nat, task: Task, shape: nat, n: nat, next: nat)
    requires i < n
  {
    && (task.place.Idle? <==> i >= next)
    && (task.place.Remote? || task.place.Local? ==> task.place.queue == i)
    && (if task.place.Idle? || task.place.Remote? || task.place.Local? then task.calls == [] && !task.threw
        else task.place.tid == i)
    && (task.place.Running? ==> task.calls == [] && !task.threw)
    && (task.place.Threw? || task.place.Storing? || task.place.Counting? || task.place.Finished? ==>
          task.calls == [Share(shape, i, n)])
    && (task.place.Threw? || task.place.Storing? ==> task.threw)
  }

  ghost predicate TasksOk(s: State) {
    && |s.tasks| == Agents(s.shape, s.workers) && s.next <= |s.tasks|
    && forall i | 0 <= i < |s.tasks| :: TaskOk(i, s.tasks[i], s.shape, |s.tasks|, s.next)
  }

  /** The first task to record its exception is the one that stores it. */
  ghost predicate ExceptionOk(s: State) {
    && s.thrower <= |s.tasks|
    && (s.thrower == |s.tasks| ==> !s.exception && forall i | 0 <= i < |s.tasks| :: !Recorded(s.tasks[i]))
    && (s.thrower < |s.tasks| ==>
          && Recorded(s.tasks[s.thrower])
          && (s.exception <==> !s.tasks[s.thrower].place.Storing?))
    && (forall i | 0 <= i < |s.tasks| && s.tasks[i].place.Storing? :: i == s.thrower)
  }

  ghost predicate AllFinished(s: State) {
    forall i | 0 <= i < |s.tasks| :: s.tasks[i].place.Finished?
  }

  ghost predicate SomeThrew(s: State) {
    exists i :: 0 <= i < |s.tasks| && s.tasks[i].threw
  }

  ghost predicate CompletionOk(s: State) {
    && s.finished == FinishedCount(s.tasks)
    && s.completions == (if s.completion.Sent? then 1 else 0)
    && (s.phase.Receiving? ==> s.completion.NotDue? && s.next == 0)
    && (s.phase.Bypassed? ==> s.completion.Sent? && s.next == 0)
    && (s.phase.Enqueueing? ==> |s.tasks| > 0 && (s.completion.NotDue? <==> s.finished < |s.tasks|))
    && (s.phase.Enqueueing? && s.completion.Sent? ==> s.completion.signal == if SomeThrew(s) then Error else Value)
  }

  ghost predicate Inv(s: State) {
    s.workers > 0 && TasksOk(s) && ExceptionOk(s) && CompletionOk(s)
  }

  // ----- every step keeps it

  lemma {:induction false} CountBounds(tasks: seq<Task>)
    ensures FinishedCount(tasks) <= |tasks|
    ensures FinishedCount(tasks) == |tasks| <==> forall i | 0 <= i < |tasks| :: tasks[i].place.Finished?
  {
    if tasks != [] {
      var rest := tasks[..|tasks| - 1];
      CountBounds(rest);
      assert forall i | 0 <= i < |rest| :: rest[i] == tasks[i];
    }
  }

  lemma {:induction false} CountUpdates(tasks: seq<Task>, i: nat, task: Task)
    requires i < |tasks| && !tasks[i].place.Finished?
    ensures FinishedCount(tasks[i := task]) == FinishedCount(tasks) + if task.place.Finished? then 1 else 0
  {
    var n := |tasks| - 1;
    if i == n {
      assert tasks[i := task][..n] == tasks[..n];
    } else {
      assert tasks[i := task][..n] == tasks[..n][i := task];
      CountUpdates(tasks[..n], i, task);
    }
  }

  lemma {:induction false} NoneFinished(tasks: seq<Task>)
    requires forall i | 0 <= i < |tasks| :: !tasks[i].place.Finished?
    ensures FinishedCount(tasks) == 0
  {
    if tasks != [] {
      NoneFinished(tasks[..|tasks| - 1]);
    }
  }

  lemma InitOk(s: State)
    requires Init(s)
    ensures Inv(s)
  {
    NoneFinished(s.tasks);
  }

  /** No task changes once all have finished. */
  lemma NotAllFinished(s: State, i: nat)
    requires Inv(s) && i < |s.tasks| && !s.tasks[i].place.Finished?
    ensures s.finished < |s.tasks| && !s.completion.Due? && (s.phase.Enqueueing? ==> s.completion.NotDue?)
  {
    CountBounds(s.tasks);
  }

  lemma TasksKeep(s: State, t: State, i: nat, task: Task)
    requires TasksOk(s) && i < |s.tasks| && t.tasks == s.tasks[i := task]
    requires t.shape == s.shape && t.workers == s.workers && t.next == s.next
    requires TaskOk(i, task, s.shape, |s.tasks|, s.next)
    ensures TasksOk(t)
  {
    hide TaskOk;
  }

  /** A step of one task that records no exception. */
  lemma ExceptionKeeps(s: State, t: State, i: nat, task: Task)
    requires ExceptionOk(s) && i < |s.tasks| && t.tasks == s.tasks[i := task]
    requires t.thrower == s.thrower && !task.place.Storing?
    requires Recorded(s.tasks[i]) ==> Recorded(task)
    requires Recorded(task) && !Recorded(s.tasks[i]) ==> s.thrower < |s.tasks|
    requires t.exception == (s.exception || s.tasks[i].place.Storing?)
    ensures ExceptionOk(t)
  {
  }

  lemma CompletionKeeps(s: State, t: State, i: nat, task: Task)
    requires Inv(s) && i < |s.tasks| && t.tasks == s.tasks[i := task] && !s.tasks[i].place.Finished?
    requires t.phase == s.phase && t.next == s.next && t.completions == s.completions
    requires t.finished == s.finished + if task.place.Finished? then 1 else 0
    requires t.completion ==
             if task.place.Finished? && s.finished == |s.tasks| - 1 then Due(i) else s.completion
    requires s.phase.Enqueueing?
    ensures CompletionOk(t)
  {
    NotAllFinished(s, i);
    CountUpdates(s.tasks, i, task);
  }

  /** Only tasks that have been enqueued move, so the bulk operation is under way. */
  lemma MovingIsEnqueueing(s: State, i: nat)
    requires Inv(s) && i < |s.tasks| && !s.tasks[i].place.Idle?
    ensures s.phase.Enqueueing? && TaskOk(i, s.tasks[i], s.shape, |s.tasks|, s.next)
  {
  }

  lemma MoveKeeps(s: State, l: Label)
    requires Inv(s) && Enabled(s, l) && (l.MoveToLocal? || l.Take? || l.Call?)
    ensures Inv(Next(s, l))
  {
    var i, t := l.task, Next(s, l);
    var task := t.tasks[i];
    MovingIsEnqueueing(s, i);
    assert t == s.(tasks := s.tasks[i := task]);
    assert TaskOk(i, task, s.shape, |s.tasks|, s.next);
    assert !Recorded(task) && !task.place.Storing? && !task.place.Finished? && !s.tasks[i].place.Finished?;
    hide TasksOk, TaskOk, ExceptionOk, Recorded;
    TasksKeep(s, t, i, task);
    NotRecorded(s, i);
    ExceptionKeeps(s, t, i, task);
    CompletionKeeps(s, t, i, task);
    hide CompletionOk;
  }

  lemma NotRecorded(s: State, i: nat)
    requires i < |s.tasks| && TaskOk(i, s.tasks[i], s.shape, |s.tasks|, s.next)
    requires s.tasks[i].place.Remote? || s.tasks[i].place.Local? || s.tasks[i].place.Running?
    ensures !Recorded(s.tasks[i])
  {
  }

  /** The compare-exchange succeeds exactly for the first task that gets to it. */
  lemma WinRecordKeeps(s: State, i: nat)
    requires Inv(s) && Enabled(s, TryRecord(i)) && s.thrower == |s.tasks|
    ensures Inv(Next(s, TryRecord(i)))
  {
    var t := Next(s, TryRecord(i));
    var task := t.tasks[i];
    MovingIsEnqueueing(s, i);
    assert t == s.(tasks := s.tasks[i := task], thrower := i);
    assert task == s.tasks[i].(place := Storing(i));
    assert ExceptionOk(t);
    hide TasksOk, ExceptionOk;
    TasksKeep(s, t, i, task);
    CompletionKeeps(s, t, i, task);
    hide CompletionOk;
  }

  lemma RecordKeeps(s: State, l: Label)
    requires Inv(s) && Enabled(s, l)
    requires l.StoreException? || l.Count? || (l.TryRecord? && s.thrower < |s.tasks|)
    ensures Inv(Next(s, l))
  {
    var i, t := l.task, Next(s, l);
    var task := t.tasks[i];
    MovingIsEnqueueing(s, i);
    assert task == s.tasks[i].(place := if l.Count? then Finished(i) else Counting(i));
    assert t.tasks == s.tasks[i := task];
    assert s.tasks[i].place.Storing? ==> s.thrower == i < |s.tasks|;
    hide TasksOk, ExceptionOk;
    TasksKeep(s, t, i, task);
    ExceptionKeeps(s, t, i, task);
    CompletionKeeps(s, t, i, task);
    hide CompletionOk;
  }

  lemma SmallRemainder(i: nat, n: nat)
    requires i < n
    ensures i % n == i
  {
  }

  /** There are no more agents than workers, so the remote queue of worker `i` gets task `i` alone. */
  lemma EnqueueStep(s: State)
    requires Inv(s) && Enabled(s, Enqueue)
    ensures Next(s, Enqueue) ==
            s.(tasks := s.tasks[s.next := s.tasks[s.next].(place := Remote(s.next))], next := s.next + 1)
  {
    SmallRemainder(s.next, s.workers);
  }

  lemma EnqueueKeeps(s: State)
    requires Inv(s) && Enabled(s, Enqueue)
    ensures Inv(Next(s, Enqueue))
  {
    EnqueueStep(s);
    hide Next;
    var i, t := s.next, Next(s, Enqueue);
    var task := s.tasks[i].(place := Remote(i));
    assert TaskOk(i, s.tasks[i], s.shape, |s.tasks|, s.next);
    TasksEnqueue(s, t);
    NotAllFinished(s, i);
    CountUpdates(s.tasks, i, task);
    hide TasksOk, FinishedCount;
    ExceptionKeeps(s, t, i, task);
    hide ExceptionOk;
  }

  lemma TasksEnqueue(s: State, t: State)
    requires TasksOk(s) && s.next < |s.tasks|
    requires t == s.(tasks := s.tasks[s.next := s.tasks[s.next].(place := Remote(s.next))], next := s.next + 1)
    ensures TasksOk(t)
  {
    assert TaskOk(s.next, s.tasks[s.next], s.shape, |s.tasks|, s.next);
    forall i | 0 <= i < |t.tasks|
      ensures TaskOk(i, t.tasks[i], t.shape, |t.tasks|, t.next)
    {
      assert TaskOk(i, s.tasks[i], s.shape, |s.tasks|, s.next);
    }
  }

  lemma ReceiveKeeps(s: State, l: Label)
    requires Inv(s) && Enabled(s, l) && Receives(l)
    ensures Inv(Next(s, l))
  {
    hide TaskOk, ExceptionOk;
    if |s.tasks| > 0 {
      NotAllFinishedYet(s);
    }
    assert ExceptionOk(Next(s, l)) by { hide *; SameException(s, l); }
  }

  lemma SameException(s: State, l: Label)
    requires Inv(s) && Enabled(s, l) && Receives(l)
    ensures ExceptionOk(Next(s, l))
  {
  }

  lemma NotAllFinishedYet(s: State)
    requires Inv(s) && s.phase.Receiving? && |s.tasks| > 0
    ensures s.finished < |s.tasks|
  {
    assert TaskOk(0, s.tasks[0], s.shape, |s.tasks|, s.next);
    NotAllFinished(s, 0);
  }

  /** When all tasks have finished, an exception has been stored if and only if some task threw. */
  lemma ExceptionMeansThrew(s: State)
    requires TasksOk(s) && ExceptionOk(s) && AllFinished(s)
    ensures s.exception <==> SomeThrew(s)
  {
    if i :| 0 <= i < |s.tasks| && s.tasks[i].threw {
      assert Recorded(s.tasks[i]);
    }
  }

  lemma CompleteKeeps(s: State)
    requires Inv(s) && Enabled(s, Complete)
    ensures Inv(Next(s, Complete))
  {
    var t := Next(s, Complete);
    CountBounds(s.tasks);
    assert AllFinished(s);
    hide TaskOk;
    assert TasksOk(t) && ExceptionOk(t);
    ExceptionMeansThrew(t);
    hide TasksOk, ExceptionOk;
  }

  lemma StepKeeps(s: State, l: Label)
    requires Inv(s) && Enabled(s, l)
    ensures Inv(Next(s, l))
  {
    hide Inv, Next;
    match l
    case PassOn(_) => ReceiveKeeps(s, l);
    case DataThrows => ReceiveKeeps(s, l);
    case DataStored => ReceiveKeeps(s, l);
    case Enqueue => EnqueueKeeps(s);
    case MoveToLocal(_) => MoveKeeps(s, l);
    case Take(_, _) => MoveKeeps(s, l);
    case Call(_, _) => MoveKeeps(s, l);
    case TryRecord(i) =>
      if s.thrower == |s.tasks| {
        WinRecordKeeps(s, i);
      } else {
        ThrowerBound(s);
        RecordKeeps(s, l);
      }
    case StoreException(_) => RecordKeeps(s, l);
    case Count(_) => RecordKeeps(s, l);
    case Complete => CompleteKeeps(s);
  }

  lemma ThrowerBound(s: State)
    requires Inv(s)
    ensures s.thrower <= |s.tasks|
  {
  }

  // ----- whole runs

  ghost predicate IsRun(states: seq<State>, labels: seq<Label>) {
    && |states| == |labels| + 1
    && Init(states[0])
    && forall k :: 0 <= k < |labels| ==> Enabled(states[k], labels[k]) && states[k + 1] == Next(states[k], labels[k])
  }

  lemma {:induction false} RunsAreSafe(states: seq<State>, labels: seq<Label>, k: nat)
    requires IsRun(states, labels) && k < |states|
    ensures Inv(states[k])
  {
    hide Inv, Next, Enabled, Init;
    if k == 0 {
      InitOk(states[0]);
    } else {
      RunsAreSafe(states, labels, k - 1);
      StepKeeps(states[k - 1], labels[k - 1]);
    }
  }

  /** However tasks are stolen, task `i` is executed with thread index `i` and calls the function for share `i`. */
  lemma TaskRunsItsOwnShare(states: seq<State>, labels: seq<Label>, k: nat, i: nat)
    requires IsRun(states, labels) && k < |states| && i < |states[k].tasks|
    ensures var s, task := states[k], states[k].tasks[i];
      && |s.tasks| == Agents(s.shape, s.workers)
      && (task.place.Running? || task.place.Threw? || task.place.Storing? || task.place.Counting? ==>
            task.place.tid == i)
      && (task.place.Finished? ==> task.place.tid == i)
      && (task.calls == [] || task.calls == [Share(s.shape, i, |s.tasks|)])
  {
    RunsAreSafe(states, labels, k);
    assert TaskOk(i, states[k].tasks[i], states[k].shape, |states[k].tasks|, states[k].next);
  }

  lemma CompletedAtMostOnce(states: seq<State>, labels: seq<Label>, k: nat)
    requires IsRun(states, labels) && k < |states|
    ensures states[k].completions == if states[k].completion.Sent? then 1 else 0
  {
    RunsAreSafe(states, labels, k);
  }

  // ----- which way a run takes

  /** What is sent without any task, if the receiver is called as in `l`. */
  function Bypass(shape: nat, l: Label): Signal {
    if l.PassOn? then l.signal else if l.DataThrows? || shape > 0 then Error else Value
  }

  lemma WayInStep(s: State, l: Label)
    requires Inv(s) && Enabled(s, l)
    ensures Next(s, l).shape == s.shape && Next(s, l).workers == s.workers
    ensures s.phase.Receiving? <==> Receives(l)
    ensures Receives(l) ==>
              if l.DataStored? && s.shape > 0 then Next(s, l).phase.Enqueueing?
              else Next(s, l).phase.Bypassed? && Next(s, l).completion == Sent(Bypass(s.shape, l))
    ensures s.phase.Enqueueing? ==> Next(s, l).phase.Enqueueing?
    ensures !s.phase.Bypassed?
  {
    if !s.phase.Receiving? && s.completion.Sent? {
      NoStepLeft(s, l);
    } else if s.phase.Receiving? {
      assert forall i | 0 <= i < |s.tasks| :: TaskOk(i, s.tasks[i], s.shape, |s.tasks|, s.next);
      assert forall i | 0 <= i < |s.tasks| :: s.tasks[i].place.Idle?;
    }
    hide TasksOk, ExceptionOk;
  }

  /** A run goes the way that its first step has chosen. */
  lemma {:induction false} WayIsFixed(states: seq<State>, labels: seq<Label>, k: nat)
    requires IsRun(states, labels) && 0 < k < |states|
    ensures Receives(labels[0]) && states[k].shape == states[0].shape && states[k].workers == states[0].workers
    ensures if labels[0].DataStored? && states[0].shape > 0 then states[k].phase.Enqueueing?
            else
              k == 1 && states[k].phase.Bypassed? && states[k].completion == Sent(Bypass(states[0].shape, labels[0]))
    ensures k < |labels| ==> !Receives(labels[k])
  {
    hide Inv, Next, Enabled, Init, Receives;
    RunsAreSafe(states, labels, k - 1);
    RunsAreSafe(states, labels, k);
    assert k == 1 ==> states[0].phase.Receiving? by { StartsReceiving(states, labels); }
    WayInStep(states[k - 1], labels[k - 1]);
    if k > 1 {
      WayIsFixed(states, labels, k - 1);
    }
    if k < |labels| {
      WayInStep(states[k], labels[k]);
    }
  }

  lemma StartsReceiving(states: seq<State>, labels: seq<Label>)
    requires IsRun(states, labels)
    ensures states[0].phase.Receiving?
  {
  }

  /** Some call of the function has thrown, up to step `k`. */
  predicate SomeCallThrew(labels: seq<Label>, k: nat)
    requires k <= |labels|
  {
    exists j :: 0 <= j < k && labels[j].Call? && labels[j].throws
  }

  lemma ThrewInStep(s: State, l: Label)
    requires Inv(s) && Enabled(s, l)
    ensures SomeThrew(Next(s, l)) <==> SomeThrew(s) || (l.Call? && l.throws)
  {
    assert forall i | 0 <= i < |s.tasks| :: TaskOk(i, s.tasks[i], s.shape, |s.tasks|, s.next);
    var t := Next(s, l);
    if l.Call? {
      assert t.tasks[l.task].threw == l.throws && !s.tasks[l.task].threw;
      assert forall i | 0 <= i < |s.tasks| && i != l.task :: t.tasks[i] == s.tasks[i];
    } else {
      assert forall i | 0 <= i < |s.tasks| :: t.tasks[i].threw == s.tasks[i].threw;
    }
  }

  lemma {:induction false} ThrewMeansCall(states: seq<State>, labels: seq<Label>, k: nat)
    requires IsRun(states, labels) && k < |states|
    ensures SomeThrew(states[k]) <==> SomeCallThrew(labels, k)
  {
    if k > 0 {
      hide Inv, Next, Enabled, Init, SomeThrew;
      RunsAreSafe(states, labels, k - 1);
      ThrewInStep(states[k - 1], labels[k - 1]);
      ThrewMeansCall(states, labels, k - 1);
    }
  }

  /**
   If the predecessor's values have been stored and there are items, the receiver is completed only after every
   task has called the function for its share, once, and with an error if and only if one of these calls threw.
   */
  lemma CompletedAfterAllShares(states: seq<State>, labels: seq<Label>, k: nat)
    requires IsRun(states, labels) && k < |states| && states[k].completion.Sent?
    requires states[0].shape > 0 && |labels| > 0 && labels[0].DataStored?
    ensures states[k].shape == states[0].shape && |states[k].tasks| == Agents(states[0].shape, states[0].workers)
    ensures AllFinished(states[k])
    ensures forall i | 0 <= i < |states[k].tasks| ::
              states[k].tasks[i].calls == [Share(states[k].shape, i, |states[k].tasks|)]
    ensures states[k].completion.signal == if SomeCallThrew(labels, k) then Error else Value
  {
    RunsAreSafe(states, labels, k);
    assert k > 0;
    WayIsFixed(states, labels, k);
    ThrewMeansCall(states, labels, k);
    var s := states[k];
    CountBounds(s.tasks);
    hide IsRun;
    assert forall i | 0 <= i < |s.tasks| :: TaskOk(i, s.tasks[i], s.shape, |s.tasks|, s.next);
  }

  /**
   Otherwise the receiver is completed by the first step: with the predecessor's error or stopped signal, with an
   error if the values could not be stored, and with a value if there are no items.
   */
  lemma CompletedWithoutTasks(states: seq<State>, labels: seq<Label>)
    requires IsRun(states, labels) && |labels| > 0 && !(labels[0].DataStored? && states[0].shape > 0)
    ensures |labels| == 1 && Receives(labels[0])
    ensures labels[0].PassOn? ==> states[1].completion == Sent(labels[0].signal)
    ensures labels[0].DataThrows? ==> states[1].completion == Sent(Error)
    ensures labels[0].DataStored? ==> states[1].completion == Sent(Value)
    ensures forall i | 0 <= i < |states[1].tasks| :: states[1].tasks[i].calls == []
  {
    hide Next, Enabled, Init;
    WayIsFixed(states, labels, 1);
    if |labels| > 1 {
      WayIsFixed(states, labels, 2);
    }
    RunsAreSafe(states, labels, 1);
    hide IsRun;
    var s := states[1];
    assert s.next == 0;
    assert forall i | 0 <= i < |s.tasks| :: TaskOk(i, s.tasks[i], s.shape, |s.tasks|, s.next);
  }

  predicate Covers(s: State, i: nat, item: nat)
    requires i < |s.tasks|
  {
    |s.tasks[i].calls| == 1 && s.tasks[i].calls[0].begin <= item < s.tasks[i].calls[0].end
  }

  /** By then each item of the shape has been covered by exactly one call. */
  lemma EachItemOnce(states: seq<State>, labels: seq<Label>, k: nat, item: nat) returns (i: nat)
    requires IsRun(states, labels) && k < |states| && states[k].completion.Sent?
    requires states[0].shape > 0 && |labels| > 0 && labels[0].DataStored? && item < states[0].shape
    ensures i < |states[k].tasks| && Covers(states[k], i, item)
    ensures forall j | 0 <= j < |states[k].tasks| && j != i :: !Covers(states[k], j, item)
  {
    var s := states[k];
    CompletedAfterAllShares(states, labels, k);
    RunsAreSafe(states, labels, k);
    assert |s.tasks| > 0;
    hide *;
    i := SharesPartition(s.shape, item, |s.tasks|);
    CoversIsInShare(s, item);
  }

  lemma CoversIsInShare(s: State, item: nat)
    requires forall i | 0 <= i < |s.tasks| :: s.tasks[i].calls == [Share(s.shape, i, |s.tasks|)]
    ensures forall i | 0 <= i < |s.tasks| :: Covers(s, i, item) <==> InShare(s.shape, item, i, |s.tasks|)
  {
    hide Share;
  }

  /** The tasks and the shared state belong to the operation, which may be gone once it has been completed. */
  lemma NothingHappensAfterwards(states: seq<State>, labels: seq<Label>, k: nat)
    requires IsRun(states, labels) && k < |states| && states[k].completion.Sent?
    ensures k == |labels|
  {
    if k < |labels| {
      RunsAreSafe(states, labels, k);
      NoStepLeft(states[k], labels[k]);
    }
  }

  lemma NoStepLeft(s: State, l: Label)
    requires Inv(s) && s.completion.Sent?
    ensures !Enabled(s, l)
  {
    CountBounds(s.tasks);
    if s.phase.Enqueueing? {
      assert AllFinished(s);
      assert forall i | 0 <= i < |s.tasks| :: TaskOk(i, s.tasks[i], s.shape, |s.tasks|, s.next);
    } else {
      assert forall i | 0 <= i < |s.tasks| :: TaskOk(i, s.tasks[i], s.shape, |s.tasks|, s.next);
      assert forall i | 0 <= i < |s.tasks| :: s.tasks[i].place.Idle?;
    }
  }

  /** Until then some step can always be taken. */
  lemma NeverStuck(states: seq<State>, labels: seq<Label>, k: nat) returns (l: Label)
    requires IsRun(states, labels) && k < |states| && !states[k].completion.Sent?
    ensures Enabled(states[k], l)
  {
    var s := states[k];
    RunsAreSafe(states, labels, k);
    if s.phase.Receiving? {
      l := DataStored;
    } else if s.completion.Due? {
      l := Complete;
    } else if s.next < |s.tasks| {
      l := Enqueue;
    } else {
      CountBounds(s.tasks);
      var i :| 0 <= i < |s.tasks| && !s.tasks[i].place.Finished?;
      assert TaskOk(i, s.tasks[i], s.shape, |s.tasks|, s.next);
      match s.tasks[i].place
      case Remote(_) => l := MoveToLocal(i);
      case Local(_) => l := Take(i, 0);
      case Running(_) => l := Call(i, false);
      case Threw(_) => l := TryRecord(i);
      case Storing(_) => l := StoreException(i);
      case Counting(_) => l := Count(i);
    }
  }

  function StepsLeft(task: Task): nat {
    match task.place
    case Idle => 7
    case Remote(_) => 6
    case Local(_) => 5
    case Running(_) => 4
    case Threw(_) => 3
    case Storing(_) => 2
    case Counting(_) => 1
    case Finished(_) => 0
  }

  function AllStepsLeft(tasks: seq<Task>): nat {
    if tasks == [] then 0 else AllStepsLeft(tasks[..|tasks| - 1]) + StepsLeft(tasks[|tasks| - 1])
  }

  lemma {:induction false} StepsUpdate(tasks: seq<Task>, i: nat, task: Task)
    requires i < |tasks|
    ensures AllStepsLeft(tasks[i := task]) == AllStepsLeft(tasks) - StepsLeft(tasks[i]) + StepsLeft(task)
  {
    var n := |tasks| - 1;
    if i == n {
      assert tasks[i := task][..n] == tasks[..n];
    } else {
      assert tasks[i := task][..n] == tasks[..n][i := task];
      StepsUpdate(tasks[..n], i, task);
    }
  }

  function Rank(s: State): nat {
    AllStepsLeft(s.tasks) + (if s.phase.Receiving? then 1 else 0) + (if s.completion.Sent? then 0 else 1)
  }

  lemma TaskStepCounts(s: State, l: Label)
    requires Inv(s) && Enabled(s, l)
    requires !Receives(l) && !l.Complete? && !l.Enqueue?
    ensures Rank(Next(s, l)) < Rank(s)
  {
    var i, t := l.task, Next(s, l);
    MovingIsEnqueueing(s, i);
    hide Inv;
    assert t.tasks == s.tasks[i := t.tasks[i]];
    assert StepsLeft(t.tasks[i]) < StepsLeft(s.tasks[i]);
    NotSentYet(s, i);
    assert t.phase == s.phase && (t.completion == s.completion || t.completion.Due?);
    hide Next, AllStepsLeft, StepsLeft;
    StepsUpdate(s.tasks, i, t.tasks[i]);
  }

  lemma NotSentYet(s: State, i: nat)
    requires Inv(s) && i < |s.tasks| && !s.tasks[i].place.Finished? && s.phase.Enqueueing?
    ensures !s.completion.Sent?
  {
    NotAllFinished(s, i);
  }

  /** Every step is progress. */
  lemma EveryStepCounts(s: State, l: Label)
    requires Inv(s) && Enabled(s, l)
    ensures Rank(Next(s, l)) < Rank(s)
  {
    if l.Enqueue? {
      EnqueueStep(s);
      hide Next;
      assert TaskOk(s.next, s.tasks[s.next], s.shape, |s.tasks|, s.next);
      StepsUpdate(s.tasks, s.next, s.tasks[s.next].(place := Remote(s.next)));
    } else if Receives(l) || l.Complete? {
      hide AllStepsLeft;
    } else {
      TaskStepCounts(s, l);
    }
  }

  lemma {:induction false} RunsAreShort(states: seq<State>, labels: seq<Label>, k: nat)
    requires IsRun(states, labels) && k < |states|
    ensures k + Rank(states[k]) <= Rank(states[0])
  {
    hide Next, Enabled, Init, Rank, Inv;
    if k > 0 {
      RunsAreShort(states, labels, k - 1);
      RunsAreSafe(states, labels, k - 1);
      EveryStepCounts(states[k - 1], labels[k - 1]);
    }
  }

  /** So every run ends, and where no step can be taken any more the receiver has been completed exactly once. */
  lemma CompletedExactlyOnce(states: seq<State>, labels: seq<Label>)
    requires IsRun(states, labels)
    requires forall l :: !Enabled(states[|labels|], l)
    ensures states[|labels|].completions == 1 && states[|labels|].completion.Sent?
    ensures |labels| <= Rank(states[0])
  {
    hide Next, Enabled, Init;
    RunsAreShort(states, labels, |labels|);
    if !states[|labels|].completion.Sent? {
      var l := NeverStuck(states, labels, |labels|);
    }
    CompletedAtMostOnce(states, labels, |labels|);
  }
}
