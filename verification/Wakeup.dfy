/**
 How a worker of the static thread pool goes to sleep, and how it is woken.

 One worker with its state word, mutex, condition variable and share of the remote queues, and any number of
 other threads that push to a queue and notify, notify without a push, or request stop. Each access of the
 word, of the mutex, of a queue and of the condition variable is one step. After its last look at the queues the
 worker may have a task or not: tasks may be left from an earlier look, and thieves may take what it has found.
 */
module Wakeup {

  datatype Word = Running | Sleeping | Notified

  /** The worker. Everything it does without its mutex, outside the wait, is `Away`. */
  datatype Pc =
    | Away
    | CheckingStop | Casing | LoadingHead | Visiting(rest: set<nat>)
    | Sleepy | Blocked | Woken | Relocked | Resetting
    | Gone

  /** Another thread. `About` has pushed to a queue and goes on to notify; `Poking` notifies without a push. */
  datatype Doing =
    | Quiet
    | About(queue: nat) | Poking
    | Locking | Holding | Notifying
    | StopLocking | StopHolding | StopNotifying

  datatype Owner = Nobody | Worker | Thread(id: nat)

  datatype State = State(
    word: Word,
    mutex: Owner,
    pc: Pc,
    stop: bool,
    queues: map<nat, seq<nat>>,
    threads: map<nat, Doing>)

  datatype Label =
      // the worker
    | PopAway(queue: nat) | Lock | CheckStop | Cas(spurious: bool) | LoadHead | Visit(queue: nat)
    | EndVisit(taken: bool) | Wait | WakeSpuriously | Relock | Unlock | Reset
      // other threads
    | Register(queue: nat) | Push(t: nat, queue: nat, task: nat) | Poke(t: nat) | Exchange(t: nat)
    | LockToNotify(t: nat) | UnlockToNotify(t: nat) | NotifyOne(t: nat)
    | RequestStop(t: nat) | LockToStop(t: nat) | UnlockToStop(t: nat)

  ghost predicate Init(s: State) {
    && s.word.Running? && s.mutex.Nobody? && s.pc.Away? && !s.stop
    && (forall q | q in s.queues :: s.queues[q] == [])
    && (forall t | t in s.threads :: s.threads[t].Quiet?)
  }

  predicate ThreadEnabled(s: State, l: Label) {
    match l
    case Push(t, q, _) => t in s.threads && s.threads[t].Quiet? && q in s.queues
    case Poke(t) => t in s.threads && s.threads[t].Quiet?
    case Exchange(t) => t in s.threads && (s.threads[t].About? || s.threads[t].Poking?)
    case LockToNotify(t) => t in s.threads && s.threads[t].Locking? && s.mutex.Nobody?
    case UnlockToNotify(t) => t in s.threads && s.threads[t].Holding?
    case NotifyOne(t) => t in s.threads && (s.threads[t].Notifying? || s.threads[t].StopNotifying?)
    case RequestStop(t) => t in s.threads && s.threads[t].Quiet?
    case LockToStop(t) => t in s.threads && s.threads[t].StopLocking? && s.mutex.Nobody?
    case UnlockToStop(t) => t in s.threads && s.threads[t].StopHolding?
    case _ => false
  }

  predicate WorkerEnabled(s: State, l: Label) {
    match l
    case PopAway(q) => s.pc.Away? && q in s.queues
    case Lock => s.pc.Away? && s.mutex.Nobody?
    case CheckStop => s.pc.CheckingStop?
    case Cas(_) => s.pc.Casing?
    case LoadHead => s.pc.LoadingHead?
    case Visit(q) => s.pc.Visiting? && q in s.pc.rest && q in s.queues
    case EndVisit(_) => s.pc.Visiting? && s.pc.rest == {}
    case Wait => s.pc.Sleepy?
    case WakeSpuriously => s.pc.Blocked?
    case Relock => s.pc.Woken? && s.mutex.Nobody?
    case Unlock => s.pc.Relocked?
    case Reset => s.pc.Resetting?
    case Register(q) => q !in s.queues
    case _ => false
  }

  predicate Enabled(s: State, l: Label) {
    WorkerEnabled(s, l) || ThreadEnabled(s, l)
  }

  function WorkerStep(s: State, l: Label): State
    requires WorkerEnabled(s, l)
  {
    match l
    case PopAway(q) => s.(queues := s.queues[q := []])
    case Lock => s.(mutex := Worker, pc := CheckingStop)
    case CheckStop => if s.stop then s.(mutex := Nobody, pc := Gone) else s.(pc := Casing)
    case Cas(spurious) =>
      if s.word.Running? && !spurious then s.(word := Sleeping, pc := LoadingHead)
      else s.(mutex := Nobody, pc := Resetting)
    case LoadHead => s.(pc := Visiting(s.queues.Keys))
    case Visit(q) =>
      s.(queues := s.queues[q := []], pc := Visiting(s.pc.rest - {q}))
    case EndVisit(taken) => if taken then s.(mutex := Nobody, pc := Away) else s.(pc := Sleepy)
    case Wait => s.(mutex := Nobody, pc := Blocked)
    case WakeSpuriously => s.(pc := Woken)
    case Relock => s.(mutex := Worker, pc := Relocked)
    case Unlock => s.(mutex := Nobody, pc := Resetting)
    case Reset => s.(word := Running, pc := Away)
    case Register(q) => s.(queues := s.queues[q := []])
    case _ => s
  }

  function Become(s: State, t: nat, doing: Doing): State {
    s.(threads := s.threads[t := doing])
  }

  function ThreadStep(s: State, l: Label): State
    requires ThreadEnabled(s, l)
  {
    match l
    case Push(t, q, task) => Become(s, t, About(q)).(queues := s.queues[q := [task] + s.queues[q]])
    case Poke(t) => Become(s, t, Poking)
    case Exchange(t) => Become(s, t, if s.word.Sleeping? then Locking else Quiet).(word := Notified)
    case LockToNotify(t) => Become(s, t, Holding).(mutex := Thread(t))
    case UnlockToNotify(t) => Become(s, t, Notifying).(mutex := Nobody)
    case NotifyOne(t) => Become(s, t, Quiet).(pc := if s.pc.Blocked? then Woken else s.pc)
    case RequestStop(t) => Become(s, t, StopLocking)
    case LockToStop(t) => Become(s, t, StopHolding).(mutex := Thread(t), stop := true)
    case UnlockToStop(t) => Become(s, t, StopNotifying).(mutex := Nobody)
    case _ => s
  }

  function Next(s: State, l: Label): State
    requires Enabled(s, l)
  {
    if WorkerEnabled(s, l) then WorkerStep(s, l) else ThreadStep(s, l)
  }

  // ----- the invariant

  predicate WorkerHolds(pc: Pc) {
    pc.CheckingStop? || pc.Casing? || pc.LoadingHead? || pc.Visiting? || pc.Sleepy? || pc.Relocked?
  }

  predicate ThreadHolds(d: Doing) {
    d.Holding? || d.StopHolding?
  }

  ghost predicate MutexOk(s: State) {
    && (s.mutex.Worker? <==> WorkerHolds(s.pc))
    && (s.mutex.Thread? ==> s.mutex.id in s.threads)
    && (forall t | t in s.threads :: ThreadHolds(s.threads[t]) <==> s.mutex == Thread(t))
  }

  /** The worker has announced that it goes to sleep, and has not been woken since. */
  predicate Sleeps(pc: Pc) {
    pc.LoadingHead? || pc.Visiting? || pc.Sleepy? || pc.Blocked?
  }

  /** Queues that the worker will not look at before it blocks. */
  predicate Passed(pc: Pc, q: nat) {
    pc.Sleepy? || pc.Blocked? || (pc.Visiting? && q !in pc.rest)
  }

  ghost predicate SomeoneAbout(s: State, q: nat) {
    exists t | t in s.threads :: s.threads[t] == About(q)
  }

  /** A thread that has seen the worker asleep has its wake-up still to deliver. */
  ghost predicate SomeoneNotifies(s: State) {
    exists t | t in s.threads ::
      s.threads[t].Locking? || (s.pc.Blocked? && (s.threads[t].Holding? || s.threads[t].Notifying?))
  }

  ghost predicate SomeoneStops(s: State) {
    exists t | t in s.threads :: s.threads[t].StopHolding? || s.threads[t].StopNotifying?
  }

  ghost predicate TasksSeen(s: State) {
    Sleeps(s.pc) && s.word.Sleeping? ==>
      forall q | q in s.queues && Passed(s.pc, q) && s.queues[q] != [] :: SomeoneAbout(s, q)
  }

  ghost predicate WordOk(s: State) {
    && (Sleeps(s.pc) ==> !s.word.Running?)
    && (Sleeps(s.pc) && s.word.Notified? ==> SomeoneNotifies(s))
  }

  ghost predicate StopOk(s: State) {
    && (s.pc.Casing? || s.pc.LoadingHead? || s.pc.Visiting? || s.pc.Sleepy? ==> !s.stop)
    && (s.pc.Blocked? && s.stop ==> SomeoneStops(s))
    && (s.pc.Gone? ==> s.stop)
  }

  ghost predicate Inv(s: State) {
    MutexOk(s) && TasksSeen(s) && WordOk(s) && StopOk(s)
  }

  lemma InitOk(s: State)
    requires Init(s)
    ensures Inv(s)
  {
  }

  lemma WorkerKeeps(s: State, l: Label)
    requires Inv(s) && WorkerEnabled(s, l)
    ensures Inv(WorkerStep(s, l))
  {
    var u := WorkerStep(s, l);
    assert u.threads == s.threads;
    assert MutexOk(u);
    assert TasksSeen(u) by {
      forall q | q in u.queues && Passed(u.pc, q) && u.queues[q] != [] && Sleeps(u.pc) && u.word.Sleeping?
        ensures SomeoneAbout(u, q)
      {
        assert SomeoneAbout(s, q);
      }
    }
    assert SomeoneNotifies(s) ==> u.pc.Blocked? || !s.pc.Blocked? ==> SomeoneNotifies(u);
    assert WordOk(u);
    assert StopOk(u);
  }

  predicate InNotify(d: Doing) {
    d.Locking? || d.Holding? || d.Notifying?
  }

  /** A witness other than the thread that moves is still one. */
  lemma Others(s: State, u: State, t: nat)
    requires t in s.threads && t in u.threads && u.threads == s.threads[t := u.threads[t]]
    ensures forall q :: SomeoneAbout(s, q) && s.threads[t] != About(q) ==> SomeoneAbout(u, q)
    ensures SomeoneNotifies(s) && u.pc.Blocked? == s.pc.Blocked? && !InNotify(s.threads[t]) ==> SomeoneNotifies(u)
    ensures SomeoneStops(s) && !s.threads[t].StopHolding? && !s.threads[t].StopNotifying? ==> SomeoneStops(u)
  {
    forall q | SomeoneAbout(s, q) && s.threads[t] != About(q)
      ensures SomeoneAbout(u, q)
    {
      var w :| w in s.threads && s.threads[w] == About(q);
      assert u.threads[w] == About(q);
    }
    if SomeoneNotifies(s) && !InNotify(s.threads[t]) {
      var w :| w in s.threads
        && (s.threads[w].Locking? || (s.pc.Blocked? && (s.threads[w].Holding? || s.threads[w].Notifying?)));
      assert u.threads[w] == s.threads[w];
    }
    if SomeoneStops(s) && !s.threads[t].StopHolding? && !s.threads[t].StopNotifying? {
      var w :| w in s.threads && (s.threads[w].StopHolding? || s.threads[w].StopNotifying?);
      assert u.threads[w] == s.threads[w];
    }
  }

  lemma ThreadMutexKeeps(s: State, l: Label)
    requires Inv(s) && ThreadEnabled(s, l)
    ensures MutexOk(ThreadStep(s, l))
  {
    hide TasksSeen, WordOk, StopOk;
  }

  lemma PushKeeps(s: State, l: Label)
    requires Inv(s) && ThreadEnabled(s, l) && (l.Push? || l.Poke? || l.RequestStop?)
    ensures Inv(ThreadStep(s, l))
  {
    var u := ThreadStep(s, l);
    ThreadMutexKeeps(s, l);
    Others(s, u, l.t);
    assert l.Push? ==> u.threads[l.t] == About(l.queue);
    hide MutexOk, SomeoneNotifies, SomeoneStops;
  }

  lemma ExchangeKeeps(s: State, l: Label)
    requires Inv(s) && ThreadEnabled(s, l) && l.Exchange?
    ensures Inv(ThreadStep(s, l))
  {
    var u := ThreadStep(s, l);
    ThreadMutexKeeps(s, l);
    Others(s, u, l.t);
    if s.word.Sleeping? {
      assert u.threads[l.t].Locking?;
    }
    hide MutexOk, SomeoneAbout, SomeoneStops;
  }

  /** A notifier gets the mutex only when the worker does not hold it, so the worker has blocked or is awake. */
  lemma LockKeeps(s: State, l: Label)
    requires Inv(s) && ThreadEnabled(s, l) && (l.LockToNotify? || l.UnlockToNotify?)
    ensures Inv(ThreadStep(s, l))
  {
    var u := ThreadStep(s, l);
    ThreadMutexKeeps(s, l);
    Others(s, u, l.t);
    assert !WorkerHolds(s.pc);
    assert s.pc.Blocked? ==> SomeoneNotifies(u) by { assert l.t in u.threads; }
    hide MutexOk, SomeoneAbout, SomeoneStops;
  }

  lemma NotifyKeeps(s: State, l: Label)
    requires Inv(s) && ThreadEnabled(s, l) && l.NotifyOne?
    ensures Inv(ThreadStep(s, l))
  {
    var u := ThreadStep(s, l);
    ThreadMutexKeeps(s, l);
    if !s.pc.Blocked? {
      Others(s, u, l.t);
      if SomeoneNotifies(s) {
        var w :| w in s.threads && s.threads[w].Locking?;
        assert u.threads[w].Locking?;
      }
    }
    hide MutexOk, SomeoneAbout, SomeoneStops;
  }

  lemma StopKeeps(s: State, l: Label)
    requires Inv(s) && ThreadEnabled(s, l) && (l.LockToStop? || l.UnlockToStop?)
    ensures Inv(ThreadStep(s, l))
  {
    var u := ThreadStep(s, l);
    ThreadMutexKeeps(s, l);
    Others(s, u, l.t);
    assert !WorkerHolds(s.pc);
    assert SomeoneStops(u) by { assert l.t in u.threads; }
    hide MutexOk, SomeoneAbout, SomeoneNotifies;
  }

  lemma StepKeeps(s: State, l: Label)
    requires Inv(s) && Enabled(s, l)
    ensures Inv(Next(s, l))
  {
    hide Inv, WorkerStep, ThreadStep;
    if WorkerEnabled(s, l) {
      WorkerKeeps(s, l);
    } else {
      match l
      case Push(_, _, _) => PushKeeps(s, l);
      case Poke(_) => PushKeeps(s, l);
      case RequestStop(_) => PushKeeps(s, l);
      case Exchange(_) => ExchangeKeeps(s, l);
      case LockToNotify(_) => LockKeeps(s, l);
      case UnlockToNotify(_) => LockKeeps(s, l);
      case NotifyOne(_) => NotifyKeeps(s, l);
      case LockToStop(_) => StopKeeps(s, l);
      case UnlockToStop(_) => StopKeeps(s, l);
    }
  }

  // ----- whole runs

  ghost predicate IsRun(states: seq<State>, labels: seq<Label>) {
    && |states| == |labels| + 1
    && Init(states[0])
    && forall k :: 0 <= k < |labels| ==> Enabled(states[k], labels[k]) && states[k + 1] == Next(states[k], labels[k])
  }

  lemma {:induction false} RunsAreSafe(states: seq<State>, labels: seq<Label>, k: nat)
    requires IsRun(states, labels) && k < |states|
    ensures Inv(states[k])
  {
    hide Inv, Next, Enabled, Init;
    if k == 0 {
      InitOk(states[0]);
    } else {
      RunsAreSafe(states, labels, k - 1);
      StepKeeps(states[k - 1], labels[k - 1]);
    }
  }

  /**
   No lost wake-up: beside a blocked worker with a task in a queue there is a thread that pushed to that queue and
   will find the worker asleep, or one that has found it asleep and has the notification to deliver.
   */
  lemma NoLostWakeUp(states: seq<State>, labels: seq<Label>, k: nat, q: nat)
    requires IsRun(states, labels) && k < |states|
    requires states[k].pc.Blocked? && q in states[k].queues && states[k].queues[q] != []
    ensures
      || (states[k].word.Sleeping? && SomeoneAbout(states[k], q))
      || (states[k].word.Notified? && SomeoneNotifies(states[k]))
  {
    RunsAreSafe(states, labels, k);
    hide MutexOk, StopOk, SomeoneAbout, SomeoneNotifies;
  }

  /** Nor does it stay blocked after a stop request that has been recorded. */
  lemma NoLostStop(states: seq<State>, labels: seq<Label>, k: nat)
    requires IsRun(states, labels) && k < |states| && states[k].pc.Blocked? && states[k].stop
    ensures SomeoneStops(states[k])
  {
    RunsAreSafe(states, labels, k);
  }

  /** Whoever holds the mutex gives it back, unless it is the worker. */
  predicate GivesBack(s: State, l: Label) {
    (l.UnlockToNotify? || l.UnlockToStop?) && Enabled(s, l) && Next(s, l).mutex.Nobody?
  }

  /** Delivering it takes no help from the blocked worker: the way from the push to the waking step is open. */
  lemma WakeUpIsDelivered(states: seq<State>, labels: seq<Label>, k: nat, t: nat)
    requires IsRun(states, labels) && k < |states| && states[k].pc.Blocked? && t in states[k].threads
    ensures states[k].threads[t].About? && states[k].word.Sleeping? ==>
              Enabled(states[k], Exchange(t)) && Next(states[k], Exchange(t)).threads[t].Locking?
    ensures states[k].threads[t].Locking? && states[k].mutex.Nobody? ==>
              Enabled(states[k], LockToNotify(t)) && Next(states[k], LockToNotify(t)).threads[t].Holding?
    ensures states[k].threads[t].Locking? && !states[k].mutex.Nobody? ==>
              states[k].mutex.Thread? && var u := states[k].mutex.id;
              GivesBack(states[k], UnlockToNotify(u)) || GivesBack(states[k], UnlockToStop(u))
    ensures states[k].threads[t].Holding? ==>
              Enabled(states[k], UnlockToNotify(t)) && Next(states[k], UnlockToNotify(t)).threads[t].Notifying?
    ensures states[k].threads[t].Notifying? ==>
              Enabled(states[k], NotifyOne(t)) && Next(states[k], NotifyOne(t)).pc.Woken?
  {
    RunsAreSafe(states, labels, k);
    hide IsRun, TasksSeen, WordOk, StopOk;
  }

  // ----- what the steps have left behind

  lemma StopInStep(s: State, l: Label)
    requires Enabled(s, l)
    ensures Next(s, l).stop <==> s.stop || l.LockToStop?
  {
  }

  /** Stop is recorded exactly by those who request it. */
  lemma {:induction false} StopExactly(states: seq<State>, labels: seq<Label>, k: nat)
    requires IsRun(states, labels) && k < |states|
    ensures states[k].stop <==> exists j :: 0 <= j < k && labels[j].LockToStop?
  {
    if k > 0 {
      hide Next, Enabled, Init;
      StopInStep(states[k - 1], labels[k - 1]);
      StopExactly(states, labels, k - 1);
    }
  }

  /** A worker leaves if and only if it finds a stop request recorded, and not otherwise. */
  lemma LeavesExactly(states: seq<State>, labels: seq<Label>, k: nat)
    requires IsRun(states, labels) && k < |labels|
    ensures states[k].pc.Gone? ==> exists j :: 0 <= j < k && labels[j].LockToStop?
    ensures labels[k].CheckStop? ==> (states[k + 1].pc.Gone? <==> exists j :: 0 <= j < k && labels[j].LockToStop?)
  {
    RunsAreSafe(states, labels, k);
    StopExactly(states, labels, k);
    hide Init;
  }

  /** The tasks in a queue, the latest first, as the steps say: those pushed since the worker has last looked. */
  function Unseen(labels: seq<Label>, k: nat, q: nat): seq<nat>
    requires k <= |labels|
  {
    if k == 0 then []
    else
      match labels[k - 1]
      case Push(_, queue, task) => (if queue == q then [task] else []) + Unseen(labels, k - 1, q)
      case PopAway(queue) => if queue == q then [] else Unseen(labels, k - 1, q)
      case Visit(queue) => if queue == q then [] else Unseen(labels, k - 1, q)
      case Register(queue) => if queue == q then [] else Unseen(labels, k - 1, q)
      case _ => Unseen(labels, k - 1, q)
  }

  lemma QueueInStep(s: State, l: Label, q: nat)
    requires Enabled(s, l) && q in Next(s, l).queues
    ensures q in s.queues || l == Register(q)
    ensures Next(s, l).queues[q] ==
            if l.Push? && l.queue == q then [l.task] + s.queues[q]
            else if (l.PopAway? || l.Visit? || l.Register?) && l.queue == q then []
            else s.queues[q]
  {
  }

  lemma {:induction false} QueuesHoldUnseen(states: seq<State>, labels: seq<Label>, k: nat, q: nat)
    requires IsRun(states, labels) && k < |states| && q in states[k].queues
    ensures states[k].queues[q] == Unseen(labels, k, q)
  {
    if k > 0 {
      hide Next, Enabled, Init;
      QueueInStep(states[k - 1], labels[k - 1], q);
      if q in states[k - 1].queues {
        QueuesHoldUnseen(states, labels, k - 1, q);
      }
    }
  }

  /** A queue that has been registered is there from then on. */
  lemma {:induction false} RegisteredStays(states: seq<State>, labels: seq<Label>, j: nat, k: nat, q: nat)
    requires IsRun(states, labels) && j < k < |states| && labels[j] == Register(q)
    ensures q in states[k].queues
  {
    hide Next, Enabled, Init;
    RegisteredInStep(states[k - 1], labels[k - 1]);
    if j + 1 < k {
      RegisteredStays(states, labels, j, k - 1, q);
    }
  }

  lemma RegisteredInStep(s: State, l: Label)
    requires Enabled(s, l)
    ensures Next(s, l).queues.Keys == if l.Register? then s.queues.Keys + {l.queue} else s.queues.Keys
  {
  }

  /** Once woken, a worker needs only its mutex to go back to its queues, with its word reset. */
  lemma WokenGoesOn(s: State)
    requires s.pc.Woken? && s.mutex.Nobody?
    ensures Enabled(s, Relock)
    ensures var s1 := Next(s, Relock);
      && Enabled(s1, Unlock)
      && var s2 := Next(s1, Unlock);
      && Enabled(s2, Reset)
      && var s3 := Next(s2, Reset);
      s3.pc.Away? && s3.word.Running? && s3.mutex.Nobody? && s3.queues == s.queues
  {
  }

  // ----- a round of the worker

  /** The worker takes these steps, one after the other, and nobody else does anything. */
  ghost predicate Alone(s: State, labels: seq<Label>, t: State)
    decreases |labels|
  {
    if labels == [] then t == s
    else WorkerEnabled(s, labels[0]) && Alone(WorkerStep(s, labels[0]), labels[1..], t)
  }

  lemma {:induction false} AloneThen(s: State, a: seq<Label>, t: State, l: Label)
    requires Alone(s, a, t) && WorkerEnabled(t, l)
    ensures Alone(s, a + [l], WorkerStep(t, l))
    decreases |a|
  {
    hide WorkerEnabled, WorkerStep;
    if a == [] {
      assert a + [l] == [l];
      assert [l][1..] == [];
    } else {
      assert (a + [l])[0] == a[0] && (a + [l])[1..] == a[1..] + [l];
      AloneThen(WorkerStep(s, a[0]), a[1..], t, l);
    }
  }

  /** It empties every queue that it has still to visit, whatever the order. */
  lemma {:induction false} VisitsAll(s: State, first: State, before: seq<Label>) returns (labels: seq<Label>, t: State)
    requires Alone(first, before, s) && s.pc.Visiting? && s.pc.rest <= s.queues.Keys
    ensures Alone(first, labels, t) && t == s.(pc := Visiting({}), queues := t.queues)
    ensures t.queues.Keys == s.queues.Keys
    ensures forall q | q in s.queues :: t.queues[q] == if q in s.pc.rest then [] else s.queues[q]
    decreases s.pc.rest
  {
    hide Alone;
    if s.pc.rest == {} {
      labels, t := before, s;
    } else {
      var q :| q in s.pc.rest;
      AloneThen(first, before, s, Visit(q));
      labels, t := VisitsAll(WorkerStep(s, Visit(q)), first, before + [Visit(q)]);
    }
  }

  /** If nobody has notified it, it looks at all its queues and then, with nothing to do, blocks without its mutex. */
  lemma GoesToSleep(s: State) returns (labels: seq<Label>, t: State)
    requires s.pc.Away? && s.mutex.Nobody? && !s.stop && s.word.Running?
    ensures Alone(s, labels, t) && t.pc.Blocked? && t.mutex.Nobody? && t.word.Sleeping?
    ensures t.queues.Keys == s.queues.Keys && forall q | q in t.queues :: t.queues[q] == []
  {
    var s1 := s.(mutex := Worker, pc := CheckingStop);
    var s2 := s1.(pc := Casing);
    var s3 := s2.(word := Sleeping, pc := LoadingHead);
    var s4 := s3.(pc := Visiting(s.queues.Keys));
    labels := [];
    assert Alone(s, [], s);
    AloneThen(s, labels, s, Lock);
    AloneThen(s, labels + [Lock], s1, CheckStop);
    AloneThen(s, labels + [Lock] + [CheckStop], s2, Cas(false));
    AloneThen(s, labels + [Lock] + [CheckStop] + [Cas(false)], s3, LoadHead);
    hide Alone;
    var s5: State;
    labels, s5 := VisitsAll(s4, s, labels + [Lock] + [CheckStop] + [Cas(false)] + [LoadHead]);
    AloneThen(s, labels, s5, EndVisit(false));
    AloneThen(s, labels + [EndVisit(false)], s5.(pc := Sleepy), Wait);
    labels := labels + [EndVisit(false)] + [Wait];
    t := s5.(pc := Blocked, mutex := Nobody);
  }

  /** If somebody has, it goes back to its queues with its word reset, and does not block. */
  lemma StaysAwake(s: State) returns (labels: seq<Label>, t: State)
    requires s.pc.Away? && s.mutex.Nobody? && !s.stop && !s.word.Running?
    ensures Alone(s, labels, t) && t == s.(word := Running)
  {
    var s1 := s.(mutex := Worker, pc := CheckingStop);
    var s2 := s1.(pc := Casing);
    var s3 := s.(pc := Resetting);
    labels := [];
    assert Alone(s, [], s);
    AloneThen(s, labels, s, Lock);
    AloneThen(s, labels + [Lock], s1, CheckStop);
    AloneThen(s, labels + [Lock] + [CheckStop], s2, Cas(false));
    AloneThen(s, labels + [Lock] + [CheckStop] + [Cas(false)], s3, Reset);
    hide Alone;
    labels := labels + [Lock] + [CheckStop] + [Cas(false)] + [Reset];
    t := s.(word := Running);
  }

  /** A request of stop is delivered without the help of a blocked worker, too. */
  lemma StopIsDelivered(states: seq<State>, labels: seq<Label>, k: nat, t: nat)
    requires IsRun(states, labels) && k < |states| && states[k].pc.Blocked? && t in states[k].threads
    ensures !states[k].mutex.Worker?
    ensures states[k].threads[t].StopLocking? && states[k].mutex.Nobody? ==>
              Enabled(states[k], LockToStop(t)) && Next(states[k], LockToStop(t)).threads[t].StopHolding?
    ensures states[k].threads[t].StopHolding? ==>
              Enabled(states[k], UnlockToStop(t)) && Next(states[k], UnlockToStop(t)).threads[t].StopNotifying?
    ensures states[k].threads[t].StopNotifying? ==>
              Enabled(states[k], NotifyOne(t)) && Next(states[k], NotifyOne(t)).pc.Woken?
  {
    RunsAreSafe(states, labels, k);
    hide IsRun, TasksSeen, WordOk, StopOk;
  }

  /** Between its rounds it may look at each of its queues. */
  lemma Looks(s: State, q: nat)
    requires s.pc.Away? && q in s.queues
    ensures WorkerEnabled(s, PopAway(q)) && WorkerStep(s, PopAway(q)).queues[q] == []
    ensures WorkerStep(s, PopAway(q)).pc.Away?
  {
  }

  /** With a task in hand it goes back at once, and a spurious wake-up leads back, too. */
  lemma GoesOn(s: State)
    ensures s.pc.Visiting? && s.pc.rest == {} ==>
              WorkerEnabled(s, EndVisit(true)) && WorkerStep(s, EndVisit(true)) == s.(mutex := Nobody, pc := Away)
    ensures s.pc.Blocked? ==> WorkerEnabled(s, WakeSpuriously) && WorkerStep(s, WakeSpuriously) == s.(pc := Woken)
  {
  }
}
