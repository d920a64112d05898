/** The stop source does not get stuck: requests, registrations and removals go on until they have returned. */
module StopProgress {
  import opened StopProtocol
  import opened Sequences

  /** Something is under way: a registration or removal, an inline call, a request of stop, or the notification. */
  predicate Underway(s: State) {
    || (exists x :: x in s.callbacks && (Active(s.callbacks[x].pc) || s.callbacks[x].pc.Inline?))
    || (exists t :: t in s.threads && s.threads[t].Requesting?)
    || !(s.notifier.NoOne? || s.notifier.Finished?)
  }

  /** The destruction of a callback that was refused is over at once. */
  lemma DiscardedIsDead(s: State, l: Label)
    requires Enabled(s, l) && l.Discard?
    ensures l.x in Next(s, l).callbacks && Next(s, l).callbacks[l.x].pc.Dead?
  {
  }

  /** What is started is then under way. */
  lemma StartedIsUnderway(s: State, l: Label)
    requires Enabled(s, l) && (l.StartRegister? || l.StartRemove? || l.StartRequest?)
    ensures Underway(Next(s, l))
    ensures l.StartRequest? ==> Next(s, l).threads[l.t].Requesting?
    ensures !l.StartRequest? ==> Active(Next(s, l).callbacks[l.x].pc)
  {
    hide CallbackStep, NotifierStep;
    var t := Next(s, l);
    match l
    case StartRegister(_, x) => assert Active(t.callbacks[x].pc);
    case StartRemove(_, x) => assert Active(t.callbacks[x].pc);
    case StartRequest(i) => assert t.threads[i].Requesting?;
  }

  /** What the operation on a callback does next. */
  function CallbackNext(x: nat, pc: Pc): Label {
    match pc
    case Registering => TryLock(x)
    case Linking => Link(x)
    case LinkedUp => UnlockAdded(x)
    case Declined => RunInline(x)
    case Inline => EndInline(x)
    case Removing => Lock(x)
    case Unlinking(_) => Unlink(x)
    case Unlocking(_) => UnlockUnlinked(x)
    case Missed(_, _) => UnlockMissed(x)
    case Asking(_) => Ask(x)
    case _ => SeeCompleted(x)
  }

  lemma ActiveGoesOn(s: State, x: nat)
    requires Inv(s) && x in s.callbacks && Active(s.callbacks[x].pc)
    requires Critical(s.callbacks[x].pc) || !s.locked
    requires s.callbacks[x].pc.Spinning? ==> s.callbacks[x].completed
    ensures Enabled(s, CallbackNext(x, s.callbacks[x].pc)) && OnCallback(CallbackNext(x, s.callbacks[x].pc))
  {
    hide WordOk, CallbacksOk, ListOk;
  }

  /** A removal waits only for the callback that the notifier has in hand. */
  lemma WaitsForNotifier(s: State, x: nat)
    requires Inv(s) && x in s.callbacks && s.callbacks[x].pc.Spinning? && !s.callbacks[x].completed
    ensures HasCurrent(s.notifier) && s.notifier.x == x && s.callbacks[x].thread != s.notifier.t
  {
    Look(s, x);
    hide Inv;
  }

  /** The thread of a callback that runs inline belongs to the system. */
  ghost predicate ThreadsKnown(s: State) {
    forall x | x in s.callbacks && !s.callbacks[x].pc.Unborn? :: s.callbacks[x].thread in s.threads
  }

  lemma OwnStepKeepsThread(s: State, l: Label)
    requires Enabled(s, l) && OnCallback(l)
    ensures var t := CallbackStep(s, l);
      && l.x in t.callbacks && t.callbacks == s.callbacks[l.x := t.callbacks[l.x]]
      && t.callbacks[l.x].thread == s.callbacks[l.x].thread
  {
    match l
    case TryLock(_) =>
    case Link(_) =>
    case UnlockAdded(_) =>
    case RunInline(_) =>
    case EndInline(_) =>
    case Lock(_) =>
    case Unlink(_) =>
    case UnlockUnlinked(_) =>
    case UnlockMissed(_) =>
    case Ask(_) =>
    case SeeCompleted(_) =>
  }

  lemma KnownInOwnStep(s: State, l: Label, t: State)
    requires OnCallback(l) && l.x in s.callbacks && s.callbacks[l.x].thread in s.threads && ThreadsKnown(s)
    requires l.x in t.callbacks && t.callbacks == s.callbacks[l.x := t.callbacks[l.x]]
    requires t.callbacks[l.x].thread == s.callbacks[l.x].thread && t.threads.Keys >= s.threads.Keys
    ensures ThreadsKnown(t)
  {
  }

  lemma KnownInStart(s: State, l: Label)
    requires Enabled(s, l) && ThreadsKnown(s) && StartsOp(l)
    ensures ThreadsKnown(StartStep(s, l))
  {
    match l
    case StartRegister(_, _) =>
    case StartRemove(_, _) =>
    case Discard(_, _) =>
    case StartRequest(_) =>
  }

  lemma KnownInNotifier(s: State, l: Label)
    requires Enabled(s, l) && ThreadsKnown(s) && !OnCallback(l) && !StartsOp(l)
    ensures ThreadsKnown(NotifierStep(s, l))
  {
    match l
    case Request(_) =>
    case SetThread =>
    case Check =>
    case Release =>
    case Arm =>
    case Execute =>
    case Return =>
    case Test =>
    case SetCompleted =>
    case Relock =>
  }

  lemma KnownInStep(s: State, l: Label)
    requires Enabled(s, l) && ThreadsKnown(s)
    ensures ThreadsKnown(Next(s, l))
  {
    KeysGrow(s, l);
    if OnCallback(l) {
      OwnStepKeepsThread(s, l);
      hide CallbackStep, NotifierStep, StartStep, CallbackEnabled, ThreadsKnown;
      KnownInOwnStep(s, l, Next(s, l));
    } else if StartsOp(l) {
      hide CallbackStep, NotifierStep, StartStep, ThreadsKnown, Enabled;
      KnownInStart(s, l);
    } else {
      hide CallbackStep, NotifierStep, StartStep, ThreadsKnown, Enabled;
      KnownInNotifier(s, l);
    }
  }

  lemma OwnKeysGrow(s: State, l: Label)
    requires Enabled(s, l) && OnCallback(l)
    ensures CallbackStep(s, l).threads.Keys >= s.threads.Keys && CallbackStep(s, l).callbacks.Keys == s.callbacks.Keys
  {
    match l
    case TryLock(_) =>
    case Link(_) =>
    case UnlockAdded(_) =>
    case RunInline(_) =>
    case EndInline(_) =>
    case Lock(_) =>
    case Unlink(_) =>
    case UnlockUnlinked(_) =>
    case UnlockMissed(_) =>
    case Ask(_) =>
    case SeeCompleted(_) =>
  }

  lemma NotifierKeysGrow(s: State, l: Label)
    requires Enabled(s, l) && !OnCallback(l) && !StartsOp(l)
    ensures NotifierStep(s, l).threads.Keys >= s.threads.Keys && NotifierStep(s, l).callbacks.Keys == s.callbacks.Keys
  {
    match l
    case Request(_) =>
    case SetThread =>
    case Check =>
    case Release =>
    case Arm =>
    case Execute =>
    case Return =>
    case Test =>
    case SetCompleted =>
    case Relock =>
  }

  lemma KeysGrow(s: State, l: Label)
    requires Enabled(s, l)
    ensures Next(s, l).threads.Keys >= s.threads.Keys && Next(s, l).callbacks.Keys == s.callbacks.Keys
  {
    if OnCallback(l) {
      OwnKeysGrow(s, l);
      hide Enabled, NotifierStep, StartStep, CallbackStep;
    } else if StartsOp(l) {
      hide NotifierStep, CallbackStep;
    } else {
      NotifierKeysGrow(s, l);
      hide Enabled, StartStep, CallbackStep, NotifierStep;
    }
  }

  lemma {:induction false} ThreadsAreKnown(states: seq<State>, labels: seq<Label>, k: nat)
    requires IsRun(states, labels) && k < |states|
    ensures ThreadsKnown(states[k])
  {
    if k > 0 {
      hide Next, Enabled, Init, ThreadsKnown;
      ThreadsAreKnown(states, labels, k - 1);
      KnownInStep(states[k - 1], labels[k - 1]);
    }
  }

  /** What a thread is busy with. */
  lemma ThreadGoesOn(s: State, t: nat) returns (l: Label)
    requires Inv(s) && !s.locked && t in s.threads && !s.threads[t].Free? && !Notifies(s.notifier, t)
    requires s.threads[t].On? && s.callbacks[s.threads[t].x].pc.Spinning? ==> s.callbacks[s.threads[t].x].completed
    ensures Enabled(s, l) && !StartsOp(l)
  {
    hide WordOk, CallbacksOk, ListOk;
    if s.threads[t].On? {
      var x := s.threads[t].x;
      ActiveGoesOn(s, x);
      l := CallbackNext(x, s.callbacks[x].pc);
    } else {
      l := Request(t);
    }
  }

  lemma NotifierLooks(s: State)
    requires Inv(s)
    ensures s.list != [] ==> s.list[0] in s.callbacks
    ensures HasCurrent(s.notifier) ==> s.notifier.x in s.callbacks
    ensures !s.notifier.NoOne? ==> s.notifier.t in s.threads
  {
    if s.list != [] {
      HeadIsListed(s);
    }
    hide ListOk, CallbackOk, WordOk;
  }

  lemma ExecutingGoesOn(s: State) returns (l: Label)
    requires Inv(s) && s.notifier.Executing? && s.notifier.t in s.threads && !s.locked
    ensures Enabled(s, l) && !StartsOp(l)
  {
    var t := s.notifier.t;
    if s.threads[t].Free? {
      l := Return;
    } else {
      if s.threads[t].On? {
        NotSpinningOn(s, t);
      }
      hide Inv;
      l := ThreadGoesOn(s, t);
    }
  }

  function NotifierNext(n: Notifier): Label {
    match n
    case Won(_) => SetThread
    case Looping(_) => Check
    case Popped(_, _) => Release
    case Released(_, _) => Arm
    case Armed(_, _) => Execute
    case Executed(_, _) => Test
    case Clearing(_, _) => SetCompleted
    case Relocking(_) => Relock
    case _ => Return
  }

  lemma NotifierSteps(s: State)
    requires !s.notifier.NoOne? && !s.notifier.Finished? && !s.notifier.Executing?
    requires s.notifier.Relocking? ==> !s.locked
    requires s.list != [] ==> s.list[0] in s.callbacks
    requires HasCurrent(s.notifier) ==> s.notifier.x in s.callbacks
    ensures Enabled(s, NotifierNext(s.notifier)) && !StartsOp(NotifierNext(s.notifier))
  {
  }

  /** The notifier goes on, or the callback that it runs does. */
  lemma NotifierGoesOn(s: State) returns (l: Label)
    requires Inv(s) && !s.notifier.NoOne? && !s.notifier.Finished? && (!s.locked || NotifierCritical(s.notifier))
    ensures Enabled(s, l) && !StartsOp(l)
  {
    NotifierLooks(s);
    hide Inv, Enabled;
    if s.notifier.Executing? {
      l := ExecutingGoesOn(s);
    } else {
      NotifierSteps(s);
      l := NotifierNext(s.notifier);
    }
  }

  /** The notifying thread does not wait for itself. */
  lemma NotSpinningOn(s: State, t: nat)
    requires Inv(s) && s.notifier.Executing? && s.notifier.t == t && t in s.threads && s.threads[t].On?
    ensures s.threads[t].x in s.callbacks
    ensures s.callbacks[s.threads[t].x].pc.Spinning? ==> s.callbacks[s.threads[t].x].completed
  {
    var x := s.threads[t].x;
    assert ThreadsOk(s) && x in s.callbacks && s.callbacks[x].thread == t;
    if s.callbacks[x].pc.Spinning? && !s.callbacks[x].completed {
      WaitsForNotifier(s, x);
    }
  }

  /** Whatever is under way, some step other than the start of something new can be taken. */
  lemma NeverStuck(s: State) returns (l: Label)
    requires Inv(s) && ThreadsKnown(s) && Underway(s)
    ensures Enabled(s, l) && !StartsOp(l)
  {
    if s.locked {
      l := HolderGoesOn(s);
    } else if !s.notifier.NoOne? && !s.notifier.Finished? {
      l := NotifierGoesOn(s);
    } else if t :| t in s.threads && s.threads[t].Requesting? {
      l := ThreadGoesOn(s, t);
    } else {
      var x :| x in s.callbacks && (Active(s.callbacks[x].pc) || s.callbacks[x].pc.Inline?);
      l := CallbackGoesOn(s, x);
    }
  }

  lemma HolderGoesOn(s: State) returns (l: Label)
    requires Inv(s) && s.locked
    ensures Enabled(s, l) && !StartsOp(l)
  {
    assert WordOk(s);
    if s.holder.ByNotifier? {
      l := NotifierGoesOn(s);
    } else {
      var x := s.holder.x;
      ActiveGoesOn(s, x);
      l := CallbackNext(x, s.callbacks[x].pc);
    }
  }

  /** Without the lock and the notifier in the way, an operation goes on, or one nested in its inline call. */
  lemma CallbackGoesOn(s: State, x: nat) returns (l: Label)
    requires Inv(s) && ThreadsKnown(s) && !s.locked && (s.notifier.NoOne? || s.notifier.Finished?)
    requires x in s.callbacks && (Active(s.callbacks[x].pc) || s.callbacks[x].pc.Inline?)
    ensures Enabled(s, l) && !StartsOp(l)
  {
    if s.callbacks[x].pc.Inline? && s.threads[s.callbacks[x].thread].Free? {
      l := EndInline(x);
    } else {
      var t := s.callbacks[x].thread;
      assert ThreadsOk(s) && t in s.threads && !s.threads[t].Free?;
      if s.threads[t].On? {
        NobodySpins(s, s.threads[t].x);
      }
      l := ThreadGoesOn(s, t);
    }
  }

  lemma NobodySpins(s: State, x: nat)
    requires Inv(s) && x in s.callbacks && (s.notifier.NoOne? || s.notifier.Finished?)
    ensures s.callbacks[x].pc.Spinning? ==> s.callbacks[x].completed
  {
    if s.callbacks[x].pc.Spinning? && !s.callbacks[x].completed {
      WaitsForNotifier(s, x);
    }
  }

  /** Where nothing can be done but to start something new, everything has returned. */
  lemma QuietInTheEnd(states: seq<State>, labels: seq<Label>)
    requires IsRun(states, labels) && (forall l :: Enabled(states[|labels|], l) ==> StartsOp(l))
    ensures !Underway(states[|labels|])
  {
    RunsAreSafe(states, labels, |labels|);
    ThreadsAreKnown(states, labels, |labels|);
    hide IsRun, Enabled, Inv, ThreadsKnown;
    if Underway(states[|labels|]) {
      var l := NeverStuck(states[|labels|]);
    }
  }

  // ----- every step is progress

  function PcRank(pc: Pc): nat {
    match pc
    case Registering => 4
    case Linking => 3
    case LinkedUp => 2
    case Declined => 2
    case Inline => 1
    case Removing => 5
    case Unlinking(_) => 4
    case Unlocking(_) => 1
    case Missed(_, _) => 3
    case Asking(_) => 2
    case Spinning => 1
    case _ => 0
  }

  /** An operation on a callback has at most five steps. */
  lemma OperationCounts(s: State, l: Label)
    requires Enabled(s, l) && OnCallback(l)
    ensures l.x in Next(s, l).callbacks && PcRank(Next(s, l).callbacks[l.x].pc) < PcRank(s.callbacks[l.x].pc) <= 5
  {
    hide Enabled, CallbackStep, PcRank;
    if l.TryLock? || l.Link? || l.UnlockAdded? || l.RunInline? || l.EndInline? {
      RegisteringCounts(s, l);
    } else if l.Lock? || l.Unlink? || l.UnlockMissed? {
      RemovingCounts(s, l);
    } else {
      ReturningCounts(s, l);
    }
  }

  lemma RegisteringCounts(s: State, l: Label)
    requires Enabled(s, l) && (l.TryLock? || l.Link? || l.UnlockAdded? || l.RunInline? || l.EndInline?)
    ensures l.x in CallbackStep(s, l).callbacks
    ensures PcRank(CallbackStep(s, l).callbacks[l.x].pc) < PcRank(s.callbacks[l.x].pc) <= 5
  {
    match l
    case TryLock(_) =>
    case Link(_) =>
    case UnlockAdded(_) =>
    case RunInline(_) =>
    case EndInline(_) =>
  }

  lemma RemovingCounts(s: State, l: Label)
    requires Enabled(s, l) && (l.Lock? || l.Unlink? || l.UnlockMissed?)
    ensures l.x in CallbackStep(s, l).callbacks
    ensures PcRank(CallbackStep(s, l).callbacks[l.x].pc) < PcRank(s.callbacks[l.x].pc) <= 5
  {
    hide Without;
    match l
    case Lock(_) =>
    case Unlink(_) =>
    case UnlockMissed(_) =>
  }

  lemma ReturningCounts(s: State, l: Label)
    requires Enabled(s, l) && (l.UnlockUnlinked? || l.Ask? || l.SeeCompleted?)
    ensures l.x in CallbackStep(s, l).callbacks
    ensures PcRank(CallbackStep(s, l).callbacks[l.x].pc) < PcRank(s.callbacks[l.x].pc) <= 5
  {
    match l
    case UnlockUnlinked(_) =>
    case Ask(_) =>
    case SeeCompleted(_) =>
  }

  function PhaseRank(n: Notifier): nat {
    match n
    case NoOne => 0
    case Finished(_) => 0
    case Looping(_) => 1
    case Won(_) => 2
    case Relocking(_) => 2
    case Clearing(_, _) => 3
    case Executed(_, _) => 4
    case Executing(_, _) => 5
    case Armed(_, _) => 6
    case Released(_, _) => 7
    case Popped(_, _) => 8
  }

  function NotifierRank(s: State): nat {
    8 * |s.list| + PhaseRank(s.notifier)
  }

  /** The notification lowers its rank in every step of its own, and no other step raises it: it comes to its end. */
  lemma NotificationCounts(s: State, l: Label)
    requires Inv(s) && Enabled(s, l) && !s.notifier.NoOne?
    ensures NotifierRank(Next(s, l)) <= NotifierRank(s)
    ensures !OnCallback(l) && !StartsOp(l) && !l.Request? ==> NotifierRank(Next(s, l)) < NotifierRank(s)
  {
    if OnCallback(l) {
      Look(s, l.x);
      hide Inv, PlaceOk, TakenOk, NotifierStep, StartStep;
      CallbackListShrinks(s, l);
    } else if StartsOp(l) {
      StartListStays(s, l);
      hide Inv, NotifierStep, CallbackStep, StartStep;
    } else {
      assert l.Request? ==> s.stop;
      NotifierStepCounts(s, l);
      hide Inv, Enabled, StartStep, CallbackStep, NotifierStep, PhaseRank;
    }
  }

  lemma NotifierStepCounts(s: State, l: Label)
    requires Enabled(s, l) && !OnCallback(l) && !StartsOp(l)
    ensures l.Request? && s.stop ==> NotifierRank(NotifierStep(s, l)) == NotifierRank(s)
    ensures !l.Request? ==> NotifierRank(NotifierStep(s, l)) < NotifierRank(s)
  {
    match l
    case Request(_) =>
    case SetThread =>
    case Check =>
    case Release =>
    case Arm =>
    case Execute =>
    case Return =>
    case Test =>
    case SetCompleted =>
    case Relock =>
  }

  lemma CallbackListShrinks(s: State, l: Label)
    requires Inv(s) && Enabled(s, l) && OnCallback(l) && s.stop
    ensures |CallbackStep(s, l).list| <= |s.list| && CallbackStep(s, l).notifier == s.notifier
  {
    Look(s, l.x);
    hide Inv, PlaceOk, TakenOk;
    if l.Unlink? && s.callbacks[l.x].place.Listed? {
      WithoutShrinks(s.list, l.x);
    }
    hide Without;
    match l
    case TryLock(_) =>
    case Link(_) =>
    case UnlockAdded(_) =>
    case RunInline(_) =>
    case EndInline(_) =>
    case Lock(_) =>
    case Unlink(_) =>
    case UnlockUnlinked(_) =>
    case UnlockMissed(_) =>
    case Ask(_) =>
    case SeeCompleted(_) =>
  }

  lemma {:induction false} WithoutShrinks(list: seq<nat>, x: nat)
    ensures |Without(list, x)| <= |list|
  {
    if list != [] {
      WithoutShrinks(list[1..], x);
    }
  }

  // ----- who is refused

  /** Stop is requested exactly if somebody has asked for it. */
  lemma {:induction false} StopExactly(states: seq<State>, labels: seq<Label>, k: nat)
    requires IsRun(states, labels) && k < |states|
    ensures !states[k].notifier.NoOne? <==> exists j :: 0 <= j < k && labels[j].Request?
  {
    hide IsRun, Next, Enabled, Inv;
    if k == 0 {
      NobodyAsksAtFirst(states, labels);
    } else {
      StepOfRun(states, labels, k - 1);
      WonInStep(states[k - 1], labels[k - 1]);
      StopExactly(states, labels, k - 1);
    }
  }

  lemma NobodyAsksAtFirst(states: seq<State>, labels: seq<Label>)
    requires IsRun(states, labels)
    ensures states[0].notifier.NoOne?
  {
  }

  lemma StepOfRun(states: seq<State>, labels: seq<Label>, k: nat)
    requires IsRun(states, labels) && k + 1 < |states|
    ensures |states| == |labels| + 1
    ensures Inv(states[k]) && Enabled(states[k], labels[k]) && states[k + 1] == Next(states[k], labels[k])
  {
    RunsAreSafe(states, labels, k);
  }

  lemma WonInStep(s: State, l: Label)
    requires Inv(s) && Enabled(s, l)
    ensures !Next(s, l).notifier.NoOne? <==> !s.notifier.NoOne? || l.Request?
  {
    assert WordOk(s);
    hide Inv;
    if OnCallback(l) {
      OnlyLinkAdds(s, l);
      hide CallbackStep, StartStep, NotifierStep;
    } else if StartsOp(l) {
      StartListStays(s, l);
      hide CallbackStep, StartStep, NotifierStep;
    } else {
      hide CallbackStep, StartStep;
    }
  }

  /** A registration is refused if and only if stop has been requested before. */
  lemma RefusedExactly(states: seq<State>, labels: seq<Label>, k: nat, x: nat)
    requires IsRun(states, labels) && k < |labels| && labels[k] == TryLock(x)
    ensures x in states[k + 1].callbacks
    ensures states[k + 1].callbacks[x].place.Refused? <==> exists j :: 0 <= j < k && labels[j].Request?
  {
    RunsAreSafe(states, labels, k);
    StopExactly(states, labels, k);
    Look(states[k], x);
    hide Inv, Init;
  }

  /** What has become of a callback whose registration has returned. */
  lemma RegisteredMeans(states: seq<State>, labels: seq<Label>, k: nat, x: nat)
    requires IsRun(states, labels) && k < |states| && x in states[k].callbacks && states[k].callbacks[x].pc.Alive?
    ensures var c := states[k].callbacks[x];
      || (c.place.Refused? && c.executions == 1)
      || (c.place.Listed? && c.executions == 0 && x in states[k].list)
      || (c.place.Taken? && x in states[k].taken)
  {
    RunsAreSafe(states, labels, k);
    assert ListOk(states[k]);
    Look(states[k], x);
    hide Inv;
  }
}
