/**
 The locking and deregistration protocol of the in-place stop source.

 Threads register, remove and run callbacks, and request stop. Each access of the lock word, of a callback's
 flags and each relinking of the list (done under the lock) is one step; the steps of all threads interleave.
 A thread has at most one operation on the source that is not itself inside a callback; operations started
 from within a callback are nested.
 */
module StopProtocol {
  import opened Sequences

  /** `Listed` means that the back link is set; `Taken` that a request has popped the callback to run it. */
  datatype Place = Fresh | Listed | Taken | Unlinked | Refused

  /** The construction and destruction of one callback object. `was` is the stop bit read when locking. */
  datatype Pc =
    | Unborn
    | Registering | Linking | LinkedUp | Declined | Inline
    | Alive
    | Removing | Unlinking(was: bool) | Unlocking(was: bool) | Missed(was: bool, seen: Who) | Asking(seen: Who)
    | Spinning
    | Dead

  datatype Who = Nobody | Thread(id: nat)

  datatype Callback = Callback(
    pc: Pc,
    thread: nat,
    place: Place,
    stamp: nat,
    executions: nat,
    flagged: bool,
    completed: bool)

  /** What a thread is doing outside callbacks. */
  datatype Doing = Free | Requesting | On(x: nat)

  /** The request that won the lock and runs the callbacks. */
  datatype Notifier =
    | NoOne
    | Won(t: nat) | Looping(t: nat)
    | Popped(t: nat, x: nat) | Released(t: nat, x: nat) | Armed(t: nat, x: nat) | Executing(t: nat, x: nat)
    | Executed(t: nat, x: nat) | Clearing(t: nat, x: nat)
    | Relocking(t: nat) | Finished(t: nat)

  /** Auxiliary: who is between locking and unlocking. */
  datatype Holder = Unheld | ByNotifier | ByCallback(x: nat)

  datatype State = State(
    locked: bool,
    stop: bool,
    holder: Holder,
    list: seq<nat>,
    taken: seq<nat>,
    count: nat,
    seen: Who,
    notifier: Notifier,
    removed: bool,
    callbacks: map<nat, Callback>,
    threads: map<nat, Doing>)

  datatype Label =
    | StartRegister(t: nat, x: nat) | StartRemove(t: nat, x: nat) | Discard(t: nat, x: nat) | StartRequest(t: nat)
      // registering
    | TryLock(x: nat) | Link(x: nat) | UnlockAdded(x: nat) | RunInline(x: nat) | EndInline(x: nat)
      // removing
    | Lock(x: nat) | Unlink(x: nat) | UnlockUnlinked(x: nat) | UnlockMissed(x: nat) | Ask(x: nat) | SeeCompleted(x: nat)
      // requesting stop
    | Request(t: nat) | SetThread | Check | Release | Arm | Execute | Return | Test | SetCompleted | Relock

  ghost predicate Init(s: State) {
    && !s.locked && !s.stop && s.holder.Unheld? && s.list == [] && s.taken == [] && s.count == 0
    && s.seen.Nobody? && s.notifier.NoOne? && !s.removed
    && (forall x | x in s.callbacks ::
          var c := s.callbacks[x]; c.pc.Unborn? && c.place.Fresh? && c.executions == 0 && !c.flagged && !c.completed)
    && (forall t | t in s.threads :: s.threads[t].Free?)
  }

  predicate HasCurrent(n: Notifier) {
    n.Popped? || n.Released? || n.Armed? || n.Executing? || n.Executed? || n.Clearing?
  }

  /** The thread runs the notification loop itself, rather than a callback or something unrelated. */
  predicate Notifies(n: Notifier, t: nat) {
    !n.NoOne? && !n.Finished? && !n.Executing? && n.t == t
  }

  predicate OnCallback(l: Label) {
    l.TryLock? || l.Link? || l.UnlockAdded? || l.RunInline? || l.EndInline? || l.Lock? || l.Unlink?
    || l.UnlockUnlinked? || l.UnlockMissed? || l.Ask? || l.SeeCompleted?
  }

  predicate StartsOp(l: Label) {
    l.StartRegister? || l.StartRemove? || l.Discard? || l.StartRequest?
  }

  /** When the callback's own operation may take the step. */
  predicate CallbackEnabled(s: State, c: Callback, l: Label) {
    match l
    case TryLock(_) => c.pc.Registering? && (s.stop || !s.locked)
    case Link(_) => c.pc.Linking?
    case UnlockAdded(_) => c.pc.LinkedUp?
    case RunInline(_) => c.pc.Declined?
    case EndInline(_) => c.pc.Inline?
    case Lock(_) => c.pc.Removing? && !s.locked
    case Unlink(_) => c.pc.Unlinking?
    case UnlockUnlinked(_) => c.pc.Unlocking?
    case UnlockMissed(_) => c.pc.Missed?
    case Ask(_) => c.pc.Asking?
    case SeeCompleted(_) => c.pc.Spinning? && c.completed
    case _ => false
  }

  predicate Enabled(s: State, l: Label) {
    if OnCallback(l) then
      && l.x in s.callbacks && s.callbacks[l.x].thread in s.threads
      && CallbackEnabled(s, s.callbacks[l.x], l)
      && !Notifies(s.notifier, s.callbacks[l.x].thread)
      && (l.EndInline? ==> s.threads[s.callbacks[l.x].thread].Free?)
    else if StartsOp(l) then
      && l.t in s.threads && s.threads[l.t].Free? && !Notifies(s.notifier, l.t)
      && match l
         case StartRegister(_, x) => x in s.callbacks && s.callbacks[x].pc.Unborn?
         case StartRemove(_, x) => x in s.callbacks && s.callbacks[x].pc.Alive? && !s.callbacks[x].place.Refused?
         case Discard(_, x) => x in s.callbacks && s.callbacks[x].pc.Alive? && s.callbacks[x].place.Refused?
         case _ => true
    else
      match l
      case Request(t) =>
        t in s.threads && s.threads[t].Requesting? && !Notifies(s.notifier, t) && (s.stop || !s.locked)
      case SetThread => s.notifier.Won?
      case Check => s.notifier.Looping? && (s.list != [] ==> s.list[0] in s.callbacks)
      case Release => s.notifier.Popped?
      case Arm => s.notifier.Released? && s.notifier.x in s.callbacks
      case Execute => s.notifier.Armed? && s.notifier.x in s.callbacks
      case Return => s.notifier.Executing? && s.notifier.t in s.threads && s.threads[s.notifier.t].Free?
      case Test => s.notifier.Executed? && s.notifier.x in s.callbacks
      case SetCompleted => s.notifier.Clearing? && s.notifier.x in s.callbacks
      case Relock => s.notifier.Relocking? && !s.locked
      case _ => false
  }

  function With(s: State, x: nat, c: Callback): State {
    s.(callbacks := s.callbacks[x := c])
  }

  /** The operation on the callback returns, with the callback at `pc`. */
  function Done(s: State, x: nat, pc: Pc): State
    requires x in s.callbacks
  {
    var c := s.callbacks[x];
    s.(callbacks := s.callbacks[x := c.(pc := pc)], threads := s.threads[c.thread := Free])
  }

  function CallbackStep(s: State, l: Label): State
    requires Enabled(s, l) && OnCallback(l)
  {
    var x, c := l.x, s.callbacks[l.x];
    match l
    case TryLock(_) =>
      if s.stop then With(s, x, c.(pc := Declined, place := Refused))
      else With(s, x, c.(pc := Linking)).(locked := true, holder := ByCallback(x))
    case Link(_) =>
      With(s, x, c.(pc := LinkedUp, place := Listed, stamp := s.count)).(list := [x] + s.list, count := s.count + 1)
    case UnlockAdded(_) => Done(s, x, Alive).(locked := false, stop := false, holder := Unheld)
    case RunInline(_) =>
      s.(callbacks := s.callbacks[x := c.(pc := Inline, executions := c.executions + 1)],
         threads := s.threads[c.thread := Free])
    case EndInline(_) => With(s, x, c.(pc := Alive))
    case Lock(_) => With(s, x, c.(pc := Unlinking(s.stop))).(locked := true, holder := ByCallback(x))
    case Unlink(_) =>
      if c.place.Listed? then
        With(s, x, c.(pc := Unlocking(c.pc.was), place := Unlinked)).(list := Without(s.list, x))
      else With(s, x, c.(pc := Missed(c.pc.was, s.seen)))
    case UnlockUnlinked(_) => Done(s, x, Dead).(locked := false, stop := c.pc.was, holder := Unheld)
    case UnlockMissed(_) =>
      With(s, x, c.(pc := Asking(c.pc.seen))).(locked := false, stop := c.pc.was, holder := Unheld)
    case Ask(_) =>
      if c.pc.seen == Thread(c.thread) then Done(s, x, Dead).(removed := s.removed || c.flagged)
      else With(s, x, c.(pc := Spinning))
    case SeeCompleted(_) => Done(s, x, Dead)
    case _ => s
  }

  function StartStep(s: State, l: Label): State
    requires Enabled(s, l) && StartsOp(l)
  {
    match l
    case StartRegister(t, x) =>
      With(s, x, s.callbacks[x].(pc := Registering, thread := t)).(threads := s.threads[t := On(x)])
    case StartRemove(t, x) =>
      With(s, x, s.callbacks[x].(pc := Removing, thread := t)).(threads := s.threads[t := On(x)])
    case Discard(t, x) => With(s, x, s.callbacks[x].(pc := Dead))
    case StartRequest(t) => s.(threads := s.threads[t := Requesting])
    case _ => s
  }

  function NotifierStep(s: State, l: Label): State
    requires Enabled(s, l) && !OnCallback(l) && !StartsOp(l)
  {
    match l
    case Request(t) =>
      var s1 := s.(threads := s.threads[t := Free]);
      if s.stop then s1 else s1.(locked := true, stop := true, holder := ByNotifier, notifier := Won(t))
    case SetThread => s.(seen := Thread(s.notifier.t), notifier := Looping(s.notifier.t))
    case Check =>
      if s.list == [] then s.(notifier := Finished(s.notifier.t), locked := false, holder := Unheld)
      else
        var x := s.list[0];
        With(s, x, s.callbacks[x].(place := Taken))
          .(list := s.list[1..], taken := s.taken + [x], notifier := Popped(s.notifier.t, x))
    case Release =>
      s.(notifier := Released(s.notifier.t, s.notifier.x), locked := false, stop := true, holder := Unheld)
    case Arm =>
      With(s, s.notifier.x, s.callbacks[s.notifier.x].(flagged := true))
        .(notifier := Armed(s.notifier.t, s.notifier.x), removed := false)
    case Execute =>
      var c := s.callbacks[s.notifier.x];
      With(s, s.notifier.x, c.(executions := c.executions + 1)).(notifier := Executing(s.notifier.t, s.notifier.x))
    case Return => s.(notifier := Executed(s.notifier.t, s.notifier.x))
    case Test =>
      if s.removed then s.(notifier := Relocking(s.notifier.t))
      else
        With(s, s.notifier.x, s.callbacks[s.notifier.x].(flagged := false))
          .(notifier := Clearing(s.notifier.t, s.notifier.x))
    case SetCompleted =>
      With(s, s.notifier.x, s.callbacks[s.notifier.x].(completed := true)).(notifier := Relocking(s.notifier.t))
    case Relock => s.(notifier := Looping(s.notifier.t), locked := true, holder := ByNotifier)
    case _ => s
  }

  function Next(s: State, l: Label): State
    requires Enabled(s, l)
  {
    if OnCallback(l) then CallbackStep(s, l) else if StartsOp(l) then StartStep(s, l) else NotifierStep(s, l)
  }

  /** The callback objects whose memory the source reads or writes in the step. */
  function Touches(s: State, l: Label): set<nat>
    requires Enabled(s, l)
  {
    match l
    case Link(x) => {x} + Members(s.list)
    case Unlink(x) => {x} + Members(s.list)
    case Check => Members(s.list)
    case Arm => {s.notifier.x}
    case Execute => {s.notifier.x}
    case Test => if s.removed then {} else {s.notifier.x}
    case SetCompleted => {s.notifier.x}
    case _ => if OnCallback(l) && !l.EndInline? then {l.x} else {}
  }

  function Members(list: seq<nat>): set<nat> {
    set x | x in list
  }

  // ----- the invariant

  predicate Critical(pc: Pc) {
    pc.Linking? || pc.LinkedUp? || pc.Unlinking? || pc.Unlocking? || pc.Missed?
  }

  predicate NotifierCritical(n: Notifier) {
    n.Won? || n.Looping? || n.Popped?
  }

  predicate Active(pc: Pc) {
    pc.Registering? || pc.Declined? || pc.Removing? || pc.Asking? || pc.Spinning? || Critical(pc)
  }

  ghost predicate WordOk(s: State) {
    && (s.locked <==> !s.holder.Unheld?)
    && (s.stop <==> !s.notifier.NoOne?)
    && (NotifierCritical(s.notifier) <==> s.holder.ByNotifier?)
    && (s.holder.ByCallback? ==> s.holder.x in s.callbacks)
    && (forall x | x in s.callbacks :: Critical(s.callbacks[x].pc) <==> s.holder == ByCallback(x))
    && (s.notifier.NoOne? || s.notifier.Won? || s.seen == Thread(s.notifier.t))
  }

  /** The stages of a callback's life and what has become of it. */
  ghost predicate PlaceOk(c: Callback) {
    && (c.pc.Unborn? || c.pc.Registering? || c.pc.Linking? ==> c.place.Fresh?)
    && (c.place.Fresh? ==> c.pc.Unborn? || c.pc.Registering? || c.pc.Linking?)
    && (c.pc.LinkedUp? ==> c.place.Listed?)
    && (c.pc.Declined? || c.pc.Inline? ==> c.place.Refused?)
    && (c.place.Refused? ==> c.pc.Declined? || c.pc.Inline? || c.pc.Alive? || c.pc.Dead?)
    && (c.pc.Unlocking? ==> c.place.Unlinked?)
    && (c.place.Unlinked? ==> c.pc.Unlocking? || c.pc.Dead?)
    && (c.pc.Missed? || c.pc.Asking? || c.pc.Spinning? ==> c.place.Taken?)
    && (c.place.Listed? ==> !c.pc.Dead?)
    && (c.place.Refused? ==> c.executions == if c.pc.Declined? then 0 else 1)
    && (c.place.Fresh? || c.place.Listed? || c.place.Unlinked? ==> c.executions == 0)
    && (!c.place.Taken? ==> !c.flagged && !c.completed)
  }

  /** What an operation in progress has read still holds. */
  ghost predicate ReadOk(c: Callback, stop: bool, seen: Who, n: Notifier) {
    && (c.pc.Linking? || c.pc.LinkedUp? ==> !stop)
    && (c.pc.Unlinking? || c.pc.Unlocking? || c.pc.Missed? ==> c.pc.was == stop)
    && (c.pc.Missed? || c.pc.Asking? ==> c.pc.seen == seen)
    && (c.place.Taken? ==> !n.NoOne? && !n.Won?)
    && (c.place.Refused? ==> stop)
    && (c.pc.Spinning? ==> seen != Thread(c.thread))
  }

  /** How far the notifier is with a callback that it has taken. */
  ghost predicate TakenOk(x: nat, c: Callback, n: Notifier, removed: bool) {
    if HasCurrent(n) && n.x == x then
      && c.place.Taken? && !c.completed
      && match n
         case Popped(_, _) => !c.flagged && c.executions == 0 && !c.pc.Dead?
         case Released(_, _) => !c.flagged && c.executions == 0 && !c.pc.Dead?
         case Armed(_, _) => c.flagged && c.executions == 0 && !c.pc.Dead? && !removed
         case Executing(_, _) => c.flagged && c.executions == 1 && (c.pc.Dead? <==> removed)
         case Executed(_, _) => c.flagged && c.executions == 1 && (c.pc.Dead? <==> removed)
         case _ => !c.flagged && c.executions == 1 && !c.pc.Dead?
    else
      c.place.Taken? ==> c.executions == 1 && (c.pc.Dead? || (c.completed && !c.flagged))
  }

  ghost predicate CallbackOk(x: nat, c: Callback, stop: bool, seen: Who, n: Notifier, removed: bool) {
    PlaceOk(c) && ReadOk(c, stop, seen, n) && TakenOk(x, c, n, removed)
  }

  ghost predicate CallbacksOk(s: State) {
    && (HasCurrent(s.notifier) ==> s.notifier.x in s.callbacks)
    && forall x | x in s.callbacks :: CallbackOk(x, s.callbacks[x], s.stop, s.seen, s.notifier, s.removed)
  }

  ghost predicate ListOk(s: State) {
    && (forall x | x in s.list :: x in s.callbacks && s.callbacks[x].place.Listed?)
    && (forall x | x in s.taken :: x in s.callbacks && s.callbacks[x].place.Taken?)
    && (forall x | x in s.callbacks && s.callbacks[x].place.Listed? :: x in s.list)
    && (forall x | x in s.callbacks && s.callbacks[x].place.Taken? :: x in s.taken)
    && Descending(s.taken + s.list, s.callbacks, s.count)
  }

  /** Later registrations come first. */
  ghost predicate Descending(order: seq<nat>, callbacks: map<nat, Callback>, count: nat) {
    && (forall x | x in order :: x in callbacks && callbacks[x].stamp < count)
    && (forall j, k :: 0 <= j < k < |order| ==> callbacks[order[j]].stamp > callbacks[order[k]].stamp)
  }

  ghost predicate ThreadsOk(s: State) {
    && (forall x | x in s.callbacks && Active(s.callbacks[x].pc) ::
          s.callbacks[x].thread in s.threads && s.threads[s.callbacks[x].thread] == On(x))
    && (forall t | t in s.threads && s.threads[t].On? ::
          && s.threads[t].x in s.callbacks
          && Active(s.callbacks[s.threads[t].x].pc) && s.callbacks[s.threads[t].x].thread == t)
    && (!s.notifier.NoOne? ==> s.notifier.t in s.threads)
    && (forall t | t in s.threads && Notifies(s.notifier, t) :: s.threads[t].Free?)
  }

  ghost predicate Inv(s: State) {
    WordOk(s) && CallbacksOk(s) && ListOk(s) && ThreadsOk(s)
  }

  lemma InitOk(s: State)
    requires Init(s)
    ensures Inv(s)
  {
  }

  // ----- one part of the invariant at a time

  lemma WordKeeps(s: State, t: State, x: nat, c: Callback)
    requires WordOk(s) && x in s.callbacks && t.callbacks == s.callbacks[x := c]
    requires t.stop == s.stop && t.notifier == s.notifier && t.seen == s.seen
    requires t.locked <==> !t.holder.Unheld?
    requires Critical(c.pc) <==> t.holder == ByCallback(x)
    requires t.holder == s.holder
          || ((s.holder.Unheld? || s.holder == ByCallback(x)) && (t.holder.Unheld? || t.holder == ByCallback(x)))
    ensures WordOk(t)
  {
    hide Critical, NotifierCritical;
  }

  lemma CallbacksKeep(s: State, t: State, x: nat, c: Callback)
    requires CallbacksOk(s) && x in s.callbacks && t.callbacks == s.callbacks[x := c]
    requires t.stop == s.stop && t.notifier == s.notifier && t.seen == s.seen
    requires t.removed == s.removed || (HasCurrent(s.notifier) && s.notifier.x == x)
    requires CallbackOk(x, c, t.stop, t.seen, t.notifier, t.removed)
    ensures CallbacksOk(t)
  {
    forall y | y in t.callbacks
      ensures CallbackOk(y, t.callbacks[y], t.stop, t.seen, t.notifier, t.removed)
    {
      if y != x {
        assert CallbackOk(y, s.callbacks[y], s.stop, s.seen, s.notifier, s.removed);
      }
    }
  }

  lemma ListKeeps(s: State, t: State, x: nat, c: Callback)
    requires ListOk(s) && x in s.callbacks && t.callbacks == s.callbacks[x := c]
    requires t.list == s.list && t.taken == s.taken && t.count == s.count
    requires c.stamp == s.callbacks[x].stamp
    requires c.place.Listed? <==> s.callbacks[x].place.Listed?
    requires c.place.Taken? <==> s.callbacks[x].place.Taken?
    ensures ListOk(t)
  {
  }

  /** The operation on `x` goes on, and its thread stays with it. */
  lemma ThreadsKeep(s: State, t: State, x: nat, c: Callback)
    requires ThreadsOk(s) && x in s.callbacks && t.callbacks == s.callbacks[x := c]
    requires t.threads == s.threads && t.notifier == s.notifier && c.thread == s.callbacks[x].thread
    requires Active(c.pc) <==> Active(s.callbacks[x].pc)
    ensures ThreadsOk(t)
  {
    hide Active, Notifies;
  }

  /** The operation on `x` returns, or enters a callback. */
  lemma ThreadsRelease(s: State, t: State, x: nat, c: Callback)
    requires ThreadsOk(s) && x in s.callbacks && t.callbacks == s.callbacks[x := c]
    requires t.threads == s.threads[c.thread := Free] && t.notifier == s.notifier && c.thread == s.callbacks[x].thread
    requires Active(s.callbacks[x].pc) && !Active(c.pc)
    ensures ThreadsOk(t)
  {
    hide Active, Notifies;
  }

  lemma ThreadsTaken(s: State, t: State, x: nat, c: Callback)
    requires ThreadsOk(s) && x in s.callbacks && t.callbacks == s.callbacks[x := c]
    requires c.thread in s.threads && s.threads[c.thread].Free? && !Notifies(s.notifier, c.thread)
    requires t.threads == s.threads[c.thread := On(x)] && t.notifier == s.notifier
    requires !Active(s.callbacks[x].pc) && Active(c.pc)
    ensures ThreadsOk(t)
  {
    hide Active, Notifies;
  }

  // ----- the operation on one callback

  /** A step that leaves the list and the notifier alone. */
  lemma OwnStepKeeps(s: State, t: State, x: nat, c: Callback)
    requires Inv(s) && x in s.callbacks
    requires t == s.(callbacks := s.callbacks[x := c], locked := t.locked, holder := t.holder, threads := t.threads)
    requires CallbackOk(x, c, s.stop, s.seen, s.notifier, s.removed)
    requires var b := s.callbacks[x];
      && c.thread == b.thread && c.stamp == b.stamp
      && (c.place.Listed? <==> b.place.Listed?) && (c.place.Taken? <==> b.place.Taken?)
      && (if t.threads == s.threads then Active(c.pc) <==> Active(b.pc)
          else t.threads == s.threads[b.thread := Free] && Active(b.pc) && !Active(c.pc))
    requires t.locked <==> !t.holder.Unheld?
    requires Critical(c.pc) <==> t.holder == ByCallback(x)
    requires t.holder == s.holder
          || ((s.holder.Unheld? || s.holder == ByCallback(x)) && (t.holder.Unheld? || t.holder == ByCallback(x)))
    ensures Inv(t)
  {
    hide WordOk, CallbacksOk, ListOk, ThreadsOk, CallbackOk, Active, Critical;
    WordKeeps(s, t, x, c);
    CallbacksKeep(s, t, x, c);
    ListKeeps(s, t, x, c);
    if t.threads == s.threads {
      ThreadsKeep(s, t, x, c);
    } else {
      ThreadsRelease(s, t, x, c);
    }
  }

  /** What the invariant says about one callback and the lock word. */
  lemma Look(s: State, x: nat)
    requires Inv(s) && x in s.callbacks
    ensures CallbackOk(x, s.callbacks[x], s.stop, s.seen, s.notifier, s.removed)
    ensures s.locked <==> !s.holder.Unheld?
    ensures s.stop <==> !s.notifier.NoOne?
    ensures Critical(s.callbacks[x].pc) <==> s.holder == ByCallback(x)
    ensures s.notifier.NoOne? || s.notifier.Won? || s.seen == Thread(s.notifier.t)
    ensures Active(s.callbacks[x].pc) ==>
              s.callbacks[x].thread in s.threads && s.threads[s.callbacks[x].thread] == On(x)
  {
    hide CallbackOk, ListOk, Critical, Active;
  }

  lemma TryLockKeeps(s: State, x: nat)
    requires Inv(s) && Enabled(s, TryLock(x))
    ensures Inv(Next(s, TryLock(x)))
  {
    hide Inv, HasCurrent;
    Look(s, x);
    var t, b := Next(s, TryLock(x)), s.callbacks[x];
    var c := if s.stop then b.(pc := Declined, place := Refused) else b.(pc := Linking);
    OwnStepKeeps(s, t, x, c);
  }

  lemma LockKeeps(s: State, x: nat)
    requires Inv(s) && Enabled(s, Lock(x))
    ensures Inv(Next(s, Lock(x)))
  {
    hide Inv, HasCurrent;
    Look(s, x);
    OwnStepKeeps(s, Next(s, Lock(x)), x, s.callbacks[x].(pc := Unlinking(s.stop)));
  }

  /** Storing the word that was read when the lock was taken leaves the stop flag as it is. */
  lemma UnlockKeeps(s: State, l: Label)
    requires Inv(s) && Enabled(s, l) && (l.UnlockAdded? || l.UnlockUnlinked? || l.UnlockMissed?)
    ensures Inv(Next(s, l)) && Next(s, l).stop == s.stop
  {
    hide Inv, HasCurrent;
    Look(s, l.x);
    var b, t := s.callbacks[l.x], Next(s, l);
    assert t.stop == s.stop;
    if l.UnlockMissed? {
      OwnStepKeeps(s, t, l.x, b.(pc := Asking(b.pc.seen)));
    } else {
      OwnStepKeeps(s, t, l.x, b.(pc := if l.UnlockAdded? then Alive else Dead));
    }
  }

  lemma InlineKeeps(s: State, l: Label)
    requires Inv(s) && Enabled(s, l) && (l.RunInline? || l.EndInline?)
    ensures Inv(Next(s, l))
  {
    hide Inv, HasCurrent;
    Look(s, l.x);
    var b := s.callbacks[l.x];
    OwnStepKeeps(s, Next(s, l), l.x,
      if l.RunInline? then b.(pc := Inline, executions := b.executions + 1) else b.(pc := Alive));
  }

  lemma MissedKeeps(s: State, x: nat)
    requires Inv(s) && Enabled(s, Unlink(x)) && !s.callbacks[x].place.Listed?
    ensures Inv(Next(s, Unlink(x)))
  {
    hide Inv, HasCurrent;
    Look(s, x);
    var b := s.callbacks[x];
    OwnStepKeeps(s, Next(s, Unlink(x)), x, b.(pc := Missed(b.pc.was, s.seen)));
  }

  lemma WaitKeeps(s: State, l: Label)
    requires Inv(s) && Enabled(s, l)
    requires l.SeeCompleted? || (l.Ask? && s.callbacks[l.x].pc.seen != Thread(s.callbacks[l.x].thread))
    ensures Inv(Next(s, l))
  {
    hide Inv, HasCurrent;
    Look(s, l.x);
    OwnStepKeeps(s, Next(s, l), l.x, s.callbacks[l.x].(pc := if l.Ask? then Spinning else Dead));
  }

  /** Removal from inside a callback, on the notifying thread: the notifier is told, and nobody waits. */
  lemma AskInsideKeeps(s: State, x: nat)
    requires Inv(s) && Enabled(s, Ask(x)) && s.callbacks[x].pc.seen == Thread(s.callbacks[x].thread)
    ensures Inv(Next(s, Ask(x)))
  {
    hide Inv;
    Look(s, x);
    var b, t := s.callbacks[x], Next(s, Ask(x));
    var c := b.(pc := Dead);
    assert s.notifier.Executing? || s.notifier.Finished?;
    assert t == s.(callbacks := s.callbacks[x := c], threads := s.threads[b.thread := Free],
                   removed := s.removed || b.flagged);
    assert CallbackOk(x, c, t.stop, t.seen, t.notifier, t.removed);
    assert b.flagged ==> HasCurrent(s.notifier) && s.notifier.x == x;
    assert Active(b.pc) && !Active(c.pc) && !Critical(b.pc) && !Critical(c.pc);
    hide *;
    Parts(s);
    WordKeeps(s, t, x, c);
    CallbacksKeep(s, t, x, c);
    ListKeeps(s, t, x, c);
    ThreadsRelease(s, t, x, c);
    Whole(t);
  }

  lemma Parts(s: State)
    requires Inv(s)
    ensures WordOk(s) && CallbacksOk(s) && ListOk(s) && ThreadsOk(s)
  {
  }

  lemma Whole(s: State)
    requires WordOk(s) && CallbacksOk(s) && ListOk(s) && ThreadsOk(s)
    ensures Inv(s)
  {
  }

  // ----- relinking the list

  /** Nothing has been taken before stop is requested. */
  lemma NothingTaken(s: State)
    requires Inv(s) && !s.stop
    ensures s.taken == []
  {
    if s.taken != [] {
      TakenAfterStop(s, s.taken[0]);
    }
  }

  lemma TakenAfterStop(s: State, x: nat)
    requires Inv(s) && x in s.taken
    ensures s.stop
  {
    assert CallbackOk(x, s.callbacks[x], s.stop, s.seen, s.notifier, s.removed);
  }

  lemma ListLinks(s: State, t: State, x: nat, c: Callback)
    requires ListOk(s) && x in s.callbacks && t.callbacks == s.callbacks[x := c]
    requires s.callbacks[x].place.Fresh? && c.place.Listed? && c.stamp == s.count
    requires s.taken == t.taken == [] && t.list == [x] + s.list && t.count == s.count + 1
    ensures ListOk(t)
  {
    assert s.taken + s.list == s.list && t.taken + t.list == t.list;
    DescendingLinks(s.list, s.callbacks, s.count, x, c);
    hide Descending;
    assert forall y :: y in t.list <==> y == x || y in s.list;
    assert forall y | y in s.callbacks && y != x :: y in t.callbacks && t.callbacks[y] == s.callbacks[y];
  }

  lemma DescendingLinks(list: seq<nat>, callbacks: map<nat, Callback>, count: nat, x: nat, c: Callback)
    requires Descending(list, callbacks, count) && x !in list && c.stamp == count
    ensures Descending([x] + list, callbacks[x := c], count + 1)
  {
    assert forall j :: 1 <= j < |[x] + list| ==> ([x] + list)[j] == list[j - 1];
  }

  lemma LinkKeeps(s: State, x: nat)
    requires Inv(s) && Enabled(s, Link(x))
    ensures Inv(Next(s, Link(x)))
  {
    Look(s, x);
    hide Inv;
    var t := Next(s, Link(x));
    var c := s.callbacks[x].(pc := LinkedUp, place := Listed, stamp := s.count);
    assert t == s.(callbacks := s.callbacks[x := c], list := [x] + s.list, count := s.count + 1);
    assert s.callbacks[x].place.Fresh?;
    assert CallbackOk(x, c, t.stop, t.seen, t.notifier, t.removed);
    assert Critical(c.pc) && Active(s.callbacks[x].pc) && Active(c.pc);
    assert s.holder == ByCallback(x) && !s.stop;
    hide *;
    NothingTaken(s);
    Parts(s);
    WordKeeps(s, t, x, c);
    CallbacksKeep(s, t, x, c);
    ListLinks(s, t, x, c);
    ThreadsKeep(s, t, x, c);
    Whole(t);
  }

  lemma DescendingDistinct(taken: seq<nat>, list: seq<nat>, callbacks: map<nat, Callback>, count: nat)
    requires Descending(taken + list, callbacks, count)
    ensures Distinct(list)
  {
    forall j, k | 0 <= j < k < |list|
      ensures list[j] != list[k]
    {
      assert (taken + list)[|taken| + j] == list[j] && (taken + list)[|taken| + k] == list[k];
    }
  }

  lemma DescendingWithout(taken: seq<nat>, list: seq<nat>, x: nat, callbacks: map<nat, Callback>, count: nat)
    requires Descending(taken + list, callbacks, count) && x in list
    ensures Descending(taken + Without(list, x), callbacks, count)
  {
    var k := WithoutIs(list, x);
    var n := |taken|;
    var from, to := taken + list, taken + Without(list, x);
    assert forall j :: 0 <= j < |to| ==> to[j] == from[if j < n + k then j else j + 1];
  }

  lemma ListUnlinks(s: State, t: State, x: nat, c: Callback)
    requires ListOk(s) && x in s.callbacks && t.callbacks == s.callbacks[x := c]
    requires s.callbacks[x].place.Listed? && c.place.Unlinked? && c.stamp == s.callbacks[x].stamp
    requires t.taken == s.taken && t.list == Without(s.list, x) && t.count == s.count
    ensures ListOk(t)
  {
    DescendingWithout(s.taken, s.list, x, s.callbacks, s.count);
    DescendingDistinct(s.taken, s.list, s.callbacks, s.count);
    WithoutMembers(s.list, x);
    hide Without;
    SameStamps(t.taken + t.list, s.callbacks, t.callbacks, s.count);
  }

  lemma SameStamps(order: seq<nat>, a: map<nat, Callback>, b: map<nat, Callback>, count: nat)
    requires Descending(order, a, count)
    requires forall x | x in a :: x in b && b[x].stamp == a[x].stamp
    ensures Descending(order, b, count)
  {
  }

  lemma UnlinkKeeps(s: State, x: nat)
    requires Inv(s) && Enabled(s, Unlink(x)) && s.callbacks[x].place.Listed?
    ensures Inv(Next(s, Unlink(x)))
  {
    Look(s, x);
    hide Inv;
    var b, t := s.callbacks[x], Next(s, Unlink(x));
    var c := b.(pc := Unlocking(b.pc.was), place := Unlinked);
    assert t == s.(callbacks := s.callbacks[x := c], list := Without(s.list, x));
    assert CallbackOk(x, c, t.stop, t.seen, t.notifier, t.removed);
    assert Critical(c.pc) && Active(b.pc) && Active(c.pc);
    assert s.holder == ByCallback(x);
    hide *;
    Parts(s);
    WordKeeps(s, t, x, c);
    CallbacksKeep(s, t, x, c);
    ListUnlinks(s, t, x, c);
    ThreadsKeep(s, t, x, c);
    Whole(t);
  }

  // ----- starting an operation

  lemma StartsWith(s: State, l: Label, x: nat, c: Callback)
    requires Inv(s) && Enabled(s, l) && (l.StartRegister? || l.StartRemove?) && x == l.x
    requires c == s.callbacks[x].(pc := if l.StartRegister? then Registering else Removing, thread := l.t)
    ensures Next(s, l) == s.(callbacks := s.callbacks[x := c], threads := s.threads[l.t := On(x)])
    ensures CallbackOk(x, c, s.stop, s.seen, s.notifier, s.removed)
    ensures !Critical(s.callbacks[x].pc) && !Critical(c.pc) && !Active(s.callbacks[x].pc) && Active(c.pc)
  {
    Look(s, x);
    StartedOk(x, s.callbacks[x], c, s.stop, s.seen, s.notifier, s.removed);
    hide Inv, NotifierStep, CallbackStep, CallbackEnabled, CallbackOk;
  }

  lemma StartedOk(x: nat, b: Callback, c: Callback, stop: bool, seen: Who, n: Notifier, removed: bool)
    requires CallbackOk(x, b, stop, seen, n, removed)
    requires (b.pc.Unborn? && c.pc.Registering?) || (b.pc.Alive? && !b.place.Refused? && c.pc.Removing?)
    requires c == b.(pc := c.pc, thread := c.thread)
    ensures CallbackOk(x, c, stop, seen, n, removed)
  {
  }

  lemma StartKeeps(s: State, l: Label)
    requires Inv(s) && Enabled(s, l) && (l.StartRegister? || l.StartRemove?)
    ensures Inv(Next(s, l))
  {
    var x, b, t := l.x, s.callbacks[l.x], Next(s, l);
    var c := b.(pc := if l.StartRegister? then Registering else Removing, thread := l.t);
    StartsWith(s, l, x, c);
    assert s.threads[c.thread].Free? && !Notifies(s.notifier, c.thread);
    hide *;
    Parts(s);
    WordKeeps(s, t, x, c);
    CallbacksKeep(s, t, x, c);
    ListKeeps(s, t, x, c);
    ThreadsTaken(s, t, x, c);
    Whole(t);
  }

  lemma DiscardKeeps(s: State, l: Label)
    requires Inv(s) && Enabled(s, l) && l.Discard?
    ensures Inv(Next(s, l))
  {
    hide Inv;
    Look(s, l.x);
    OwnStepKeeps(s, Next(s, l), l.x, s.callbacks[l.x].(pc := Dead));
  }

  lemma ThreadsRequesting(s: State, t: State, i: nat)
    requires ThreadsOk(s) && i in s.threads && !s.threads[i].On? && !Notifies(s.notifier, i)
    requires t == s.(threads := t.threads)
    requires t.threads == s.threads[i := Requesting] || t.threads == s.threads[i := Free]
    ensures ThreadsOk(t)
  {
    hide Active, Notifies;
  }

  /** A thread starts to request stop, or finds that stop was requested before. */
  lemma RequestingKeeps(s: State, t: State, i: nat)
    requires Inv(s) && i in s.threads && !s.threads[i].On? && !Notifies(s.notifier, i)
    requires t == s.(threads := s.threads[i := Requesting]) || t == s.(threads := s.threads[i := Free])
    ensures Inv(t)
  {
    hide *;
    Parts(s);
    ThreadsRequesting(s, t, i);
    OnlyThreadsChange(s, t);
    Whole(t);
  }

  lemma OnlyThreadsChange(s: State, t: State)
    requires WordOk(s) && CallbacksOk(s) && ListOk(s) && t == s.(threads := t.threads)
    ensures WordOk(t) && CallbacksOk(t) && ListOk(t)
  {
    hide CallbackOk, Descending, Critical, NotifierCritical;
  }

  // ----- the notifier

  lemma WinKeeps(s: State, i: nat)
    requires Inv(s) && Enabled(s, Request(i)) && !s.stop
    ensures Inv(Next(s, Request(i)))
  {
    var t := Next(s, Request(i));
    hide Descending, Active, PlaceOk, Next;
    assert t == s.(threads := s.threads[i := Free], locked := true, stop := true, holder := ByNotifier,
                   notifier := Won(i))
      by { hide Inv; WinStep(s, i); }
    assert forall x | x in s.callbacks :: !Critical(s.callbacks[x].pc);
    forall x | x in t.callbacks
      ensures CallbackOk(x, t.callbacks[x], t.stop, t.seen, t.notifier, t.removed)
    {
      assert CallbackOk(x, s.callbacks[x], s.stop, s.seen, s.notifier, s.removed);
    }
  }

  lemma WinStep(s: State, i: nat)
    requires Enabled(s, Request(i)) && !s.stop
    ensures Next(s, Request(i)) ==
            s.(threads := s.threads[i := Free], locked := true, stop := true, holder := ByNotifier, notifier := Won(i))
  {
  }

  lemma SetThreadKeeps(s: State)
    requires Inv(s) && Enabled(s, SetThread)
    ensures Inv(Next(s, SetThread))
  {
    var t := Next(s, SetThread);
    hide Descending, Active, PlaceOk, Critical;
    forall x | x in t.callbacks
      ensures CallbackOk(x, t.callbacks[x], t.stop, t.seen, t.notifier, t.removed)
    {
      assert CallbackOk(x, s.callbacks[x], s.stop, s.seen, s.notifier, s.removed);
    }
  }

  /** The notifier works on the callback that it has taken. */
  lemma NotifierStepKeeps(s: State, t: State, x: nat, c: Callback)
    requires Inv(s) && x in s.callbacks
    requires t == s.(callbacks := s.callbacks[x := c], locked := t.locked, holder := t.holder, notifier := t.notifier,
                     removed := t.removed)
    requires c == s.callbacks[x].(executions := c.executions, flagged := c.flagged, completed := c.completed)
    requires HasCurrent(s.notifier) && s.notifier.x == x
    requires !t.notifier.NoOne? && !t.notifier.Won? && t.notifier.t == s.notifier.t
    requires HasCurrent(t.notifier) ==> t.notifier.x == x
    requires CallbackOk(x, c, t.stop, t.seen, t.notifier, t.removed)
    requires t.locked <==> !t.holder.Unheld?
    requires NotifierCritical(t.notifier) <==> t.holder.ByNotifier?
    requires t.holder == s.holder || (s.holder.ByNotifier? && t.holder.Unheld?)
    requires s.notifier.Executing? ==> s.notifier.t in s.threads && s.threads[s.notifier.t].Free?
    ensures Inv(t)
  {
    assert ListOk(t) by { hide *; Parts(s); ListKeeps(s, t, x, c); }
    hide ListOk, PlaceOk;
    assert CallbacksOk(t) by {
      hide Critical;
      forall y | y in t.callbacks && y != x
        ensures CallbackOk(y, t.callbacks[y], t.stop, t.seen, t.notifier, t.removed)
      {
        assert CallbackOk(y, s.callbacks[y], s.stop, s.seen, s.notifier, s.removed);
      }
    }
    hide CallbacksOk, CallbackOk, Active, Critical, NotifierCritical;
  }

  lemma LookCurrent(s: State)
    requires Inv(s) && HasCurrent(s.notifier)
    ensures s.notifier.x in s.callbacks && s.holder.ByNotifier? == s.notifier.Popped?
  {
    hide ListOk, ThreadsOk, CallbackOk;
  }

  lemma StartsCurrentKeeps(s: State, l: Label)
    requires Inv(s) && Enabled(s, l) && (l.Release? || l.Arm? || l.Execute?)
    ensures Inv(Next(s, l))
  {
    hide Inv;
    LookCurrent(s);
    var x := s.notifier.x;
    Look(s, x);
    var b, t := s.callbacks[x], Next(s, l);
    var c := if l.Arm? then b.(flagged := true) else if l.Execute? then b.(executions := b.executions + 1) else b;
    assert t.callbacks == s.callbacks[x := c];
    NotifierStepKeeps(s, t, x, c);
  }

  lemma EndsCurrentKeeps(s: State, l: Label)
    requires Inv(s) && Enabled(s, l) && (l.Return? || l.Test? || l.SetCompleted?)
    ensures Inv(Next(s, l))
  {
    hide Inv;
    LookCurrent(s);
    var x := s.notifier.x;
    Look(s, x);
    var b, t := s.callbacks[x], Next(s, l);
    var c :=
      if l.Test? && !s.removed then b.(flagged := false) else if l.SetCompleted? then b.(completed := true) else b;
    assert t.callbacks == s.callbacks[x := c];
    NotifierStepKeeps(s, t, x, c);
  }

  lemma ListPops(s: State, t: State, x: nat, c: Callback)
    requires ListOk(s) && x in s.callbacks && t.callbacks == s.callbacks[x := c]
    requires s.list != [] && x == s.list[0] && c.place.Taken? && c.stamp == s.callbacks[x].stamp
    requires t.taken == s.taken + [x] && t.list == s.list[1..] && t.count == s.count
    ensures ListOk(t)
  {
    assert t.taken + t.list == s.taken + s.list;
    DescendingDistinct(s.taken, s.list, s.callbacks, s.count);
    SameStamps(t.taken + t.list, s.callbacks, t.callbacks, s.count);
    assert Without(s.list, x) == s.list[1..];
    WithoutMembers(s.list, x);
    hide Without, Descending;
  }

  /** The notifier has no callback in hand in one of the states, and the other is as good for the rest. */
  lemma OthersKeep(s: State, t: State)
    requires CallbacksOk(s) && s.callbacks.Keys == t.callbacks.Keys
    requires t.stop == s.stop && t.seen == s.seen && !HasCurrent(s.notifier)
    requires !s.notifier.NoOne? && !s.notifier.Won? && !t.notifier.NoOne? && !t.notifier.Won?
    requires forall y | y in s.callbacks && !(HasCurrent(t.notifier) && t.notifier.x == y) ::
               t.callbacks[y] == s.callbacks[y]
    requires HasCurrent(t.notifier) ==>
          && t.notifier.x in t.callbacks
          && CallbackOk(t.notifier.x, t.callbacks[t.notifier.x], t.stop, t.seen, t.notifier, t.removed)
    ensures CallbacksOk(t)
  {
    hide PlaceOk;
    forall y | y in t.callbacks
      ensures CallbackOk(y, t.callbacks[y], t.stop, t.seen, t.notifier, t.removed)
    {
      assert CallbackOk(y, s.callbacks[y], s.stop, s.seen, s.notifier, s.removed);
    }
  }

  /** Between two callbacks: the notifier locks again, or unlocks because the list is empty. */
  lemma BetweenKeeps(s: State, l: Label)
    requires Inv(s) && Enabled(s, l) && (l.Relock? || (l.Check? && s.list == []))
    ensures Inv(Next(s, l))
  {
    var t := Next(s, l);
    BetweenStep(s, l);
    Parts(s);
    hide Inv, Next, Enabled, ListOk, CallbacksOk, Active, Critical;
    OthersKeep(s, t);
    assert ListOk(t) by { BetweenListKeeps(s, t); }
  }

  lemma BetweenStep(s: State, l: Label)
    requires Enabled(s, l) && (l.Relock? || (l.Check? && s.list == []))
    ensures var t := Next(s, l);
      && t == s.(notifier := t.notifier, locked := t.locked, holder := t.holder)
      && t.notifier.t == s.notifier.t
      && if l.Relock? then s.notifier.Relocking? && !s.locked && t.notifier.Looping? && t.locked && t.holder.ByNotifier?
         else s.notifier.Looping? && t.notifier.Finished? && !t.locked && t.holder.Unheld?
  {
  }

  lemma BetweenListKeeps(s: State, t: State)
    requires ListOk(s) && t == s.(notifier := t.notifier, locked := t.locked, holder := t.holder)
    ensures ListOk(t)
  {
  }

  lemma PopWordKeeps(s: State, t: State, x: nat, c: Callback)
    requires WordOk(s) && x in s.callbacks && s.notifier.Looping?
    requires t == s.(callbacks := s.callbacks[x := c], list := t.list, taken := t.taken,
                     notifier := Popped(s.notifier.t, x))
    requires c.pc == s.callbacks[x].pc
    ensures WordOk(t)
  {
    hide Critical;
  }

  lemma PopThreadsKeep(s: State, t: State, x: nat, c: Callback)
    requires ThreadsOk(s) && x in s.callbacks && s.notifier.Looping?
    requires t == s.(callbacks := s.callbacks[x := c], list := t.list, taken := t.taken,
                     notifier := Popped(s.notifier.t, x))
    requires c.pc == s.callbacks[x].pc && c.thread == s.callbacks[x].thread
    ensures ThreadsOk(t)
  {
    hide Active;
  }

  lemma PopKeeps(s: State)
    requires Inv(s) && Enabled(s, Check) && s.list != []
    ensures Inv(Next(s, Check))
  {
    var x, t := s.list[0], Next(s, Check);
    var b, c := s.callbacks[x], s.callbacks[x].(place := Taken);
    PopStep(s, x, c);
    HeadIsListed(s);
    hide Next, Enabled;
    Parts(s);
    hide Inv, WordOk, CallbacksOk, ListOk, ThreadsOk, CallbackOk;
    PopWordKeeps(s, t, x, c);
    OthersKeep(s, t);
    ListPops(s, t, x, c);
    PopThreadsKeep(s, t, x, c);
    Whole(t);
  }

  lemma PopStep(s: State, x: nat, c: Callback)
    requires Inv(s) && Enabled(s, Check) && s.list != [] && x == s.list[0] && c == s.callbacks[x].(place := Taken)
    ensures s.notifier.Looping?
    ensures Next(s, Check) == s.(callbacks := s.callbacks[x := c], list := s.list[1..], taken := s.taken + [x],
                                 notifier := Popped(s.notifier.t, x))
    ensures CallbackOk(x, c, s.stop, s.seen, Popped(s.notifier.t, x), s.removed)
  {
    HeadIsListed(s);
    Look(s, x);
    hide Inv;
  }

  lemma CallbackStepKeeps(s: State, l: Label)
    requires Inv(s) && Enabled(s, l) && OnCallback(l)
    ensures Inv(Next(s, l))
  {
    hide Inv, Next;
    match l
    case TryLock(x) => TryLockKeeps(s, x);
    case Link(x) => LinkKeeps(s, x);
    case UnlockAdded(_) => UnlockKeeps(s, l);
    case RunInline(_) => InlineKeeps(s, l);
    case EndInline(_) => InlineKeeps(s, l);
    case Lock(x) => LockKeeps(s, x);
    case Unlink(x) =>
      if s.callbacks[x].place.Listed? { UnlinkKeeps(s, x); } else { MissedKeeps(s, x); }
    case UnlockUnlinked(_) => UnlockKeeps(s, l);
    case UnlockMissed(_) => UnlockKeeps(s, l);
    case Ask(x) =>
      if s.callbacks[x].pc.seen == Thread(s.callbacks[x].thread) { AskInsideKeeps(s, x); } else { WaitKeeps(s, l); }
    case SeeCompleted(_) => WaitKeeps(s, l);
  }

  lemma StartStepKeeps(s: State, l: Label)
    requires Inv(s) && Enabled(s, l) && StartsOp(l)
    ensures Inv(Next(s, l))
  {
    match l
    case StartRegister(_, _) => StartKeeps(s, l);
    case StartRemove(_, _) => StartKeeps(s, l);
    case Discard(_, _) => DiscardKeeps(s, l);
    case StartRequest(t) => hide Inv, Notifies; RequestingKeeps(s, Next(s, l), t);
  }

  lemma NotifierKeeps(s: State, l: Label)
    requires Inv(s) && Enabled(s, l) && !OnCallback(l) && !StartsOp(l)
    ensures Inv(Next(s, l))
  {
    match l
    case Request(t) => hide Inv, Notifies; if s.stop { RequestingKeeps(s, Next(s, l), t); } else { WinKeeps(s, t); }
    case SetThread => hide *; SetThreadKeeps(s);
    case Check => hide Inv; if s.list == [] { BetweenKeeps(s, l); } else { PopKeeps(s); }
    case Release => hide *; StartsCurrentKeeps(s, l);
    case Arm => hide *; StartsCurrentKeeps(s, l);
    case Execute => hide *; StartsCurrentKeeps(s, l);
    case Return => hide *; EndsCurrentKeeps(s, l);
    case Test => hide *; EndsCurrentKeeps(s, l);
    case SetCompleted => hide *; EndsCurrentKeeps(s, l);
    case Relock => hide *; BetweenKeeps(s, l);
  }

  lemma StepKeeps(s: State, l: Label)
    requires Inv(s) && Enabled(s, l)
    ensures Inv(Next(s, l))
  {
    if OnCallback(l) {
      CallbackStepKeeps(s, l);
    } else if StartsOp(l) {
      StartStepKeeps(s, l);
    } else {
      NotifierKeeps(s, l);
    }
  }

  // ----- whole runs

  ghost predicate IsRun(states: seq<State>, labels: seq<Label>) {
    && |states| == |labels| + 1
    && Init(states[0])
    && forall k :: 0 <= k < |labels| ==> Enabled(states[k], labels[k]) && states[k + 1] == Next(states[k], labels[k])
  }

  lemma {:induction false} RunsAreSafe(states: seq<State>, labels: seq<Label>, k: nat)
    requires IsRun(states, labels) && k < |states|
    ensures Inv(states[k])
  {
    hide Inv, Next, Enabled, Init;
    if k == 0 {
      InitOk(states[0]);
    } else {
      RunsAreSafe(states, labels, k - 1);
      StepKeeps(states[k - 1], labels[k - 1]);
    }
  }

  /** No callback runs twice, whether from the list or inside a registration that came too late. */
  lemma ExecutedAtMostOnce(states: seq<State>, labels: seq<Label>, k: nat, x: nat)
    requires IsRun(states, labels) && k < |states| && x in states[k].callbacks
    ensures states[k].callbacks[x].executions <= 1
  {
    RunsAreSafe(states, labels, k);
    Look(states[k], x);
  }

  lemma MutualExclusion(states: seq<State>, labels: seq<Label>, k: nat, x: nat, y: nat)
    requires IsRun(states, labels) && k < |states| && x in states[k].callbacks && y in states[k].callbacks
    requires Critical(states[k].callbacks[x].pc)
    ensures states[k].locked && !NotifierCritical(states[k].notifier)
    ensures x != y ==> !Critical(states[k].callbacks[y].pc)
  {
    RunsAreSafe(states, labels, k);
    Look(states[k], x);
    Look(states[k], y);
    assert WordOk(states[k]);
  }

  lemma StopStaysInStep(s: State, l: Label)
    requires Inv(s) && Enabled(s, l) && s.stop
    ensures Next(s, l).stop && !Next(s, l).notifier.NoOne? && Next(s, l).notifier.t == s.notifier.t
  {
    hide Inv;
    Word(s);
    if l.UnlockAdded? || l.UnlockUnlinked? || l.UnlockMissed? {
      UnlockKeeps(s, l);
    }
    if OnCallback(l) {
      hide NotifierStep, StartStep;
    } else if StartsOp(l) {
      hide NotifierStep, CallbackStep;
    } else {
      hide CallbackStep, StartStep;
    }
  }

  lemma Word(s: State)
    requires Inv(s)
    ensures s.stop <==> !s.notifier.NoOne?
    ensures s.locked <==> !s.holder.Unheld?
  {
    hide CallbacksOk, ListOk, ThreadsOk;
  }

  /** The stop flag never clears, and the request that set it stays the only one to run callbacks. */
  lemma {:induction false} StopStays(states: seq<State>, labels: seq<Label>, j: nat, k: nat)
    requires IsRun(states, labels) && j <= k < |states| && states[j].stop
    ensures states[k].stop
    ensures !states[j].notifier.NoOne? && !states[k].notifier.NoOne? && states[k].notifier.t == states[j].notifier.t
  {
    hide Next, Enabled, Init;
    RunsAreSafe(states, labels, j);
    if j < k {
      StopStays(states, labels, j, k - 1);
      RunsAreSafe(states, labels, k - 1);
      hide Inv;
      StopStaysInStep(states[k - 1], labels[k - 1]);
    }
  }

  predicate Wins(s: State, l: Label) {
    l.Request? && !s.stop
  }

  /** Of all calls of `request_stop`, one runs the callbacks; the others find the flag set. */
  lemma OneRequestRunsCallbacks(states: seq<State>, labels: seq<Label>, j: nat, k: nat)
    requires IsRun(states, labels) && j < k < |labels| && Wins(states[j], labels[j])
    ensures !Wins(states[k], labels[k])
  {
    assert states[j + 1].stop;
    StopStays(states, labels, j + 1, k);
  }

  lemma UnlinkedStays(s: State, l: Label, x: nat)
    requires Inv(s) && Enabled(s, l) && x in s.callbacks && s.callbacks[x].place.Unlinked?
    ensures x in Next(s, l).callbacks && Next(s, l).callbacks[x].place.Unlinked?
  {
    hide Inv, Enabled, Next;
    UnlinkedIsOver(s, x);
    if OnCallback(l) {
      OwnStepSparesUnlinked(s, l, x);
    } else if StartsOp(l) {
      StartSparesUnlinked(s, l, x);
    } else {
      if l.Check? && s.list != [] {
        HeadIsListed(s);
      }
      NotifierSparesUnlinked(s, l, x);
    }
  }

  lemma OwnStepSparesUnlinked(s: State, l: Label, x: nat)
    requires Enabled(s, l) && OnCallback(l) && x in s.callbacks && s.callbacks[x].place.Unlinked?
    requires s.callbacks[x].pc.Unlocking? || s.callbacks[x].pc.Dead?
    ensures x in Next(s, l).callbacks && Next(s, l).callbacks[x].place.Unlinked?
  {
    hide NotifierStep, StartStep;
    if l.x == x {
      assert l.UnlockUnlinked?;
    }
  }

  lemma StartSparesUnlinked(s: State, l: Label, x: nat)
    requires Enabled(s, l) && StartsOp(l) && x in s.callbacks && s.callbacks[x].place.Unlinked?
    ensures x in Next(s, l).callbacks && Next(s, l).callbacks[x].place.Unlinked?
  {
    hide NotifierStep, CallbackStep;
  }

  lemma NotifierSparesUnlinked(s: State, l: Label, x: nat)
    requires Enabled(s, l) && !OnCallback(l) && !StartsOp(l) && x in s.callbacks && s.callbacks[x].place.Unlinked?
    requires l.Check? && s.list != [] ==> s.list[0] != x
    ensures x in Next(s, l).callbacks && Next(s, l).callbacks[x].place.Unlinked?
  {
    hide CallbackStep, StartStep;
  }

  lemma UnlinkedIsOver(s: State, x: nat)
    requires Inv(s) && x in s.callbacks && s.callbacks[x].place.Unlinked?
    ensures s.callbacks[x].executions == 0 && (s.callbacks[x].pc.Unlocking? || s.callbacks[x].pc.Dead?)
  {
    Look(s, x);
    hide Inv;
  }

  lemma HeadIsListed(s: State)
    requires Inv(s) && s.list != []
    ensures s.list[0] in s.callbacks && s.callbacks[s.list[0]].place.Listed?
  {
  }

  /** A removal that unlinks the callback means that it never runs. */
  lemma {:induction false} UnlinkedNeverRuns(states: seq<State>, labels: seq<Label>, j: nat, k: nat, x: nat)
    requires IsRun(states, labels) && j < k < |states|
    requires labels[j] == Unlink(x) && x in states[j].callbacks && states[j].callbacks[x].place.Listed?
    ensures x in states[k].callbacks && states[k].callbacks[x].place.Unlinked? && states[k].callbacks[x].executions == 0
  {
    hide Next, Enabled, Init, Inv;
    if j + 1 < k {
      UnlinkedNeverRuns(states, labels, j, k - 1, x);
      RunsAreSafe(states, labels, k - 1);
      UnlinkedStays(states[k - 1], labels[k - 1], x);
    } else {
      Unlinks(states[j], x);
    }
    RunsAreSafe(states, labels, k);
    UnlinkedIsOver(states[k], x);
  }

  lemma Unlinks(s: State, x: nat)
    requires Enabled(s, Unlink(x)) && s.callbacks[x].place.Listed?
    ensures x in Next(s, Unlink(x)).callbacks && Next(s, Unlink(x)).callbacks[x].place.Unlinked?
  {
  }

  predicate Returns(s: State, l: Label, x: nat)
    requires Enabled(s, l) && x in s.callbacks && x in Next(s, l).callbacks
  {
    !s.callbacks[x].pc.Dead? && Next(s, l).callbacks[x].pc.Dead?
  }

  lemma NotifierKeepsPcs(s: State, l: Label, x: nat)
    requires Enabled(s, l) && !OnCallback(l) && !StartsOp(l) && x in s.callbacks
    ensures x in Next(s, l).callbacks && Next(s, l).callbacks[x].pc == s.callbacks[x].pc
  {
    hide CallbackStep, StartStep;
  }

  lemma OwnStepSparesOthers(s: State, l: Label, x: nat)
    requires Enabled(s, l) && OnCallback(l) && x in s.callbacks && x != l.x
    ensures x in Next(s, l).callbacks && Next(s, l).callbacks[x] == s.callbacks[x]
  {
    match l
    case TryLock(_) =>
    case Link(_) =>
    case UnlockAdded(_) =>
    case RunInline(_) =>
    case EndInline(_) =>
    case Lock(_) =>
    case Unlink(_) =>
    case UnlockUnlinked(_) =>
    case UnlockMissed(_) =>
    case Ask(_) =>
    case SeeCompleted(_) =>
  }

  lemma HowItReturns(s: State, l: Label, x: nat)
    requires Enabled(s, l) && x in s.callbacks && x in Next(s, l).callbacks && Returns(s, l, x)
    ensures Next(s, l).callbacks[x] == s.callbacks[x].(pc := Dead) && Next(s, l).notifier == s.notifier
    ensures var c := s.callbacks[x];
      || (c.pc.Alive? && c.place.Refused?)
      || c.pc.Unlocking?
      || (c.pc.Asking? && c.pc.seen == Thread(c.thread))
      || (c.pc.Spinning? && c.completed)
  {
    if OnCallback(l) {
      hide NotifierStep, StartStep;
      if l.x != x {
        OwnStepSparesOthers(s, l, x);
      }
    } else if StartsOp(l) {
      hide NotifierStep, CallbackStep;
    } else {
      hide NotifierStep, CallbackStep, StartStep;
      NotifierKeepsPcs(s, l, x);
    }
  }

  /** A removal on another thread returns only when the callback cannot run any more and is not running. */
  lemma ForeignRemovalWaits(states: seq<State>, labels: seq<Label>, k: nat, x: nat)
    requires IsRun(states, labels) && k < |labels|
    requires x in states[k].callbacks && x in Next(states[k], labels[k]).callbacks && Returns(states[k], labels[k], x)
    requires states[k].seen != Thread(states[k].callbacks[x].thread)
    ensures var s := states[k + 1]; !(HasCurrent(s.notifier) && s.notifier.x == x)
    ensures var c := states[k + 1].callbacks[x]; (c.executions == 0 && c.place.Unlinked?) || c.executions == 1
  {
    RunsAreSafe(states, labels, k);
    HowItReturns(states[k], labels[k], x);
    assert states[k + 1] == Next(states[k], labels[k]);
    hide Inv, Next, Enabled, IsRun, Returns;
    Look(states[k], x);
  }

  /** A removal on the notifying thread never waits: asking who notifies is its last step. */
  lemma InsideRemovalDoesNotWait(states: seq<State>, labels: seq<Label>, k: nat, x: nat)
    requires IsRun(states, labels) && k < |states| && x in states[k].callbacks
    requires states[k].seen == Thread(states[k].callbacks[x].thread)
    ensures !states[k].callbacks[x].pc.Spinning?
    ensures states[k].callbacks[x].pc.Asking? && Enabled(states[k], Ask(x)) ==>
              Next(states[k], Ask(x)).callbacks[x].pc.Dead?
  {
    RunsAreSafe(states, labels, k);
    Look(states[k], x);
    hide Inv;
  }

  /** The source reads and writes only callbacks that are constructed and whose removal has not returned. */
  lemma NeverTouchedAfterRemoval(states: seq<State>, labels: seq<Label>, k: nat, x: nat)
    requires IsRun(states, labels) && k < |labels| && x in Touches(states[k], labels[k])
    ensures x in states[k].callbacks && !states[k].callbacks[x].pc.Dead? && !states[k].callbacks[x].pc.Unborn?
  {
    RunsAreSafe(states, labels, k);
    assert Enabled(states[k], labels[k]);
    hide Inv, IsRun;
    TouchedIsAlive(states[k], labels[k], x);
  }

  lemma TouchedIsAlive(s: State, l: Label, x: nat)
    requires Inv(s) && Enabled(s, l) && x in Touches(s, l)
    ensures x in s.callbacks && !s.callbacks[x].pc.Dead? && !s.callbacks[x].pc.Unborn?
  {
    hide Inv;
    if x in s.list {
      ListedIsAlive(s, x);
    } else {
      hide Members;
      MembersAre(s.list);
      if HasCurrent(s.notifier) {
        LookCurrent(s);
      }
      if x in s.callbacks {
        Look(s, x);
      }
    }
  }

  lemma MembersAre(list: seq<nat>)
    ensures forall x :: x in Members(list) <==> x in list
  {
  }

  lemma ListedIsAlive(s: State, x: nat)
    requires Inv(s) && x in s.list
    ensures x in s.callbacks && !s.callbacks[x].pc.Dead? && !s.callbacks[x].pc.Unborn?
  {
    assert s.callbacks[x].place.Listed?;
    Look(s, x);
    hide Inv;
  }

  lemma EmptyStays(s: State, l: Label)
    requires Inv(s) && Enabled(s, l) && Next(s, l).notifier.Finished?
    requires s.notifier.Finished? ==> s.list == []
    ensures Next(s, l).list == []
  {
    hide Inv, NotifierStep, CallbackStep, StartStep;
    if OnCallback(l) {
      CallbackListStays(s, l);
    } else if StartsOp(l) {
      StartListStays(s, l);
    } else {
      NotifierListStays(s, l);
    }
  }

  lemma StartListStays(s: State, l: Label)
    requires Enabled(s, l) && StartsOp(l)
    ensures StartStep(s, l).list == s.list && StartStep(s, l).notifier == s.notifier
  {
    hide Enabled;
  }

  lemma NotifierListStays(s: State, l: Label)
    requires Enabled(s, l) && !OnCallback(l) && !StartsOp(l) && NotifierStep(s, l).notifier.Finished?
    requires s.notifier.Finished? ==> s.list == []
    ensures NotifierStep(s, l).list == []
  {
    match l
    case Request(_) =>
    case SetThread =>
    case Check =>
    case Release =>
    case Arm =>
    case Execute =>
    case Return =>
    case Test =>
    case SetCompleted =>
    case Relock =>
  }

  /** Nothing is linked once stop has been requested. */
  lemma CallbackListStays(s: State, l: Label)
    requires Inv(s) && Enabled(s, l) && OnCallback(l)
    requires CallbackStep(s, l).notifier.Finished? && (s.notifier.Finished? ==> s.list == [])
    ensures CallbackStep(s, l).list == []
  {
    OnlyLinkAdds(s, l);
    hide CallbackStep;
    if l.Link? {
      Look(s, l.x);
      hide Inv;
      assert false;
    }
  }

  lemma OnlyLinkAdds(s: State, l: Label)
    requires Enabled(s, l) && OnCallback(l)
    ensures CallbackStep(s, l).notifier == s.notifier
    ensures !l.Link? && s.list == [] ==> CallbackStep(s, l).list == []
  {
    match l
    case TryLock(_) =>
    case Link(_) =>
    case UnlockAdded(_) =>
    case RunInline(_) =>
    case EndInline(_) =>
    case Lock(_) =>
    case Unlink(_) =>
    case UnlockUnlinked(_) =>
    case UnlockMissed(_) =>
    case Ask(_) =>
    case SeeCompleted(_) =>
  }

  lemma {:induction false} EmptyAtTheEnd(states: seq<State>, labels: seq<Label>, k: nat)
    requires IsRun(states, labels) && k < |states| && states[k].notifier.Finished?
    ensures states[k].list == []
  {
    hide Next, Enabled, Inv;
    if k > 0 {
      hide Init;
      if states[k - 1].notifier.Finished? {
        EmptyAtTheEnd(states, labels, k - 1);
      }
      RunsAreSafe(states, labels, k - 1);
      EmptyStays(states[k - 1], labels[k - 1]);
    }
  }

  /**
   When the request has finished, every callback that was ever registered has run exactly once or had been
   unlinked before its turn, and those that ran were taken in the reverse of the order of registration.
   */
  lemma RanInReverseOrder(states: seq<State>, labels: seq<Label>, k: nat)
    requires IsRun(states, labels) && k < |states| && states[k].notifier.Finished?
    ensures forall x | x in states[k].callbacks ::
              var c := states[k].callbacks[x];
              c.place.Fresh?
              || (c.place.Refused? && c.executions == if c.pc.Declined? then 0 else 1)
              || (x in states[k].taken && c.executions == 1)
              || (x !in states[k].taken && c.place.Unlinked? && c.executions == 0)
    ensures Descending(states[k].taken, states[k].callbacks, states[k].count)
  {
    RunsAreSafe(states, labels, k);
    EmptyAtTheEnd(states, labels, k);
    var s := states[k];
    assert s.taken + s.list == s.taken;
    assert ListOk(s);
    forall x | x in s.callbacks
      ensures var c := s.callbacks[x];
              c.place.Fresh?
              || (c.place.Refused? && c.executions == if c.pc.Declined? then 0 else 1)
              || (x in s.taken && c.executions == 1)
              || (x !in s.taken && c.place.Unlinked? && c.executions == 0)
    {
      Look(s, x);
    }
  }
}
