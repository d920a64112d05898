/**
 The packed counter of the thread pool: the number of active workers in the upper half of a 32-bit word, the
 number of thieves in the lower half, both changed by a single wrapping addition.
 */
module PackedCounter {

  const HALF := 0x1_0000
  const WORD := 0x1_0000_0000

  datatype Mode = Active | Thief | Asleep

  datatype State = State(workers: seq<Mode>, word: nat)

  datatype Label = SetStealing(i: nat) | ClearStealing(i: nat) | SetSleeping(i: nat) | ClearSleeping(i: nat)

  /** `fetch_add` on a 32-bit unsigned word; subtracting adds the complement. */
  function Add(word: nat, diff: int): nat {
    (word + diff) % WORD
  }

  function NumVictims(word: nat): nat {
    word / HALF
  }

  function NumThieves(word: nat): nat {
    word % HALF
  }

  function Count(workers: seq<Mode>, mode: Mode): nat {
    if workers == [] then 0
    else Count(workers[..|workers| - 1], mode) + if workers[|workers| - 1] == mode then 1 else 0
  }

  /** All workers start out active: `thread_count << 16`. */
  ghost predicate Init(s: State) {
    && (forall i | 0 <= i < |s.workers| :: s.workers[i].Active?)
    && s.word == |s.workers| * HALF % WORD
  }

  predicate Enabled(s: State, l: Label) {
    && l.i < |s.workers|
    && match l
       case SetStealing(i) => s.workers[i].Active?
       case ClearStealing(i) => s.workers[i].Thief?
       case SetSleeping(i) => s.workers[i].Active?
       case ClearSleeping(i) => s.workers[i].Asleep?
  }

  /** What each transition adds to the word. */
  function Change(l: Label): int {
    match l
    case SetStealing(_) => 1 - HALF
    case ClearStealing(_) => -(1 - HALF)
    case SetSleeping(_) => -HALF
    case ClearSleeping(_) => HALF
  }

  function NewMode(l: Label): Mode {
    match l
    case SetStealing(_) => Thief
    case ClearStealing(_) => Active
    case SetSleeping(_) => Asleep
    case ClearSleeping(_) => Active
  }

  function Next(s: State, l: Label): State
    requires Enabled(s, l)
  {
    State(s.workers[l.i := NewMode(l)], Add(s.word, Change(l)))
  }

  /** Whether the step goes on to wake a sleeping worker. */
  predicate Notifies(s: State, l: Label)
    requires Enabled(s, l)
  {
    match l
    case ClearStealing(_) => NumThieves(s.word) == 1 && NumVictims(s.word) != 0
    case ClearSleeping(_) => s.word == 0
    case _ => false
  }

  // ----- the word always decodes to the counts

  ghost predicate Inv(s: State) {
    |s.workers| < HALF && s.word == Count(s.workers, Active) * HALF + Count(s.workers, Thief)
  }

  lemma {:induction false} CountUpdates(workers: seq<Mode>, i: nat, mode: Mode, m: Mode)
    requires i < |workers|
    ensures Count(workers[i := mode], m)
         == Count(workers, m) - (if workers[i] == m then 1 else 0) + (if mode == m then 1 else 0)
  {
    var n := |workers| - 1;
    if i == n {
      assert workers[i := mode][..n] == workers[..n];
    } else {
      assert workers[i := mode][..n] == workers[..n][i := mode];
      CountUpdates(workers[..n], i, mode, m);
    }
  }

  lemma {:induction false} CountsFit(workers: seq<Mode>)
    ensures Count(workers, Active) + Count(workers, Thief) <= |workers|
    ensures Count(workers, Active) + Count(workers, Thief) == 0 <==> forall i | 0 <= i < |workers| :: workers[i].Asleep?
  {
    if workers != [] {
      CountsFit(workers[..|workers| - 1]);
    }
  }

  lemma {:induction false} AllActive(workers: seq<Mode>)
    requires forall i | 0 <= i < |workers| :: workers[i].Active?
    ensures Count(workers, Active) == |workers| && Count(workers, Thief) == 0
  {
    if workers != [] {
      AllActive(workers[..|workers| - 1]);
    }
  }

  /** The word is right at the start if and only if there are fewer than 2^16 workers. */
  lemma InitialWord(s: State)
    requires Init(s)
    ensures NumVictims(s.word) == |s.workers| && NumThieves(s.word) == 0 <==> |s.workers| < HALF
    ensures |s.workers| < HALF ==> Inv(s)
  {
    AllActive(s.workers);
  }

  /** An addition that stays in range does not wrap, although its operand as a 32-bit word may be huge. */
  lemma AddExact(word: nat, diff: int)
    requires 0 <= word + diff < WORD
    ensures Add(word, diff) == word + diff
  {
  }

  lemma StepKeeps(s: State, l: Label)
    requires Inv(s) && Enabled(s, l)
    ensures Inv(Next(s, l))
  {
    hide Add;
    var t := Next(s, l);
    CountsFit(s.workers);
    CountsFit(t.workers);
    CountUpdates(s.workers, l.i, t.workers[l.i], Active);
    CountUpdates(s.workers, l.i, t.workers[l.i], Thief);
    hide Count;
    AddExact(s.word, Change(l));
  }

  // ----- whole runs

  ghost predicate IsRun(states: seq<State>, labels: seq<Label>) {
    && |states| == |labels| + 1
    && Init(states[0])
    && forall k :: 0 <= k < |labels| ==> Enabled(states[k], labels[k]) && states[k + 1] == Next(states[k], labels[k])
  }

  lemma {:induction false} RunsAreSafe(states: seq<State>, labels: seq<Label>, k: nat)
    requires IsRun(states, labels) && k < |states| && |states[0].workers| < HALF
    ensures Inv(states[k])
  {
    hide Inv, Next, Enabled, Init;
    if k == 0 {
      InitialWord(states[0]);
    } else {
      RunsAreSafe(states, labels, k - 1);
      StepKeeps(states[k - 1], labels[k - 1]);
    }
  }

  /** In every combination of worker states the halves of the word are the numbers of active workers and thieves. */
  lemma WordDecodes(states: seq<State>, labels: seq<Label>, k: nat)
    requires IsRun(states, labels) && k < |states| && |states[0].workers| < HALF
    ensures NumVictims(states[k].word) == Count(states[k].workers, Active)
    ensures NumThieves(states[k].word) == Count(states[k].workers, Thief)
  {
    RunsAreSafe(states, labels, k);
    CountsFit(states[k].workers);
  }

  /** A worker that wakes up notifies another one exactly when all were asleep; the last thief, when some are active. */
  lemma NotifiesWhenNeeded(states: seq<State>, labels: seq<Label>, k: nat)
    requires IsRun(states, labels) && k < |labels| && |states[0].workers| < HALF
    ensures var s, l := states[k], labels[k];
      && (l.ClearSleeping? ==> (Notifies(s, l) <==> forall i | 0 <= i < |s.workers| :: s.workers[i].Asleep?))
      && (l.ClearStealing? ==>
            (Notifies(s, l) <==> Count(s.workers, Thief) == 1 && Count(s.workers, Active) > 0))
      && (l.SetSleeping? || l.SetStealing? ==> !Notifies(s, l))
  {
    WordDecodes(states, labels, k);
    RunsAreSafe(states, labels, k);
    CountsFit(states[k].workers);
    hide Count;
  }
}
