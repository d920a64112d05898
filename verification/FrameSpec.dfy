/**
 Completion of an Asio operation whose handler runs under executor frames: what is sent to the receiver, and
 when the operation is used after its completion.

 What happens is a script: frames may be entered, the handler may be invoked or dropped, a stop request may emit
 the cancellation signal, and an exception may escape.
 */
module FrameSpec {

  /** `Emit`: stop is requested, and if the stop callback is installed the emission of the signal runs `body`. */
  datatype Action =
    | Nested(body: Script)
    | Emit(body: Script)
    | Invoke(conversionThrows: bool)
    | Drop
    | Throw

  datatype Script = Done | Then(first: Action, rest: Script)

  datatype Handler = Held | Invoked | Dropped

  datatype Signal = Value | Error | Stopped

  /** `clean`: the operation has not been used after its completion. */
  datatype Outcome = Outcome(handler: Handler, ex: bool, sent: seq<Signal>, clean: bool, callback: bool)

  const INITIALLY := Outcome(Held, false, [], true, false)

  datatype Left = Left(o: Outcome, threw: bool)

  function Abandon(o: Outcome): Outcome {
    o.(sent := o.sent + [if o.ex then Error else Stopped], callback := false)
  }

  /** A frame around a script; `outermost` if there is no other frame. */
  function RunFrame(o: Outcome, body: Script, outermost: bool): Outcome
    decreases body, 1
  {
    if o.sent != [] then o.(clean := false)
    else
      var left := RunBody(o, body, true);
      if left.o.sent != [] then left.o.(clean := left.o.clean && !left.threw)
      else
        var o1 := left.o.(ex := left.o.ex || left.threw);
        if outermost && o1.handler.Dropped? then Abandon(o1) else o1
  }

  /** The signal is emitted under a lock guard, which is given up in the end. */
  function Emitted(o: Outcome, body: Script, inFrame: bool): Outcome
    decreases body, 1
  {
    var o1 := RunBody(o, body, inFrame).o;
    if o1.sent != [] then o1.(clean := false) else o1
  }

  function Invocation(o: Outcome, throws: bool): Outcome {
    o.(handler := Invoked, sent := o.sent + [if o.ex || throws then Error else Value], callback := false)
  }

  function RunBody(o: Outcome, s: Script, inFrame: bool): Left
    decreases s, 0
  {
    match s
    case Done => Left(o, false)
    case Then(Throw, _) => Left(o, true)
    case Then(Nested(body), rest) => RunBody(RunFrame(o, body, !inFrame), rest, inFrame)
    case Then(Emit(body), rest) => RunBody(if o.callback then Emitted(o, body, inFrame) else o, rest, inFrame)
    case Then(Invoke(throws), rest) =>
      RunBody(if o.handler.Held? then Invocation(o, throws) else o, rest, inFrame)
    case Then(Drop, rest) =>
      if o.handler.Held? then
        var o1 := o.(handler := Dropped);
        RunBody(if inFrame then o1 else Abandon(o1), rest, inFrame)
      else RunBody(o, rest, inFrame)
  }

  /** What is sent, at any point between two actions. */
  ghost predicate Ok(o: Outcome, inFrame: bool) {
    && |o.sent| <= 1
    && (o.handler.Held? || o.callback ==> o.sent == [])
    && (o.handler.Invoked? ==> |o.sent| == 1 && (o.sent[0].Value? || o.sent[0].Error?) && (o.ex ==> o.sent[0].Error?))
    && (o.handler.Dropped? && o.sent == [] ==> inFrame)
    && (o.handler.Dropped? && o.sent != [] ==> o.sent == [if o.ex then Error else Stopped])
  }

  lemma {:induction false} FrameKeepsOk(o: Outcome, body: Script, outermost: bool)
    requires Ok(o, !outermost)
    ensures Ok(RunFrame(o, body, outermost), !outermost)
    decreases body, 1
  {
    if o.sent == [] {
      BodyKeepsOk(o, body, true);
    }
  }

  lemma {:induction false} BodyKeepsOk(o: Outcome, s: Script, inFrame: bool)
    requires Ok(o, inFrame)
    ensures Ok(RunBody(o, s, inFrame).o, inFrame)
    decreases s, 0
  {
    match s
    case Done =>
    case Then(Throw, _) =>
    case Then(Nested(body), rest) =>
      FrameKeepsOk(o, body, !inFrame);
      BodyKeepsOk(RunFrame(o, body, !inFrame), rest, inFrame);
    case Then(Emit(body), rest) =>
      if o.callback {
        BodyKeepsOk(o, body, inFrame);
      }
      BodyKeepsOk(if o.callback then Emitted(o, body, inFrame) else o, rest, inFrame);
    case Then(Invoke(throws), rest) =>
      BodyKeepsOk(if o.handler.Held? then Invocation(o, throws) else o, rest, inFrame);
    case Then(Drop, rest) =>
      if o.handler.Held? {
        var o1 := o.(handler := Dropped);
        BodyKeepsOk(if inFrame then o1 else Abandon(o1), rest, inFrame);
      } else {
        BodyKeepsOk(o, rest, inFrame);
      }
  }

  /** The stop callback is constructed, and runs at once if stop has been requested before. */
  function Install(o: Outcome, onStop: Script): Outcome {
    var o1 := Emitted(o, onStop, true);
    o1.(callback := o1.sent == [])
  }

  /** `start()`: its frame, around the initiation and the installation of the stop callback. */
  function RunStart(initiation: Script, onStop: Script): Outcome {
    var left := RunBody(INITIALLY, initiation, true);
    if left.o.sent != [] then left.o.(clean := left.o.clean && !left.threw)
    else
      var o := Install(left.o.(ex := left.o.ex || left.threw), onStop);
      if o.sent == [] && o.handler.Dropped? then Abandon(o) else o
  }

  /** The life of an operation: `start()`, and what happens to the handler later. */
  function Life(initiation: Script, onStop: Script, later: Script): Outcome {
    RunBody(RunStart(initiation, onStop), later, false).o
  }

  lemma StartKeepsOk(initiation: Script, onStop: Script)
    ensures Ok(RunStart(initiation, onStop), false)
  {
    BodyKeepsOk(INITIALLY, initiation, true);
    var left := RunBody(INITIALLY, initiation, true);
    if left.o.sent == [] {
      BodyKeepsOk(left.o.(ex := left.o.ex || left.threw), onStop, true);
    }
  }

  /** Whatever the nesting, one signal is sent once the handler is consumed and the frames are left, and none before. */
  lemma OneSignalPerLife(initiation: Script, onStop: Script, later: Script)
    ensures var o := Life(initiation, onStop, later);
      && |o.sent| == (if o.handler.Held? then 0 else 1)
      && (o.handler.Dropped? ==> o.sent == [if o.ex then Error else Stopped])
      && (o.handler.Invoked? ==> o.sent == [Value] || o.sent == [Error])
  {
    StartKeepsOk(initiation, onStop);
    BodyKeepsOk(RunStart(initiation, onStop), later, false);
  }

  // ----- when the operation is used after its completion

  datatype Use = Unused | Invokes | Drops

  /** What a script, run up to its first exception, does first with the handler; `armed`: a stop request is noticed. */
  function FirstUse(s: Script, armed: bool): Use {
    match s
    case Done => Unused
    case Then(Throw, _) => Unused
    case Then(Nested(body), rest) =>
      if FirstUse(body, armed).Unused? then FirstUse(rest, armed) else FirstUse(body, armed)
    case Then(Emit(body), rest) =>
      if !armed || FirstUse(body, armed).Unused? then FirstUse(rest, armed) else FirstUse(body, armed)
    case Then(Invoke(_), _) => Invokes
    case Then(Drop, _) => Drops
  }

  /** A frame is entered, or an exception reaches the frame around the script. */
  predicate EntersOrThrows(s: Script, inFrame: bool) {
    match s
    case Done => false
    case Then(Throw, _) => inFrame
    case Then(Nested(_), _) => true
    case Then(Emit(_), rest) => EntersOrThrows(rest, inFrame)
    case Then(Invoke(_), rest) => EntersOrThrows(rest, inFrame)
    case Then(Drop, rest) => EntersOrThrows(rest, inFrame)
  }

  /**
   The operation is completed inside an emission; or a frame is entered, or an exception reaches a frame, after
   the handler was invoked there or in a frame inside it, or after it was dropped and all frames were left.
   */
  predicate Late(s: Script, inFrame: bool, armed: bool) {
    match s
    case Done => false
    case Then(Throw, _) => false
    case Then(Nested(body), rest) =>
      (match FirstUse(body, armed)
       case Invokes => Late(body, true, armed) || EntersOrThrows(rest, inFrame)
       case Drops => !inFrame && EntersOrThrows(rest, false)
       case Unused => Late(rest, inFrame, armed))
    case Then(Emit(body), rest) =>
      if !armed then Late(rest, inFrame, armed)
      else
        (match FirstUse(body, armed)
         case Invokes => true
         case Drops => !inFrame
         case Unused => Late(rest, inFrame, armed))
    case Then(Invoke(_), rest) => EntersOrThrows(rest, inFrame)
    case Then(Drop, rest) => !inFrame && EntersOrThrows(rest, false)
  }

  /** No completed operation has been used, nor will be by the frame around the script when it sees the exception. */
  predicate IsClean(left: Left, inFrame: bool) {
    left.o.clean && !(inFrame && left.o.sent != [] && left.threw)
  }

  /** What follows the consumption of the handler sends nothing, and whether it uses a completed operation. */
  lemma {:induction false} AfterUse(o: Outcome, s: Script, inFrame: bool)
    requires !o.handler.Held? && (o.sent == [] ==> inFrame && o.handler.Dropped? && o.clean)
    requires o.callback ==> o.sent == []
    ensures var left := RunBody(o, s, inFrame);
      && left.o.handler == o.handler && left.o.sent == o.sent && left.o.callback == o.callback
      && (IsClean(left, inFrame) <==> o.clean && (o.sent != [] ==> !EntersOrThrows(s, inFrame)))
    decreases s
  {
    match s
    case Done =>
    case Then(Throw, _) =>
    case Then(Nested(body), rest) =>
      if o.sent == [] {
        AfterUse(o, body, true);
      }
      AfterUse(RunFrame(o, body, !inFrame), rest, inFrame);
    case Then(Emit(body), rest) =>
      if o.callback {
        AfterUse(o, body, inFrame);
        AfterUse(Emitted(o, body, inFrame), rest, inFrame);
      } else {
        AfterUse(o, rest, inFrame);
      }
    case Then(Invoke(_), rest) => AfterUse(o, rest, inFrame);
    case Then(Drop, rest) => AfterUse(o, rest, inFrame);
  }

  /** The handler is held, or consumed with the signal sent, or dropped in a frame that has still to be left. */
  predicate Underway(o: Outcome, inFrame: bool) {
    && (o.callback ==> o.sent == [])
    && (if o.handler.Held? then o.sent == [] && o.clean else o.sent == [] ==> inFrame && o.handler.Dropped? && o.clean)
  }

  /** What becomes of a handler that is held, and exactly when a completed operation is used. */
  lemma {:induction false} ExactlyLate(o: Outcome, s: Script, inFrame: bool)
    requires Underway(o, inFrame)
    ensures var left, use := RunBody(o, s, inFrame), FirstUse(s, o.callback);
      if o.handler.Held? then
        && left.o.handler == (match use case Unused => Held case Invokes => Invoked case Drops => Dropped)
        && (left.o.sent != [] <==> use.Invokes? || (use.Drops? && !inFrame))
        && left.o.callback == (o.callback && left.o.sent == [])
        && (IsClean(left, inFrame) <==> !Late(s, inFrame, o.callback))
        && (Late(s, inFrame, o.callback) ==> left.o.sent != [])
      else
        && left.o.handler == o.handler && left.o.sent == o.sent && left.o.callback == o.callback
        && (IsClean(left, inFrame) <==> o.clean && (o.sent != [] ==> !EntersOrThrows(s, inFrame)))
    decreases s
  {
    if !o.handler.Held? {
      AfterUse(o, s, inFrame);
    } else {
      match s
      case Done =>
      case Then(Throw, _) =>
      case Then(Nested(body), rest) =>
        ExactlyLate(o, body, true);
        ExactlyLate(RunFrame(o, body, !inFrame), rest, inFrame);
      case Then(Emit(body), rest) =>
        if o.callback {
          ExactlyLate(o, body, inFrame);
        }
        ExactlyLate(if o.callback then Emitted(o, body, inFrame) else o, rest, inFrame);
      case Then(Invoke(throws), rest) => AfterUse(Invocation(o, throws), rest, inFrame);
      case Then(Drop, rest) =>
        var o1 := o.(handler := Dropped);
        AfterUse(if inFrame then o1 else Abandon(o1), rest, inFrame);
    }
  }

  /** `start()` is late if its initiation is, or if the first use of the handler is an invocation by the emission. */
  predicate LateStart(initiation: Script, onStop: Script) {
    Late(initiation, true, false) || (FirstUse(initiation, false).Unused? && FirstUse(onStop, false).Invokes?)
  }

  /** Afterwards the stop callback is installed, unless the handler has been used. */
  predicate LateLife(initiation: Script, onStop: Script, later: Script) {
    || LateStart(initiation, onStop)
    || if FirstUse(initiation, false).Unused? && FirstUse(onStop, false).Unused? then Late(later, false, true)
       else EntersOrThrows(later, false)
  }

  lemma StartIs(initiation: Script, onStop: Script)
    ensures var o := RunStart(initiation, onStop);
      && (o.clean <==> !LateStart(initiation, onStop))
      && (o.handler.Held? <==> FirstUse(initiation, false).Unused? && FirstUse(onStop, false).Unused?)
      && (o.handler.Held? <==> o.sent == []) && (o.handler.Held? <==> o.callback) && (o.handler.Held? ==> o.clean)
  {
    ExactlyLate(INITIALLY, initiation, true);
    var left := RunBody(INITIALLY, initiation, true);
    if left.o.sent == [] {
      ExactlyLate(left.o.(ex := left.o.ex || left.threw), onStop, true);
    }
  }

  /** The operation is used after its completion exactly if something comes late, in the start or afterwards. */
  lemma CleanLife(initiation: Script, onStop: Script, later: Script)
    ensures Life(initiation, onStop, later).clean <==> !LateLife(initiation, onStop, later)
  {
    StartIs(initiation, onStop);
    ExactlyLate(RunStart(initiation, onStop), later, false);
  }

  // ----- which signal is sent

  /** Whether an exception escapes the script. */
  predicate Throws(s: Script) {
    s.Then? && (s.first.Throw? || Throws(s.rest))
  }

  /** Whether an exception reaches one of the frames that the script enters, all of which it leaves again. */
  predicate Records(s: Script, armed: bool) {
    match s
    case Done => false
    case Then(Throw, _) => false
    case Then(Nested(body), rest) => Records(body, armed) || Throws(body) || Records(rest, armed)
    case Then(Emit(body), rest) => (armed && Records(body, armed)) || Records(rest, armed)
    case Then(Invoke(_), rest) => Records(rest, armed)
    case Then(Drop, rest) => Records(rest, armed)
  }

  /** The same up to the first use of the handler. */
  predicate RecordsBefore(s: Script, armed: bool) {
    match s
    case Done => false
    case Then(Throw, _) => false
    case Then(Nested(body), rest) =>
      if FirstUse(body, armed).Unused? then Records(body, armed) || Throws(body) || RecordsBefore(rest, armed)
      else RecordsBefore(body, armed)
    case Then(Emit(body), rest) =>
      if !armed then RecordsBefore(rest, armed)
      else if FirstUse(body, armed).Unused? then Records(body, armed) || RecordsBefore(rest, armed)
      else RecordsBefore(body, armed)
    case Then(Invoke(_), _) => false
    case Then(Drop, _) => false
  }

  /** Whether the first use of the handler is an invocation whose arguments cannot be converted. */
  predicate ConversionThrows(s: Script, armed: bool) {
    match s
    case Done => false
    case Then(Throw, _) => false
    case Then(Nested(body), rest) =>
      if FirstUse(body, armed).Unused? then ConversionThrows(rest, armed) else ConversionThrows(body, armed)
    case Then(Emit(body), rest) =>
      if !armed || FirstUse(body, armed).Unused? then ConversionThrows(rest, armed) else ConversionThrows(body, armed)
    case Then(Invoke(throws), _) => throws
    case Then(Drop, _) => false
  }

  /** Outside of all frames, with `failed` if an exception has reached a frame before. */
  function LaterSignals(s: Script, failed: bool): seq<Signal> {
    match s
    case Done => []
    case Then(Throw, _) => []
    case Then(Nested(body), rest) =>
      (match FirstUse(body, true)
       case Unused => LaterSignals(rest, failed || Records(body, true) || Throws(body))
       case Invokes => [if failed || RecordsBefore(body, true) || ConversionThrows(body, true) then Error else Value]
       case Drops => [if failed || Records(body, true) || Throws(body) then Error else Stopped])
    case Then(Emit(body), rest) =>
      if FirstUse(body, true).Unused? then LaterSignals(rest, failed || Records(body, true))
      else LaterSignals(body, failed)
    case Then(Invoke(throws), _) => [if failed || throws then Error else Value]
    case Then(Drop, _) => [if failed then Error else Stopped]
  }

  /**
   What a life sends, as its scripts say: an invocation sends a value, unless its conversion throws or an exception
   has reached a frame before; a handler that is dropped leads to a stopped signal, unless an exception has reached
   a frame before the frames around it have been left.
   */
  function Signals(initiation: Script, onStop: Script, later: Script): seq<Signal> {
    var failed := Records(initiation, false) || Throws(initiation);
    match FirstUse(initiation, false)
    case Invokes => [if RecordsBefore(initiation, false) || ConversionThrows(initiation, false) then Error else Value]
    case Drops => [if failed || Records(onStop, false) then Error else Stopped]
    case Unused =>
      match FirstUse(onStop, false)
      case Invokes =>
        [if failed || RecordsBefore(onStop, false) || ConversionThrows(onStop, false) then Error else Value]
      case Drops => [if failed || Records(onStop, false) then Error else Stopped]
      case Unused => LaterSignals(later, failed || Records(onStop, false))
  }

  lemma {:induction false} ThrewIs(o: Outcome, s: Script, inFrame: bool)
    ensures RunBody(o, s, inFrame).threw == Throws(s)
    decreases s
  {
    match s
    case Done =>
    case Then(Throw, _) =>
    case Then(Nested(body), rest) => ThrewIs(RunFrame(o, body, !inFrame), rest, inFrame);
    case Then(Emit(body), rest) => ThrewIs(if o.callback then Emitted(o, body, inFrame) else o, rest, inFrame);
    case Then(Invoke(throws), rest) => ThrewIs(if o.handler.Held? then Invocation(o, throws) else o, rest, inFrame);
    case Then(Drop, rest) =>
      var o1 := o.(handler := Dropped);
      ThrewIs(if !o.handler.Held? then o else if inFrame then o1 else Abandon(o1), rest, inFrame);
  }

  lemma {:induction false} SentStays(o: Outcome, s: Script, inFrame: bool)
    requires o.sent != []
    ensures RunBody(o, s, inFrame).o.sent != []
    decreases s
  {
    match s
    case Done =>
    case Then(Throw, _) =>
    case Then(Nested(body), rest) => SentStays(RunFrame(o, body, !inFrame), rest, inFrame);
    case Then(Emit(body), rest) =>
      if o.callback {
        SentStays(o, body, inFrame);
      }
      SentStays(if o.callback then Emitted(o, body, inFrame) else o, rest, inFrame);
    case Then(Invoke(throws), rest) => SentStays(if o.handler.Held? then Invocation(o, throws) else o, rest, inFrame);
    case Then(Drop, rest) =>
      var o1 := o.(handler := Dropped);
      SentStays(if !o.handler.Held? then o else if inFrame then o1 else Abandon(o1), rest, inFrame);
  }

  /** As long as nothing is sent, exactly the exceptions that reach frames are recorded. */
  lemma {:induction false} ExIs(o: Outcome, s: Script, inFrame: bool)
    requires o.sent == [] && RunBody(o, s, inFrame).o.sent == []
    ensures var left := RunBody(o, s, inFrame).o;
      left.callback == o.callback && left.ex == (o.ex || Records(s, o.callback))
    decreases s
  {
    match s
    case Done =>
    case Then(Throw, _) =>
    case Then(Nested(body), rest) =>
      var o1 := RunFrame(o, body, !inFrame);
      if o1.sent != [] {
        SentStays(o1, rest, inFrame);
      }
      ThrewIs(o, body, true);
      ExIs(o, body, true);
      ExIs(o1, rest, inFrame);
    case Then(Emit(body), rest) =>
      var o1 := if o.callback then Emitted(o, body, inFrame) else o;
      if o1.sent != [] {
        SentStays(o1, rest, inFrame);
      }
      if o.callback {
        ExIs(o, body, inFrame);
      }
      ExIs(o1, rest, inFrame);
    case Then(Invoke(throws), rest) =>
      if o.handler.Held? {
        SentStays(Invocation(o, throws), rest, inFrame);
      }
      ExIs(o, rest, inFrame);
    case Then(Drop, rest) =>
      var o1 := o.(handler := Dropped);
      if o.handler.Held? && !inFrame {
        SentStays(Abandon(o1), rest, inFrame);
      }
      ExIs(if o.handler.Held? then o1 else o, rest, inFrame);
  }

  /** What an invocation sends that is the first use of the handler. */
  lemma {:induction false} InvokedSignal(o: Outcome, s: Script, inFrame: bool)
    requires Underway(o, inFrame) && o.handler.Held? && FirstUse(s, o.callback).Invokes?
    ensures RunBody(o, s, inFrame).o.sent ==
            [if o.ex || RecordsBefore(s, o.callback) || ConversionThrows(s, o.callback) then Error else Value]
    decreases s
  {
    match s
    case Then(Nested(body), rest) =>
      var o1 := RunFrame(o, body, !inFrame);
      ExactlyLate(o, body, true);
      if FirstUse(body, o.callback).Unused? {
        ThrewIs(o, body, true);
        ExIs(o, body, true);
        InvokedSignal(o1, rest, inFrame);
      } else {
        InvokedSignal(o, body, true);
        AfterUse(o1, rest, inFrame);
      }
    case Then(Emit(body), rest) =>
      if !o.callback {
        InvokedSignal(o, rest, inFrame);
      } else {
        var o1 := Emitted(o, body, inFrame);
        ExactlyLate(o, body, inFrame);
        if FirstUse(body, o.callback).Unused? {
          ExIs(o, body, inFrame);
          InvokedSignal(o1, rest, inFrame);
        } else {
          InvokedSignal(o, body, inFrame);
          AfterUse(o1, rest, inFrame);
        }
      }
    case Then(Invoke(throws), rest) => AfterUse(Invocation(o, throws), rest, inFrame);
  }

  lemma {:induction false} LaterSignalsAre(o: Outcome, s: Script)
    requires Underway(o, false) && o.handler.Held? && o.callback
    ensures RunBody(o, s, false).o.sent == LaterSignals(s, o.ex)
    decreases s
  {
    match s
    case Done =>
    case Then(Throw, _) =>
    case Then(Nested(body), rest) =>
      var o1 := RunFrame(o, body, true);
      ExactlyLate(o, body, true);
      ThrewIs(o, body, true);
      if FirstUse(body, true).Invokes? {
        InvokedSignal(o, body, true);
        AfterUse(o1, rest, false);
      } else {
        ExIs(o, body, true);
        if FirstUse(body, true).Unused? {
          LaterSignalsAre(o1, rest);
        } else {
          AfterUse(o1, rest, false);
        }
      }
    case Then(Emit(body), rest) =>
      var o1 := Emitted(o, body, false);
      ExactlyLate(o, body, false);
      if FirstUse(body, true).Unused? {
        ExIs(o, body, false);
        LaterSignalsAre(o1, rest);
      } else {
        LaterSignalsAre(o, body);
        AfterUse(o1, rest, false);
      }
    case Then(Invoke(throws), rest) => AfterUse(Invocation(o, throws), rest, false);
    case Then(Drop, rest) => AfterUse(Abandon(o.(handler := Dropped)), rest, false);
  }

  lemma StartSignals(initiation: Script, onStop: Script)
    ensures var o := RunStart(initiation, onStop);
      if o.handler.Held? then o.ex == (Records(initiation, false) || Throws(initiation) || Records(onStop, false))
      else o.sent == Signals(initiation, onStop, Done)
  {
    ExactlyLate(INITIALLY, initiation, true);
    ThrewIs(INITIALLY, initiation, true);
    var left := RunBody(INITIALLY, initiation, true);
    if FirstUse(initiation, false).Invokes? {
      InvokedSignal(INITIALLY, initiation, true);
    } else {
      ExIs(INITIALLY, initiation, true);
      var o := left.o.(ex := left.o.ex || left.threw);
      ExactlyLate(o, onStop, true);
      if o.handler.Held? && FirstUse(onStop, false).Invokes? {
        InvokedSignal(o, onStop, true);
      } else {
        ExIs(o, onStop, true);
      }
    }
  }

  /** What a life sends is what its scripts say. */
  lemma SentBySignals(initiation: Script, onStop: Script, later: Script)
    ensures Life(initiation, onStop, later).sent == Signals(initiation, onStop, later)
  {
    StartIs(initiation, onStop);
    StartSignals(initiation, onStop);
    var o := RunStart(initiation, onStop);
    if o.handler.Held? {
      LaterSignalsAre(o, later);
    } else {
      AfterUse(o, later, false);
    }
  }

  /** The plain cases: a call, a call whose arguments cannot be converted, no call, and exceptions before either. */
  lemma PlainLives()
    ensures Life(Done, Done, Then(Invoke(false), Done)).sent == [Value]
    ensures Life(Done, Done, Then(Invoke(true), Done)).sent == [Error]
    ensures Life(Done, Done, Then(Drop, Done)).sent == [Stopped]
    ensures Life(Then(Throw, Done), Done, Then(Invoke(false), Done)).sent == [Error]
    ensures Life(Then(Drop, Then(Throw, Done)), Done, Done).sent == [Error]
    ensures Life(Done, Done, Then(Nested(Then(Throw, Done)), Then(Drop, Done))).sent == [Error]
  {
    SentBySignals(Done, Done, Then(Invoke(false), Done));
    SentBySignals(Done, Done, Then(Invoke(true), Done));
    SentBySignals(Done, Done, Then(Drop, Done));
    SentBySignals(Then(Throw, Done), Done, Then(Invoke(false), Done));
    SentBySignals(Then(Drop, Then(Throw, Done)), Done, Done);
    SentBySignals(Done, Done, Then(Nested(Then(Throw, Done)), Then(Drop, Done)));
    hide Life;
  }

  /** An exception that escapes a frame after the invocation: the frame uses the operation again. */
  lemma ThrowAfterInvoke()
    ensures !RunStart(Then(Invoke(false), Then(Throw, Done)), Done).clean
  {
  }

  /** A stop request whose emission invokes the handler: the lock guard around it uses the operation again. */
  lemma EmissionInvokes()
    ensures !Life(Done, Done, Then(Emit(Then(Invoke(false), Done)), Done)).clean
  {
  }
}
