/** The linked stack of executor frames with their locks, which achieves what `FrameSpec` specifies. */
module AsioFrames {
  import opened FrameSpec
  import opened Sequences

  /** A frame on the call stack; it owns its lock until it is left or released. */
  class Frame {
    var locked: bool
    var prev: Frame?

    constructor (prev: Frame?)
      ensures locked && this.prev == prev
    {
      locked, this.prev := true, prev;
    }
  }

  /** A frame in its place, the outermost first. */
  ghost predicate InPlace(stack: seq<Frame>, k: nat)
    requires k < |stack|
    reads stack[k]
  {
    stack[k].locked && stack[k].prev == if k == 0 then null else stack[k - 1]
  }

  class Operation {
    var frames: Frame?
    var locks: nat
    var handler: Handler
    var abandoned: bool
    var ex: bool
    var callback: bool
    var sent: seq<Signal>
    ghost var clean: bool
    ghost var stack: seq<Frame>
    ghost var guards: nat

    constructor ()
      ensures Valid() && State() == INITIALLY && stack == [] && guards == 0
    {
      frames, locks, handler, abandoned, ex, callback := null, 0, Held, false, false, false;
      sent, clean, stack, guards := [], true, [], 0;
    }

    ghost function State(): Outcome
      reads this
    {
      Outcome(handler, ex, sent, clean, callback)
    }

    /** The frames are linked from the innermost outwards. */
    ghost predicate StackOk()
      reads `frames, `stack, stack
    {
      && Distinct(stack)
      && frames == (if stack == [] then null else stack[|stack| - 1])
      && forall k :: 0 <= k < |stack| ==> InPlace(stack, k)
    }

    /** Each frame and each emission holds the recursive mutex once; after the completion no frame is left. */
    ghost predicate Valid()
      reads this, stack
    {
      && StackOk()
      && locks == |stack| + guards
      && (abandoned <==> handler.Dropped?)
      && (sent != [] ==> stack == [] && !callback && !handler.Held?)
    }

    lemma TopIsLocked()
      requires Valid()
      ensures stack != [] ==> stack[|stack| - 1].locked
    {
      if stack != [] {
        assert InPlace(stack, |stack| - 1);
      }
    }

    /** A completion: no frame holds the mutex, and the stop callback is gone. */
    method Send(signal: Signal)
      requires locks == guards && !callback
      modifies `sent
      ensures sent == old(sent) + [signal]
    {
      sent := sent + [signal];
    }

    method Enter() returns (frame: Frame)
      requires Valid() && sent == []
      modifies `frames, `locks, `stack
      ensures Valid() && fresh(frame) && stack == old(stack) + [frame] && frame.locked
    {
      frame := new Frame(frames);
      locks := locks + 1;
      frames := frame;
      ghost var was := stack;
      stack := stack + [frame];
      forall k | 0 <= k < |stack|
        ensures InPlace(stack, k)
      {
        assert k < |was| ==> old(InPlace(was, k));
      }
    }

    /** The destructor of a frame. */
    method Leave(frame: Frame)
      requires Valid() && (if frame.locked then stack != [] && stack[|stack| - 1] == frame && sent == [] else true)
      modifies this, frame
      ensures Valid() && guards == old(guards)
      ensures !old(frame.locked) ==> unchanged(this)
      ensures old(frame.locked) ==> stack == old(stack[..|stack| - 1])
      ensures old(frame.locked) ==>
                State() == if old(|stack|) == 1 && old(handler.Dropped?) then Abandon(old(State())) else old(State())
    {
      if frame.locked {
        ghost var was := stack;
        assert InPlace(was, |was| - 1);
        frames := frame.prev;
        stack := stack[..|stack| - 1];
        locks := locks - 1;
        frame.locked := false;
        forall k | 0 <= k < |stack|
          ensures InPlace(stack, k)
        {
          assert old(InPlace(was, k));
        }
        if frames == null && abandoned {
          callback := false;
          Send(if ex then Error else Stopped);
        }
      }
    }

    /** `release()` on the innermost frame: all frames give up their locks and are unlinked. */
    method Release()
      requires StackOk() && stack != [] && locks >= |stack|
      modifies `frames, `locks, `stack, stack
      ensures frames == null && stack == [] && locks == old(locks - |stack|)
      ensures forall f | f in old(stack) :: !f.locked
    {
      var ptr := frames;
      ghost var n: nat := |stack|;
      assert ptr == stack[n - 1];
      while ptr != null
        invariant n <= |stack| && (forall k :: 0 <= k < n ==> InPlace(stack, k))
        invariant ptr == frames == (if n == 0 then null else stack[n - 1])
        invariant forall k :: n <= k < |stack| ==> !stack[k].locked
        invariant stack == old(stack) && locks == old(locks) - (|stack| - n)
        decreases n
      {
        assert InPlace(stack, n - 1);
        assert ptr.locked && frames == ptr;
        ptr := ptr.prev;
        frames.locked := false;
        locks := locks - 1;
        frames.prev := null;
        frames := ptr;
        n := n - 1;
        forall k | 0 <= k < n
          ensures InPlace(stack, k)
        {
          assert stack[k] != stack[n];
        }
      }
      stack := [];
    }

    /** The handler is called: all frames are released, and then the receiver is completed. */
    method InvokeHandler(conversionThrows: bool)
      requires Valid() && handler.Held? && sent == []
      modifies this, stack
      ensures Valid() && stack == [] && guards == old(guards)
      ensures State() == Invocation(old(State()), conversionThrows)
      ensures forall f | f in old(stack) :: !f.locked
    {
      locks := locks + 1;
      if frames != null {
        Release();
      }
      assert frames == null && stack == [];
      locks := locks - 1;
      callback := false;
      handler := Invoked;
      if ex {
        Send(Error);
      } else if conversionThrows {
        Send(Error);
      } else {
        Send(Value);
      }
    }

    /** The handler is destroyed without having been called. */
    method DropHandler()
      requires Valid() && handler.Held? && sent == []
      modifies this
      ensures Valid() && stack == old(stack) && guards == old(guards)
      ensures var o := old(State()).(handler := Dropped); State() == if old(stack) == [] then Abandon(o) else o
    {
      var frame := Enter();
      abandoned, handler := true, Dropped;
      assert stack[..|stack| - 1] == old(stack);
      Leave(frame);
    }

    /** `run_`: a frame around a script; nothing is left to be done once the operation has been completed. */
    method Run(body: Script, ghost outermost: bool)
      requires Valid() && (sent == [] ==> (outermost <==> stack == []))
      modifies this, stack
      ensures Valid() && State() == RunFrame(old(State()), body, outermost) && guards == old(guards)
      ensures sent == old(sent) ==> stack == old(stack)
      ensures sent != old(sent) ==> old(sent) == [] && stack == [] && forall f | f in old(stack) :: !f.locked
      decreases body, 1
    {
      if sent != [] {
        clean := false;
        return;
      }
      hide StackOk, RunBody;
      var frame := Enter();
      var threw := RunScript(body, true);
      TopIsLocked();
      if threw {
        NoteException(frame);
      }
      Leave(frame);
    }

    /** The exception handler of a frame, which must not be reached after a release. */
    method NoteException(frame: Frame)
      requires Valid() && frame.locked == (sent == [])
      modifies `ex, `clean
      ensures Valid()
      ensures State() == if sent == [] then old(State()).(ex := true) else old(State()).(clean := false)
    {
      if frame.locked {
        if !ex {
          ex := true;
        }
      } else {
        clean := false;
      }
    }

    method RunScript(s: Script, ghost inFrame: bool) returns (threw: bool)
      requires Valid() && (sent == [] ==> (inFrame <==> stack != []))
      modifies this, stack
      ensures Valid() && Left(State(), threw) == RunBody(old(State()), s, inFrame) && guards == old(guards)
      ensures sent == old(sent) ==> stack == old(stack)
      ensures sent != old(sent) ==> old(sent) == [] && stack == [] && forall f | f in old(stack) :: !f.locked
      decreases s, 0
    {
      match s
      case Done => threw := false;
      case Then(Throw, _) => threw := true;
      case Then(Nested(body), rest) =>
        Run(body, !inFrame);
        threw := RunScript(rest, inFrame);
      case Then(Emit(body), rest) =>
        if callback {
          RequestStop(body, inFrame);
        }
        threw := RunScript(rest, inFrame);
      case Then(Invoke(throws), rest) =>
        if handler.Held? {
          InvokeHandler(throws);
        }
        threw := RunScript(rest, inFrame);
      case Then(Drop, rest) =>
        if handler.Held? {
          DropHandler();
        }
        threw := RunScript(rest, inFrame);
    }

    /** The stop callback: the signal is emitted under a lock guard. */
    method RequestStop(body: Script, ghost inFrame: bool)
      requires Valid() && (sent == [] ==> (inFrame <==> stack != []))
      modifies this, stack
      ensures Valid() && State() == Emitted(old(State()), body, inFrame) && guards == old(guards)
      ensures sent == old(sent) ==> stack == old(stack)
      ensures sent != old(sent) ==> old(sent) == [] && stack == [] && forall f | f in old(stack) :: !f.locked
      decreases body, 1
    {
      locks, guards := locks + 1, guards + 1;
      hide StackOk, RunBody;
      var threw := RunScript(body, inFrame);
      locks, guards := locks - 1, guards - 1;
      if sent != [] {
        clean := false;
      }
    }

    /** The stop callback is constructed inside the frame of `start()`. */
    method InstallCallback(onStop: Script)
      requires Valid() && sent == [] && stack != [] && !callback
      modifies this, stack
      ensures Valid() && State() == Install(old(State()), onStop) && guards == old(guards)
      ensures sent == [] ==> stack == old(stack)
      ensures sent != [] ==> stack == [] && forall f | f in old(stack) :: !f.locked
    {
      hide StackOk, RunBody, Emitted;
      RequestStop(onStop, true);
      callback := sent == [];
    }

    /** `start()`: the initiation runs in the first frame; a stop callback is installed if that frame is still there. */
    method Start(initiation: Script, onStop: Script)
      requires Valid() && State() == INITIALLY && stack == []
      modifies this
      ensures Valid() && State() == RunStart(initiation, onStop) && stack == [] && guards == old(guards)
    {
      hide StackOk, RunBody, Install;
      var frame := Enter();
      var threw := RunScript(initiation, true);
      TopIsLocked();
      if threw {
        NoteException(frame);
      }
      ExactlyLate(INITIALLY, initiation, true);
      if frame.locked {
        InstallCallback(onStop);
        TopIsLocked();
      }
      Leave(frame);
    }
  }

  /** An operation from its start on: what is sent to the receiver is what the scripts say. */
  method Live(initiation: Script, onStop: Script, later: Script) returns (sent: seq<Signal>)
    ensures sent == Signals(initiation, onStop, later)
    ensures |sent| == if Life(initiation, onStop, later).handler.Held? then 0 else 1
  {
    var op := new Operation();
    op.Start(initiation, onStop);
    var threw := op.RunScript(later, false);
    sent := op.sent;
    assert op.State() == Life(initiation, onStop, later);
    OneSignalPerLife(initiation, onStop, later);
    SentBySignals(initiation, onStop, later);
  }
}
