/** `repeat_n`, each repetition of its child scheduled on the trampoline. */
module RepeatN {
  import Trampoline

  /** The depth of a default trampoline scheduler. */
  const DEFAULT_DEPTH := 16

  datatype Signal = Value | Error | Stopped

  /** The scheduled operation of the repetition that begins while the counter is `count`. */
  function Repetition(count: nat): Trampoline.Tree {
    Trampoline.Node(count, Trampoline.Empty)
  }

  /** The counter at the beginning of each repetition, from `total` down to just above `count`. */
  function CountDown(total: nat, count: nat): seq<nat>
    requires count <= total
    decreases total - count
  {
    if count == total then [] else CountDown(total, count + 1) + [count + 1]
  }

  lemma {:induction false} CountDownAt(total: nat, count: nat, k: nat)
    requires count + k < total
    ensures |CountDown(total, count)| == total - count && CountDown(total, count)[k] == total - k
    decreases total - count
  {
    if count + 1 < total {
      CountDownAt(total, count + 1, if count + 1 + k < total then k else 0);
    } else {
      assert CountDown(total, total) == [];
    }
  }

  predicate Succeeded(results: seq<Signal>) {
    forall k :: 0 <= k < |results| ==> results[k].Value?
  }

  /** What is sent once the last of the children that have run has completed with the last of `results`. */
  ghost predicate Ended(total: nat, results: seq<Signal>, sent: seq<Signal>) {
    && 0 < |results| <= total
    && var last := |results| - 1;
    && sent == [results[last]] && Succeeded(results[..last])
    && (results[last].Value? ==> |results| == total)
  }

  class Operation {
    const total: nat
    var count: nat
    var pending: bool
    var results: seq<Signal>
    var sent: seq<Signal>
    ghost var begun: seq<nat>

    constructor (count: nat)
      ensures total == this.count == count && !pending && results == [] && sent == [] && begun == []
    {
      total, this.count, pending, results, sent, begun := count, count, false, [], [], [];
    }

    /** All children so far have succeeded, the repetitions have begun in their order, and there are more to come. */
    ghost predicate InProgress()
      reads this
    {
      && 0 < count == total - |results| && Succeeded(results) && sent == []
      && begun == CountDown(total, if pending then count - 1 else count)
    }

    ghost predicate Finished()
      reads this
    {
      !pending && Ended(total, results, sent) && begun == CountDown(total, total - |results|)
    }

    /** A repetition may begin. The trampoline has executed those since the counter was at `from`. */
    ghost predicate Ready(frame: Trampoline.Frame, from: nat)
      reads this, frame, frame.deferred
    {
      frame.Valid() && InProgress() && !pending && count <= from && frame.ran == CountDown(from, count)
    }

    /** One operation waits in the list for its repetition, or a child has yet to complete, or everything is over. */
    ghost predicate Valid(frame: Trampoline.Frame, from: nat)
      reads this, frame, frame.deferred
    {
      if sent == [] && !pending then Ready(frame, from) && |frame.deferred| == 1
      else frame.Valid() && frame.deferred == [] && if pending then InProgress() else Finished()
    }

    /** The trampoline executes the scheduled operation: the child is started, and completes at once or later. */
    method Execute(frame: Trampoline.Frame, ghost from: nat)
      requires Ready(frame, from) && frame.nesting < frame.depth && frame.deferred == []
      modifies this, frame
      ensures Valid(frame, from) && (pending || |results| > old(|results|)) && |results| >= old(|results|)
      ensures frame.nesting == old(frame.nesting) && fresh(frame.deferred)
      decreases count, 1
    {
      frame.Begin(Repetition(count));
      begun := begun + [count];
      var later: bool := *;
      if later {
        pending := true;
      } else {
        var result := Complete();
        hide CountDown;
        if result.Value? {
          Repeat(frame, from);
        } else {
          sent := sent + [result];
        }
      }
      frame.End();
    }

    /** A child completes with any signal. */
    method Complete() returns (result: Signal)
      requires Succeeded(results)
      modifies `results
      ensures results == old(results) + [result] && results[..|results| - 1] == old(results)
      ensures result.Value? ==> Succeeded(results)
    {
      result := *;
      results := results + [result];
    }

    /** The child has succeeded, and the counter drops: zero completes the receiver. */
    method LowerCount() returns (again: bool)
      requires 0 < count == total - |results| + 1 && results != [] && Succeeded(results) && sent == [] && !pending
      requires begun == CountDown(total, count - 1)
      modifies `count, `sent
      ensures count == old(count) - 1 && again == (count > 0)
      ensures if again then InProgress() else Finished()
    {
      count := count - 1;
      again := count > 0;
      if !again {
        sent := sent + [Value];
      }
    }

    /** Inside the execution, the next repetition is started inline or deferred. */
    method Repeat(frame: Trampoline.Frame, ghost from: nat)
      requires frame.Valid() && 0 < frame.nesting && frame.deferred == []
      requires 0 < count == total - |results| + 1 && results != [] && Succeeded(results) && sent == [] && !pending
      requires begun == CountDown(total, count - 1) && count <= from && frame.ran == CountDown(from, count - 1)
      modifies this, frame
      ensures Valid(frame, from) && |results| >= old(|results|)
      ensures frame.nesting == old(frame.nesting) && fresh(frame.deferred)
      decreases count, 0
    {
      var again := LowerCount();
      if again {
        var op := new Trampoline.Operation(Repetition(count));
        var smallStack: bool := *;
        var inline := frame.TryInline(smallStack);
        if inline {
          Execute(frame, from);
        } else {
          frame.Defer(op);
        }
      }
    }

    /** The scheduled operation is started on a thread without a frame. */
    method StartAfresh() returns (ghost frame: Trampoline.Frame)
      requires InProgress() && !pending
      modifies this
      ensures if pending then InProgress() else Finished()
      ensures pending || |results| > old(|results|)
      ensures |results| >= old(|results|)
      ensures frame.deferred == [] && frame.deepest <= DEFAULT_DEPTH
    {
      ghost var from := count;
      var f := new Trampoline.Frame(DEFAULT_DEPTH);
      Execute(f, from);
      while f.head != null
        invariant Valid(f, from) && f.nesting == 0 && fresh(f.deferred) && f.maxDepth == DEFAULT_DEPTH
        invariant |results| >= old(|results|) && (pending || |results| > old(|results|))
        invariant sent == [] ==> |results| < total
        decreases total - |results|, !pending
      {
        var op := f.Resume();
        Execute(f, from);
      }
      frame := f;
    }

    /** `start()` on a thread without a frame. */
    method Start()
      requires count == total && !pending && results == [] && sent == [] && begun == []
      modifies this
      ensures if total == 0 then results == [] && sent == [Value] && begun == [] && !pending
              else if pending then InProgress() else Finished()
    {
      if count == 0 {
        sent := sent + [Value];
      } else {
        ghost var frame := StartAfresh();
      }
    }

    /** A child that was left pending completes, on a thread without a frame. */
    method CompleteLater()
      requires InProgress() && pending
      modifies this
      ensures if pending then InProgress() else Finished()
      ensures |results| > old(|results|)
    {
      pending := false;
      var result := Complete();
      if result.Value? {
        var again := LowerCount();
        if again {
          ghost var frame := StartAfresh();
        }
      } else {
        sent := sent + [result];
      }
    }

    /**
     From the start on, if every child completes at once or later: the receiver gets one signal, the one of the last
     child that has run. That is the first one that did not succeed, or the one that is number `total`. Without any
     child it gets a value. The repetitions have begun in their order.
     */
    method Run()
      requires count == total && !pending && results == [] && sent == [] && begun == []
      modifies this
      ensures if total == 0 then results == [] && sent == [Value] else Ended(total, results, sent)
      ensures begun == CountDown(total, total - |results|)
    {
      Start();
      while pending
        invariant total > 0 ==> if pending then InProgress() else Finished()
        invariant total == 0 ==> !pending && results == [] && sent == [Value] && begun == []
        decreases total - |results|
      {
        CompleteLater();
      }
    }
  }
}
