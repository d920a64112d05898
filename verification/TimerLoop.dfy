/**
 What the run loop of the timed context does with its heap: it stamps a timer with the next submission
 number when it takes the schedule command, and it expires all due tasks in one batch.
 */
module TimerLoop {
  import opened TimerKey
  import opened HeapShapes
  import opened IntrusiveHeaps

  /** `t` fires strictly after everything in `done`. */
  ghost predicate AllBefore(done: seq<Node>, t: When)
    reads done`key
  {
    forall i :: 0 <= i < |done| ==> Less(done[i].key, t)
  }

  ghost predicate InFiringOrder(done: seq<Node>)
    reads done`key
  {
    forall i, j :: 0 <= i < j < |done| ==> Less(done[i].key, done[j].key)
  }

  class Context {
    const heap: Heap
    var submissionCounter: nat

    /** No two queued tasks have the same submission number, and the next number is new. */
    ghost predicate Stamped()
      reads this, heap, heap.Nodes()`key
    {
      && (forall x | x in heap.Nodes() :: x.key.counter < submissionCounter)
      && (forall x, y | x in heap.Nodes() && y in heap.Nodes() && x != y :: x.key.counter != y.key.counter)
    }

    ghost predicate Valid()
      reads this, heap, heap.slots
    {
      heap.Valid() && Stamped()
    }

    constructor ()
      ensures Valid() && fresh(heap) && heap.Nodes() == {} && submissionCounter == 1
    {
      heap := new Heap();
      submissionCounter := 1;
    }

    /** A schedule command is taken from the queue. */
    method TakeSchedule(task: Node, timePoint: int)
      requires Valid() && task !in heap.Nodes()
      modifies this`submissionCounter, heap
      modifies heap.Nodes()`prev, heap.Nodes()`left, heap.Nodes()`right, heap.Nodes()`slot
      modifies task
      ensures Valid()
      ensures heap.Nodes() == old(heap.Nodes()) + {task}
      ensures task.key.timePoint == timePoint
      ensures forall x | x in old(heap.Nodes()) :: x.key == old(x.key) && x.key.counter < task.key.counter
    {
      task.key := When(timePoint, submissionCounter);
      submissionCounter := submissionCounter + 1;
      heap.Insert(task);
    }

    /** A stop command is taken: the target is removed if its timer is still pending. */
    method TakeStop(target: Node) returns (wasPending: bool)
      requires Valid() && (target in heap.Nodes() || target.prev == null)
      modifies heap, heap.Nodes()`prev, heap.Nodes()`left, heap.Nodes()`right, heap.Nodes()`slot
      ensures Valid()
      ensures wasPending <==> target in old(heap.Nodes())
      ensures heap.Nodes() == old(heap.Nodes()) - {target}
      ensures target.prev == null
    {
      wasPending := heap.Erase(target);
    }

    /** The state of a batch: `done` has been expired so far out of `all`. */
    ghost predicate Batch(done: seq<Node>, all: set<Node>, now: int)
      reads heap, heap.Nodes()`key, done, all
    {
      && heap.Nodes() <= all
      && (forall x | x in all :: x in done <==> x !in heap.Nodes())
      && (forall x | x in done :: x in all && x.key.timePoint <= now && x.prev == null)
      && InFiringOrder(done)
      && (forall x | x in heap.Nodes() :: AllBefore(done, x.key))
    }

    lemma BatchGrows(done: seq<Node>, next: Node)
      requires Stamped() && next in heap.Nodes() && InFiringOrder(done)
      requires forall x | x in heap.Nodes() :: AllBefore(done, x.key) && Le(next.key, x.key)
      ensures InFiringOrder(done + [next])
      ensures forall x | x in heap.Nodes() && x != next :: AllBefore(done + [next], x.key)
    {
      forall x | x in heap.Nodes() && x != next ensures AllBefore(done + [next], x.key) {
        assert Le(next.key, x.key) && next.key.counter != x.key.counter;
      }
    }

    /** One round of the expiry loop. */
    method FireFront(done: seq<Node>, ghost all: set<Node>, now: int) returns (op: Node)
      requires Valid() && heap.root != null && heap.root.key.timePoint <= now && Batch(done, all, now)
      modifies heap, heap.Nodes()`prev, heap.Nodes()`left, heap.Nodes()`right, heap.Nodes()`slot
      ensures Valid() && Batch(done + [op], all, now)
      ensures heap.size < old(heap.size) && heap.Nodes() <= old(heap.Nodes())
    {
      hide Tree, InFiringOrder, AllBefore;
      heap.FrontIsLeast();
      op := heap.root;
      BatchGrows(done, op);
      ghost var more := done + [op];
      heap.PopFront();
      assert InFiringOrder(more) && forall x | x in heap.Nodes() :: AllBefore(more, x.key);
    }

    /**
     Expires every task that is due: in the order of their deadlines, and those with equal deadlines in the
     order in which their commands were taken. A task whose deadline is later than `now` stays.
     */
    method Expire(now: int) returns (done: seq<Node>)
      requires Valid()
      modifies heap, heap.Nodes()`prev, heap.Nodes()`left, heap.Nodes()`right, heap.Nodes()`slot
      ensures Valid()
      ensures forall x :: x in done <==> x in old(heap.Nodes()) && x.key.timePoint <= now
      ensures heap.Nodes() == set x | x in old(heap.Nodes()) && now < x.key.timePoint
      ensures InFiringOrder(done)
      ensures forall x | x in done :: x.prev == null
    {
      done := [];
      ghost var all := heap.Nodes();
      assert Batch(done, all, now);
      hide Tree, InFiringOrder, AllBefore, Stamped;
      while heap.root != null && heap.root.key.timePoint <= now
        invariant Valid() && Batch(done, all, now)
        invariant heap.Nodes() <= all
        decreases heap.size
      {
        var op := FireFront(done, all, now);
        done := done + [op];
      }
      if heap.root != null {
        heap.FrontIsLeast();
        assert forall x | x in heap.Nodes() :: now < x.key.timePoint;
      } else {
        heap.EmptyWithoutRoot();
      }
    }
  }
}
