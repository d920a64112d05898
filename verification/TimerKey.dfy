/** The deadline of a timed operation, ordered by time point and then by submission number. */
module TimerKey {

  datatype When = When(timePoint: int, counter: nat)

  /** The order the timer heap sorts by. */
  predicate Less(a: When, b: When) {
    a.timePoint < b.timePoint || (!(b.timePoint < a.timePoint) && a.counter < b.counter)
  }

  /** `a` may stand above `b` in the heap. */
  predicate Le(a: When, b: When) {
    !Less(b, a)
  }

  /** `Less` is a strict total order, so two keys never tie unless they are equal. */
  lemma LessIsStrictTotalOrder(a: When, b: When, c: When)
    ensures !Less(a, a)
    ensures Less(a, b) || Less(b, a) <==> a != b
    ensures !(Less(a, b) && Less(b, a))
    ensures Less(a, b) && Less(b, c) ==> Less(a, c)
  {
  }
}
