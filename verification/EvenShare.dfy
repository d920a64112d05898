/** How the thread pool divides `n` items among `size` agents. */
module EvenShare {

  /** The half-open range of items of one agent. */
  datatype Range = Range(begin: nat, end: nat)

  /** Where the share of `rank` begins when `big` agents get `average + 1` items each and the others `average`. */
  function Begin(average: nat, big: nat, rank: nat): nat {
    if rank < big then (average + 1) * rank else (average + 1) * big + (rank - big) * average
  }

  function Share(n: nat, rank: nat, size: nat): Range
    requires rank < size
  {
    var average, big := n / size, n % size;
    var begin := Begin(average, big, rank);
    Range(begin, begin + if rank < big then average + 1 else average)
  }

  lemma OneMore(a: nat, b: nat)
    ensures a * (b + 1) == a * b + a
    ensures (b + 1) * a == b * a + a
  {
  }

  lemma NextBegin(average: nat, big: nat, rank: nat)
    ensures Begin(average, big, rank + 1) == Begin(average, big, rank) + if rank < big then average + 1 else average
  {
    if rank < big {
      OneMore(average + 1, rank);
    } else {
      OneMore(average, rank - big);
    }
  }

  lemma LastBegin(average: nat, big: nat, size: nat)
    requires big < size
    ensures Begin(average, big, size) == size * average + big
  {
    assert (average + 1) * big == average * big + big;
    assert (size - big) * average == size * average - big * average;
  }

  lemma Divided(n: nat, size: nat)
    requires size > 0
    ensures n == size * (n / size) + n % size && n % size < size
  {
  }

  /** The ranges follow one another without gap or overlap, from 0 to `n`. */
  lemma SharesAreAdjacent(n: nat, rank: nat, size: nat)
    requires rank < size
    ensures Share(n, rank, size).begin <= Share(n, rank, size).end
    ensures rank == 0 ==> Share(n, rank, size).begin == 0
    ensures rank + 1 < size ==> Share(n, rank, size).end == Share(n, rank + 1, size).begin
    ensures rank + 1 == size ==> Share(n, rank, size).end == n
  {
    assert Begin(n / size, n % size, 0) == 0;
    hide Begin;
    Divided(n, size);
    NextBegin(n / size, n % size, rank);
    LastBegin(n / size, n % size, size);
  }

  /** Any two agents get numbers of items that differ by at most one. */
  lemma SharesAreEven(n: nat, a: nat, b: nat, size: nat)
    requires a < size && b < size
    ensures var x, y := Share(n, a, size), Share(n, b, size); -1 <= (x.end - x.begin) - (y.end - y.begin) <= 1
  {
    hide Begin;
  }

  lemma {:induction false} SharesAreOrdered(n: nat, a: nat, b: nat, size: nat)
    requires a < b < size
    ensures Share(n, a, size).end <= Share(n, b, size).begin
  {
    hide Share;
    SharesAreAdjacent(n, b - 1, size);
    if a < b - 1 {
      SharesAreOrdered(n, a, b - 1, size);
    }
  }

  predicate InShare(n: nat, item: nat, rank: nat, size: nat)
    requires rank < size
  {
    Share(n, rank, size).begin <= item < Share(n, rank, size).end
  }

  /** Every item belongs to exactly one agent. */
  lemma SharesPartition(n: nat, item: nat, size: nat) returns (rank: nat)
    requires item < n && size > 0
    ensures rank < size && InShare(n, item, rank, size)
    ensures forall other | 0 <= other < size && other != rank :: !InShare(n, item, other, size)
  {
    hide Share;
    SharesAreAdjacent(n, size - 1, size);
    rank := FindShare(n, item, size, size - 1);
    forall other | 0 <= other < size && other != rank
      ensures !InShare(n, item, other, size)
    {
      if other < rank {
        SharesAreOrdered(n, other, rank, size);
      } else {
        SharesAreOrdered(n, rank, other, size);
      }
    }
  }

  lemma {:induction false} FindShare(n: nat, item: nat, size: nat, last: nat) returns (rank: nat)
    requires last < size && item < Share(n, last, size).end
    ensures rank < size && InShare(n, item, rank, size)
  {
    hide Share;
    SharesAreAdjacent(n, last, size);
    if item >= Share(n, last, size).begin {
      rank := last;
    } else {
      assert last > 0 by { SharesAreAdjacent(n, 0, size); }
      SharesAreAdjacent(n, last - 1, size);
      rank := FindShare(n, item, size, last - 1);
    }
  }
}
