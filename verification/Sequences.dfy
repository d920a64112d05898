/** Removing one element from a sequence. */
module Sequences {

  ghost predicate Distinct<T>(list: seq<T>) {
    forall j, k :: 0 <= j < k < |list| ==> list[j] != list[k]
  }

  function Without<T(==)>(list: seq<T>, x: T): seq<T> {
    if list == [] then [] else if list[0] == x then list[1..] else [list[0]] + Without(list[1..], x)
  }

  lemma {:induction false} WithoutIs<T>(list: seq<T>, x: T) returns (k: nat)
    requires x in list
    ensures k < |list| && list[k] == x && Without(list, x) == list[..k] + list[k + 1..]
  {
    if list[0] == x {
      k := 0;
    } else {
      var j := WithoutIs(list[1..], x);
      k := j + 1;
      assert list[1..][j + 1..] == list[k + 1..] && [list[0]] + list[1..][..j] == list[..k];
    }
  }

  lemma WithoutMembers<T>(list: seq<T>, x: T)
    requires Distinct(list) && x in list
    ensures forall y :: y in Without(list, x) <==> y in list && y != x
  {
    var k := WithoutIs(list, x);
    var rest := Without(list, x);
    assert forall j :: 0 <= j < |rest| ==> rest[j] == list[if j < k then j else j + 1];
    assert forall j :: 0 <= j < |list| && j != k ==> list[j] == rest[if j < k then j else j - 1];
  }
}
