/** What the Sudoku search is to count: the valid completions of a board. */
module SudokuBoard {

  const DIM := 9
  const SIZE := 81

  /** The solved elements of a board, row by row; zero stands for an empty cell. */
  type Board = b: seq<nat> | |b| == SIZE witness seq(SIZE, _ => 0)

  predicate SameUnit(r: nat, c: nat, row: nat, col: nat) {
    r == row || c == col || (r / 3 == row / 3 && c / 3 == col / 3)
  }

  /** Two different cells that share a row, a column or a block. */
  predicate Peers(i: nat, j: nat) {
    i != j && SameUnit(i / DIM, i % DIM, j / DIM, j % DIM)
  }

  ghost predicate Valid(b: Board) {
    forall i, j | 0 <= i < SIZE && 0 <= j < SIZE && Peers(i, j) && b[i] != 0 :: b[i] != b[j]
  }

  ghost predicate Full(b: Board) {
    forall i | 0 <= i < SIZE :: b[i] != 0
  }

  ghost predicate Blocked(b: Board, i: nat, p: nat) {
    exists j :: 0 <= j < SIZE && Peers(i, j) && b[j] == p
  }

  /** `c` fills the empty cells of `b`, and only those, with digits. */
  ghost predicate Extends(b: Board, c: Board) {
    forall i | 0 <= i < SIZE :: if b[i] != 0 then c[i] == b[i] else 1 <= c[i] <= DIM
  }

  // ----- the set of valid completions

  /** The valid completions, enumerated cell by cell from `i` on. */
  ghost function CompletionsFrom(b: Board, i: nat): set<Board>
    requires i <= SIZE
    decreases SIZE - i, DIM + 1
  {
    if i == SIZE then if Full(b) && Valid(b) then {b} else {}
    else if b[i] != 0 then CompletionsFrom(b, i + 1)
    else Choices(b, i, DIM)
  }

  ghost function Choices(b: Board, i: nat, v: nat): set<Board>
    requires i < SIZE && v <= DIM
    decreases SIZE - i, v
  {
    if v == 0 then {} else Choices(b, i, v - 1) + CompletionsFrom(b[i := v], i + 1)
  }

  ghost function Completions(b: Board): set<Board> {
    CompletionsFrom(b, 0)
  }

  lemma {:induction false} EnumeratedFrom(b: Board, i: nat, c: Board)
    requires i <= SIZE && forall j | 0 <= j < i :: b[j] != 0
    ensures c in CompletionsFrom(b, i) <==> Extends(b, c) && Valid(c)
    decreases SIZE - i, DIM + 1
  {
    if i == SIZE {
      assert Extends(b, c) <==> b == c;
    } else if b[i] != 0 {
      EnumeratedFrom(b, i + 1, c);
    } else {
      EnumeratedChoices(b, i, DIM, c);
    }
  }

  lemma {:induction false} EnumeratedChoices(b: Board, i: nat, v: nat, c: Board)
    requires i < SIZE && b[i] == 0 && v <= DIM && forall j | 0 <= j < i :: b[j] != 0
    ensures c in Choices(b, i, v) <==> Extends(b, c) && Valid(c) && c[i] <= v
    decreases SIZE - i, v
  {
    if v > 0 {
      EnumeratedChoices(b, i, v - 1, c);
      EnumeratedFrom(b[i := v], i + 1, c);
      ExtendsOne(b, i, v, c);
    }
  }

  lemma ExtendsOne(b: Board, i: nat, v: nat, c: Board)
    requires i < SIZE && b[i] == 0 && 1 <= v <= DIM
    ensures Extends(b[i := v], c) <==> Extends(b, c) && c[i] == v
  {
    var t := b[i := v];
    if Extends(t, c) {
      assert c[i] == t[i];
      forall j | 0 <= j < SIZE
        ensures if b[j] != 0 then c[j] == b[j] else 1 <= c[j] <= DIM
      {
        assert j != i ==> t[j] == b[j];
      }
    }
  }

  /** The set holds exactly the valid boards that extend the given one. */
  lemma CompletionsAre(b: Board, c: Board)
    ensures c in Completions(b) <==> Extends(b, c) && Valid(c)
  {
    EnumeratedFrom(b, 0, c);
  }

  /** A board with a conflict has no valid completion. */
  lemma ConflictMeansNone(b: Board)
    requires !Valid(b)
    ensures Completions(b) == {}
  {
    var i, j :| 0 <= i < SIZE && 0 <= j < SIZE && Peers(i, j) && b[i] != 0 && b[i] == b[j];
    forall c: Board
      ensures c !in Completions(b)
    {
      CompletionsAre(b, c);
      if Extends(b, c) {
        assert c[i] == b[i] && c[j] == b[j];
        assert !Valid(c);
      }
    }
  }

  /** A full board is its own and only completion, if it is valid. */
  lemma CompletionsOfFull(b: Board)
    requires Full(b)
    ensures Completions(b) == if Valid(b) then {b} else {}
  {
    forall c: Board
      ensures c in Completions(b) <==> c == b && Valid(b)
    {
      CompletionsAre(b, c);
      assert Extends(b, c) <==> b == c;
    }
  }

  /** In a completion, an empty cell holds a digit that no peer has. */
  lemma OnlyPotentials(b: Board, i: nat, c: Board)
    requires i < SIZE && b[i] == 0 && c in Completions(b)
    ensures 1 <= c[i] <= DIM && !Blocked(b, i, c[i])
  {
    CompletionsAre(b, c);
  }

  /** Filling in what every completion has there anyway loses none and adds none. */
  lemma ForcedCell(b: Board, i: nat, v: nat)
    requires i < SIZE && b[i] == 0 && 1 <= v <= DIM
    requires forall c | c in Completions(b) :: c[i] == v
    ensures Completions(b[i := v]) == Completions(b)
  {
    forall c: Board
      ensures c in Completions(b[i := v]) <==> c in Completions(b)
    {
      CompletionsAre(b, c);
      CompletionsAre(b[i := v], c);
      ExtendsOne(b, i, v, c);
    }
  }

  ghost function SumOfChoices(b: Board, i: nat, v: nat): nat
    requires i < SIZE
  {
    if v == 0 then 0 else SumOfChoices(b, i, v - 1) + |Completions(b[i := v])|
  }

  lemma {:induction false} SumIsCardinality(b: Board, i: nat, v: nat)
    requires i < SIZE && b[i] == 0 && v <= DIM
    ensures SumOfChoices(b, i, v) == |set c | c in Completions(b) && c[i] <= v|
  {
    var upTo := set c | c in Completions(b) && c[i] <= v;
    if v == 0 {
      forall c | c in Completions(b)
        ensures c[i] > 0
      {
        OnlyPotentials(b, i, c);
      }
      assert upTo == {};
    } else {
      SumIsCardinality(b, i, v - 1);
      var below := set c | c in Completions(b) && c[i] <= v - 1;
      forall c: Board
        ensures c in upTo <==> c in below || c in Completions(b[i := v])
        ensures !(c in below && c in Completions(b[i := v]))
      {
        CompletionsAre(b, c);
        CompletionsAre(b[i := v], c);
        ExtendsOne(b, i, v, c);
      }
      assert upTo == below + Completions(b[i := v]);
      assert below * Completions(b[i := v]) == {};
    }
  }

  /** Branching on any one empty cell splits the completions among the nine boards. */
  lemma BranchingSplits(b: Board, i: nat)
    requires i < SIZE && b[i] == 0
    ensures |Completions(b)| == SumOfChoices(b, i, DIM)
  {
    SumIsCardinality(b, i, DIM);
    forall c | c in Completions(b)
      ensures c[i] <= DIM
    {
      OnlyPotentials(b, i, c);
    }
    assert Completions(b) == set c | c in Completions(b) && c[i] <= DIM;
  }

  /** A digit that a peer has gives no completions. */
  lemma BlockedMeansNone(b: Board, i: nat, v: nat)
    requires i < SIZE && b[i] == 0 && v > 0 && Blocked(b, i, v)
    ensures Completions(b[i := v]) == {}
  {
    var j :| 0 <= j < SIZE && Peers(i, j) && b[j] == v;
    assert b[i := v][i] == b[i := v][j];
    ConflictMeansNone(b[i := v]);
  }

  /** A board that is valid stays so when an empty cell gets a digit that no peer has. */
  lemma UnblockedStaysValid(b: Board, i: nat, v: nat)
    requires i < SIZE && b[i] == 0 && Valid(b) && !Blocked(b, i, v)
    ensures Valid(b[i := v])
  {
    forall j | 0 <= j < SIZE && Peers(j, i)
      ensures b[j] != v
    {
      assert Peers(i, j);
    }
    assert forall j | 0 <= j < SIZE && Peers(i, j) :: b[j] != v;
  }

  // ----- what is left to fill in

  function EmptyFrom(b: Board, i: nat): nat
    requires i <= SIZE
    decreases SIZE - i
  {
    if i == SIZE then 0 else (if b[i] == 0 then 1 else 0) + EmptyFrom(b, i + 1)
  }

  function Empty(b: Board): nat {
    EmptyFrom(b, 0)
  }

  lemma {:induction false} EmptyMonotone(b: Board, c: Board, i: nat)
    requires i <= SIZE && forall j | i <= j < SIZE :: c[j] == 0 ==> b[j] == 0
    ensures EmptyFrom(c, i) <= EmptyFrom(b, i)
    ensures (exists j :: i <= j < SIZE && b[j] == 0 && c[j] != 0) ==> EmptyFrom(c, i) < EmptyFrom(b, i)
    decreases SIZE - i
  {
    if i < SIZE {
      EmptyMonotone(b, c, i + 1);
    }
  }
}
