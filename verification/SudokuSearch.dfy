/** The Sudoku search: constraint propagation on a board, and splitting into tasks. */
module SudokuSearch {
  import opened SudokuBoard

  datatype Element = Element(solved: nat, potentials: bv32)

  function SolvedElements(s: seq<Element>): Board
    requires |s| == SIZE
  {
    seq(SIZE, i requires 0 <= i < SIZE => s[i].solved)
  }

  predicate Holds(s: seq<Element>, row: nat, col: nat, p: nat)
    requires |s| == SIZE
  {
    row < DIM && col < DIM && s[row * DIM + col].solved == p
  }

  method InRow(b: array<Element>, row: nat, col: nat, p: nat) returns (found: bool)
    requires b.Length == SIZE && row < DIM
    ensures found <==> exists c :: 0 <= c < DIM && c != col && Holds(b[..], row, c, p)
  {
    for c := 0 to DIM
      invariant forall d :: 0 <= d < c && d != col ==> !Holds(b[..], row, d, p)
    {
      if c != col && b[row * DIM + c].solved == p {
        assert Holds(b[..], row, c, p);
        return true;
      }
    }
    return false;
  }

  method InCol(b: array<Element>, row: nat, col: nat, p: nat) returns (found: bool)
    requires b.Length == SIZE && col < DIM
    ensures found <==> exists r :: 0 <= r < DIM && r != row && Holds(b[..], r, col, p)
  {
    for r := 0 to DIM
      invariant forall q :: 0 <= q < r && q != row ==> !Holds(b[..], q, col, p)
    {
      if r != row && b[r * DIM + col].solved == p {
        assert Holds(b[..], r, col, p);
        return true;
      }
    }
    return false;
  }

  /** The cell is another one of the same block, and holds `p`. */
  predicate HoldsInBlock(s: seq<Element>, row: nat, col: nat, p: nat, r: nat, c: nat)
    requires |s| == SIZE
  {
    r / 3 == row / 3 && c / 3 == col / 3 && !(r == row && c == col) && Holds(s, r, c, p)
  }

  method InBlock(b: array<Element>, row: nat, col: nat, p: nat) returns (found: bool)
    requires b.Length == SIZE && row < DIM && col < DIM
    ensures found <==> exists r, c :: HoldsInBlock(b[..], row, col, p, r, c)
  {
    var bRow, bCol := row / 3 * 3, col / 3 * 3;
    for i := bRow to bRow + 3
      invariant forall r: nat, c: nat :: r < i ==> !HoldsInBlock(b[..], row, col, p, r, c)
    {
      for j := bCol to bCol + 3
        invariant forall c: nat :: c < j ==> !HoldsInBlock(b[..], row, col, p, i, c)
      {
        if !(i == row && j == col) && b[i * DIM + j].solved == p {
          assert HoldsInBlock(b[..], row, col, p, i, j);
          return true;
        }
      }
    }
    return false;
  }

  /** The three scans together look at exactly the peers of a cell. */
  lemma ScansFindPeers(s: seq<Element>, i: nat, p: nat)
    requires |s| == SIZE && i < SIZE
    ensures Blocked(SolvedElements(s), i, p) <==>
      || (exists c :: 0 <= c < DIM && c != i % DIM && Holds(s, i / DIM, c, p))
      || (exists r :: 0 <= r < DIM && r != i / DIM && Holds(s, r, i % DIM, p))
      || (exists r, c :: HoldsInBlock(s, i / DIM, i % DIM, p, r, c))
  {
    var row, col := i / DIM, i % DIM;
    if exists c :: 0 <= c < DIM && c != col && Holds(s, row, c, p) {
      var c :| 0 <= c < DIM && c != col && Holds(s, row, c, p);
      PeerBlocks(s, i, row, c, p);
    } else if exists r :: 0 <= r < DIM && r != row && Holds(s, r, col, p) {
      var r :| 0 <= r < DIM && r != row && Holds(s, r, col, p);
      PeerBlocks(s, i, r, col, p);
    } else if exists r, c :: HoldsInBlock(s, row, col, p, r, c) {
      var r, c :| HoldsInBlock(s, row, col, p, r, c);
      PeerBlocks(s, i, r, c, p);
    } else if Blocked(SolvedElements(s), i, p) {
      var j :| 0 <= j < SIZE && Peers(i, j) && SolvedElements(s)[j] == p;
      var r, c := j / DIM, j % DIM;
      assert Holds(s, r, c, p);
      assert row / 3 == r / 3 && col / 3 == c / 3 ==> HoldsInBlock(s, row, col, p, r, c);
    }
  }

  lemma PeerBlocks(s: seq<Element>, i: nat, r: nat, c: nat, p: nat)
    requires |s| == SIZE && i < SIZE && Holds(s, r, c, p)
    requires !(r == i / DIM && c == i % DIM) && SameUnit(i / DIM, i % DIM, r, c)
    ensures Blocked(SolvedElements(s), i, p)
  {
    var j := r * DIM + c;
    assert j / DIM == r && j % DIM == c;
    assert Peers(i, j) && SolvedElements(s)[j] == p;
  }

  /** `in_row || in_col || in_block`: some peer of the cell holds `p`. */
  method HasPeer(b: array<Element>, i: nat, p: nat) returns (found: bool)
    requires b.Length == SIZE && i < SIZE
    ensures found <==> Blocked(SolvedElements(b[..]), i, p)
  {
    var row, col := i / DIM, i % DIM;
    ScansFindPeers(b[..], i, p);
    hide Holds, HoldsInBlock, SolvedElements, Blocked;
    found := InRow(b, row, col, p);
    if !found {
      found := InCol(b, row, col, p);
    }
    if !found {
      found := InBlock(b, row, col, p);
    }
  }

  // ----- sets of potentials, as bit masks

  /** `1 << (p - 1)` */
  function Bit(p: nat): bv32 {
    match p
    case 1 => 1
    case 2 => 2
    case 3 => 4
    case 4 => 8
    case 5 => 16
    case 6 => 32
    case 7 => 64
    case 8 => 128
    case 9 => 256
    case _ => 0
  }

  predicate Meet(x: bv32, y: bv32) {
    x & y != 0
  }

  predicate Has(mask: bv32, p: nat) {
    Meet(Bit(p), mask)
  }

  lemma EmptyMask(p: nat)
    ensures !Has(0, p)
  {
  }

  lemma AndOr(x: bv32, y: bv32, z: bv32)
    ensures Meet(x, y | z) <==> Meet(x, y) || Meet(x, z)
  {
    assert x & (y | z) == (x & y) | (x & z);
    OrZero(x & y, x & z);
  }

  lemma OrZero(x: bv32, y: bv32)
    ensures x | y == 0 <==> x == 0 && y == 0
  {
  }

  lemma AddedBit(mask: bv32, p: nat, q: nat)
    requires 1 <= p <= DIM && 1 <= q <= DIM
    ensures Has(mask | Bit(p), q) <==> q == p || Has(mask, q)
  {
    hide Bit, Meet;
    SingleBit(p, q);
    AndOr(Bit(q), mask, Bit(p));
  }

  lemma SingleBit(p: nat, q: nat)
    requires 1 <= p <= DIM && 1 <= q <= DIM
    ensures Has(Bit(p), q) <==> q == p
  {
  }

  // ----- one round of propagation

  /** The potentials of cell `i` are right for the board `b`: none if solved, else the digits no peer has. */
  ghost predicate PotentialsOk(e: Element, b: Board, i: nat)
    requires i < SIZE
  {
    && (b[i] != 0 ==> e.potentials == 0)
    && (b[i] == 0 ==> forall p :: 1 <= p <= DIM ==> (Has(e.potentials, p) <==> !Blocked(b, i, p)))
  }

  /** The mask holds the digits below `p` that no peer has. */
  ghost predicate HoldsBelow(mask: bv32, b: Board, i: nat, p: nat)
    requires i < SIZE
  {
    forall q :: 1 <= q <= DIM ==> (Has(mask, q) <==> q < p && !Blocked(b, i, q))
  }

  lemma NothingBelow(b: Board, i: nat)
    requires i < SIZE
    ensures HoldsBelow(0, b, i, 1)
  {
    hide Has, Blocked;
    forall q | 1 <= q <= DIM
      ensures !Has(0, q)
    {
      EmptyMask(q);
    }
  }

  lemma OneMore(mask: bv32, b: Board, i: nat, p: nat)
    requires i < SIZE && 1 <= p <= DIM && HoldsBelow(mask, b, i, p)
    ensures Blocked(b, i, p) ==> HoldsBelow(mask, b, i, p + 1)
    ensures !Blocked(b, i, p) ==> HoldsBelow(mask | Bit(p), b, i, p + 1)
  {
    hide Has, Bit, Blocked;
    if !Blocked(b, i, p) {
      var more := mask | Bit(p);
      forall q | 1 <= q <= DIM
        ensures Has(more, q) <==> q < p + 1 && !Blocked(b, i, q)
      {
        AddedBit(mask, p, q);
      }
    }
  }

  method PotentialsOf(b: array<Element>, i: nat) returns (potentials: bv32)
    requires b.Length == SIZE && i < SIZE
    ensures PotentialsOk(Element(b[i].solved, potentials), SolvedElements(b[..]), i)
  {
    hide Has, Bit, Blocked;
    ghost var board := SolvedElements(b[..]);
    potentials := 0;
    if b[i].solved == 0 {
      NothingBelow(board, i);
      for p := 1 to DIM + 1
        invariant HoldsBelow(potentials, board, i, p)
      {
        OneMore(potentials, board, i, p);
        var found := HasPeer(b, i, p);
        if !found {
          potentials := potentials | Bit(p);
        }
      }
    }
  }

  method CalculatePotentials(b: array<Element>)
    requires b.Length == SIZE
    modifies b
    ensures SolvedElements(b[..]) == old(SolvedElements(b[..]))
    ensures forall i | 0 <= i < SIZE :: PotentialsOk(b[i], SolvedElements(b[..]), i)
  {
    hide Has, Bit, Blocked;
    ghost var board := SolvedElements(b[..]);
    for i := 0 to SIZE
      invariant SolvedElements(b[..]) == board
      invariant forall j | 0 <= j < i :: PotentialsOk(b[j], board, j)
    {
      var potentials := PotentialsOf(b, i);
      b[i] := b[i].(potentials := potentials);
      assert SolvedElements(b[..]) == board;
    }
  }

  method FixedBoard(b: array<Element>) returns (fixed: bool)
    requires b.Length == SIZE
    ensures fixed <==> Full(SolvedElements(b[..]))
  {
    ghost var board := SolvedElements(b[..]);
    var i := SIZE - 1;
    while i >= 0
      invariant -1 <= i < SIZE
      invariant forall j | i < j < SIZE :: board[j] != 0
    {
      if b[i].solved == 0 {
        assert board[i] == 0;
        return false;
      }
      i := i - 1;
    }
    return true;
  }

  ghost predicate NoClash(b: Board, i: nat)
    requires i < SIZE
  {
    b[i] != 0 ==> !Blocked(b, i, b[i])
  }

  lemma ValidIsNoClash(b: Board)
    ensures Valid(b) <==> forall i | 0 <= i < SIZE :: NoClash(b, i)
  {
    if Valid(b) {
      assert forall i | 0 <= i < SIZE :: NoClash(b, i);
    } else {
      var i, j :| 0 <= i < SIZE && 0 <= j < SIZE && Peers(i, j) && b[i] != 0 && b[i] == b[j];
      assert !NoClash(b, i);
    }
  }

  method ValidBoard(b: array<Element>) returns (success: bool)
    requires b.Length == SIZE
    ensures success <==> Valid(SolvedElements(b[..]))
  {
    hide Blocked;
    ghost var board := SolvedElements(b[..]);
    success := true;
    for i := 0 to SIZE
      invariant success <==> forall j | 0 <= j < i :: NoClash(board, j)
    {
      ghost var before := success;
      if success && b[i].solved != 0 {
        var found := HasPeer(b, i, b[i].solved);
        if found {
          success := false;
        }
      }
      assert success <==> before && NoClash(board, i);
    }
    ValidIsNoClash(board);
  }

  /** The switch over the nine masks with a single bit; zero for any other mask. */
  method SingletonValue(mask: bv32) returns (v: nat)
    ensures v <= DIM && (v == 0 ==> forall p | 1 <= p <= DIM :: mask != Bit(p))
    ensures v > 0 ==> mask == Bit(v)
  {
    v :=
      if mask == 1 then 1
      else if mask == 2 then 2
      else if mask == 4 then 3
      else if mask == 8 then 4
      else if mask == 16 then 5
      else if mask == 32 then 6
      else if mask == 64 then 7
      else if mask == 128 then 8
      else if mask == 256 then 9
      else 0;
  }

  /** Every completion of `b` has the digit `v` in the empty cell `i`. */
  lemma SingletonForces(e: Element, b: Board, i: nat, v: nat)
    requires i < SIZE && b[i] == 0 && PotentialsOk(e, b, i) && 1 <= v <= DIM && e.potentials == Bit(v)
    ensures forall c | c in Completions(b) :: c[i] == v
  {
    hide Completions, Blocked, Bit, Meet, Has;
    forall c | c in Completions(b)
      ensures c[i] == v
    {
      OnlyPotentials(b, i, c);
      SingleBit(v, c[i]);
    }
  }

  lemma NoPotentialMeansNone(e: Element, b: Board, i: nat)
    requires i < SIZE && b[i] == 0 && PotentialsOk(e, b, i) && e.potentials == 0
    ensures Completions(b) == {}
  {
    hide Completions, Blocked, Bit, Meet, Has;
    if c :| c in Completions(b) {
      OnlyPotentials(b, i, c);
      EmptyMask(c[i]);
    }
  }

  /** One pass over the board: singletons are filled in; failure means that there is nothing to complete. */
  method ExaminePotentials(b: array<Element>) returns (success: bool, progress: bool)
    requires b.Length == SIZE
    requires forall i | 0 <= i < SIZE :: PotentialsOk(b[i], SolvedElements(b[..]), i)
    modifies b
    ensures var was, now := old(SolvedElements(b[..])), SolvedElements(b[..]);
      && (!success ==> Completions(was) == {})
      && (success ==> Completions(now) == Completions(was) && Valid(now))
      && (success ==> (forall j | 0 <= j < SIZE :: was[j] != 0 ==> now[j] == was[j]))
      && (success ==> (progress <==> exists j :: 0 <= j < SIZE && was[j] == 0 && now[j] != 0))
    ensures forall i | 0 <= i < SIZE :: b[i].potentials == old(b[i].potentials)
  {
    hide Completions, Blocked, Bit, Meet, Has;
    ghost var was, start := SolvedElements(b[..]), b[..];
    var singletons := false;
    for i := 0 to SIZE
      invariant forall j | 0 <= j < SIZE :: b[j].potentials == start[j].potentials
      invariant forall j | i <= j < SIZE :: b[j].solved == was[j]
      invariant forall j | 0 <= j < i :: was[j] != 0 ==> b[j].solved == was[j]
      invariant singletons <==> exists j :: 0 <= j < i && was[j] == 0 && b[j].solved != 0
      invariant Completions(SolvedElements(b[..])) == Completions(was)
    {
      assert PotentialsOk(start[i], was, i);
      if b[i].solved == 0 && b[i].potentials == 0 {
        NoPotentialMeansNone(start[i], was, i);
        return false, true;
      }
      var v := SingletonValue(b[i].potentials);
      if v > 0 {
        ghost var before := SolvedElements(b[..]);
        SingletonIsEmptyCell(start[i], was, i, v);
        SingletonForces(start[i], was, i, v);
        ForcedCell(before, i, v);
        b[i] := b[i].(solved := v);
        assert SolvedElements(b[..]) == before[i := v];
        singletons := true;
      }
    }
    progress := singletons;
    success := ValidBoard(b);
    if !success {
      ConflictMeansNone(SolvedElements(b[..]));
    }
  }

  lemma SingletonIsEmptyCell(e: Element, b: Board, i: nat, v: nat)
    requires i < SIZE && PotentialsOk(e, b, i) && 1 <= v <= DIM && e.potentials == Bit(v)
    ensures b[i] == 0
  {
    hide Blocked, Has;
  }

  // ----- the tasks

  /** A spawned task: its own copy of the board, and where to look for the next cell to branch on. */
  datatype Task = Task(board: Board, first: nat)

  ghost predicate TaskOk(t: Task) {
    t.first <= SIZE && forall i | 0 <= i < t.first :: t.board[i] != 0
  }

  ghost predicate TasksOk(tasks: seq<Task>) {
    forall t | t in tasks :: TaskOk(t)
  }

  /** What the search counts for a board: a full one is not checked again. */
  ghost function Credit(b: Board): nat {
    if Full(b) then 1 else |Completions(b)|
  }

  /** The count is right for every board but a full one with a conflict. */
  lemma CreditIsExact(b: Board)
    ensures Credit(b) == |Completions(b)| <==> !(Full(b) && !Valid(b))
  {
    if Full(b) {
      CompletionsOfFull(b);
    }
  }

  ghost function Total(tasks: seq<Task>): nat {
    if tasks == [] then 0 else Total(tasks[..|tasks| - 1]) + Credit(tasks[|tasks| - 1].board)
  }

  /** An upper bound for the number of tasks that a board with `n` empty cells can still cause. */
  function Weight(n: nat): nat {
    if n == 0 then 1 else 9 * Weight(n - 1) + 1
  }

  ghost function Measure(tasks: seq<Task>): nat {
    if tasks == [] then 0 else Measure(tasks[..|tasks| - 1]) + Weight(Empty(tasks[|tasks| - 1].board))
  }

  lemma Spawned(tasks: seq<Task>, t: Task)
    ensures Total(tasks + [t]) == Total(tasks) + Credit(t.board)
    ensures Measure(tasks + [t]) == Measure(tasks) + Weight(Empty(t.board))
  {
    assert (tasks + [t])[..|tasks|] == tasks;
  }

  lemma {:induction false} Picked(tasks: seq<Task>, k: nat)
    requires k < |tasks|
    ensures Total(tasks[..k] + tasks[k + 1..]) == Total(tasks) - Credit(tasks[k].board)
    ensures Measure(tasks[..k] + tasks[k + 1..]) == Measure(tasks) - Weight(Empty(tasks[k].board))
  {
    hide Credit, Weight, Empty;
    var n := |tasks| - 1;
    var rest, last := tasks[..n], tasks[n];
    if k == n {
      assert tasks[..k] + tasks[k + 1..] == rest;
    } else {
      var without := rest[..k] + rest[k + 1..];
      Picked(rest, k);
      assert tasks[..k] == rest[..k] && tasks[k + 1..] == rest[k + 1..] + [last];
      assert tasks[..k] + tasks[k + 1..] == without + [last];
      Spawned(without, last);
    }
  }

  lemma {:induction false} WeightMonotone(m: nat, n: nat)
    requires m <= n
    ensures Weight(m) <= Weight(n)
  {
    if m < n {
      WeightMonotone(m, n - 1);
    }
  }

  ghost function Times(k: nat, w: nat): nat {
    if k == 0 then 0 else Times(k - 1, w) + w
  }

  lemma NineTimes(n: nat)
    requires n > 0
    ensures Times(9, Weight(n - 1)) < Weight(n)
  {
    var w := Weight(n - 1);
    assert Times(1, w) == w;
    assert Times(2, w) == 2 * w;
    assert Times(3, w) == 3 * w;
    assert Times(4, w) == 4 * w;
    assert Times(5, w) == 5 * w;
    assert Times(6, w) == 6 * w;
    assert Times(7, w) == 7 * w;
    assert Times(8, w) == 8 * w;
    assert Times(9, w) == 9 * w;
  }

  lemma ChildWeight(b: Board, i: nat, p: nat)
    requires i < SIZE && b[i] == 0 && p > 0
    ensures Empty(b) > 0 && Weight(Empty(b[i := p])) <= Weight(Empty(b) - 1)
  {
    EmptyMonotone(b, b[i := p], 0);
    WeightMonotone(Empty(b[i := p]), Empty(b) - 1);
  }

  /** The branch for one digit is spawned exactly when it can have completions. */
  lemma Branch(e: Element, b: Board, i: nat, p: nat)
    requires i < SIZE && b[i] == 0 && Valid(b) && PotentialsOk(e, b, i) && 1 <= p <= DIM
    ensures Has(e.potentials, p) ==> Credit(b[i := p]) == |Completions(b[i := p])|
    ensures !Has(e.potentials, p) ==> Completions(b[i := p]) == {}
  {
    hide Completions, Blocked, Has;
    if Has(e.potentials, p) {
      UnblockedStaysValid(b, i, p);
      CreditIsExact(b[i := p]);
    } else {
      BlockedMeansNone(b, i, p);
    }
  }

  /** One turn of the branching loop. */
  lemma BranchStep(e: Element, b: Board, first: nat, p: nat, pending: seq<Task>)
    requires first < SIZE && b[first] == 0 && Valid(b) && PotentialsOk(e, b, first) && 1 <= p <= DIM
    requires TaskOk(Task(b, first)) && Empty(b) > 0 && TasksOk(pending)
    ensures var after := if Has(e.potentials, p) then pending + [Task(b[first := p], first)] else pending;
      && Total(after) == Total(pending) + |Completions(b[first := p])|
      && Measure(after) <= Measure(pending) + Weight(Empty(b) - 1)
      && TasksOk(after)
    ensures SumOfChoices(b, first, p) == SumOfChoices(b, first, p - 1) + |Completions(b[first := p])|
    ensures Times(p, Weight(Empty(b) - 1)) == Times(p - 1, Weight(Empty(b) - 1)) + Weight(Empty(b) - 1)
  {
    hide Completions, Has, Valid, Empty, Weight, PotentialsOk, Credit, Total, Measure;
    Branch(e, b, first, p);
    ChildWeight(b, first, p);
    Spawned(pending, Task(b[first := p], first));
  }

  ghost function BoardOf(b: array<Element>): Board
    requires b.Length == SIZE
    reads b
  {
    SolvedElements(b[..])
  }

  lemma Sums(b: Board, first: nat)
    requires first < SIZE && b[first] == 0
    ensures Empty(b) > 0
    ensures SumOfChoices(b, first, 0) == 0 && SumOfChoices(b, first, 9) == |Completions(b)|
    ensures Times(0, Weight(Empty(b) - 1)) == 0 && Times(9, Weight(Empty(b) - 1)) < Weight(Empty(b))
  {
    ChildWeight(b, first, 1);
    BranchingSplits(b, first);
    NineTimes(Empty(b));
  }

  /** The solved elements only. */
  method CopyBoard(b: array<Element>) returns (copy: Board)
    requires b.Length == SIZE
    ensures copy == BoardOf(b)
  {
    var cells: seq<nat> := [];
    for i := 0 to SIZE
      invariant |cells| == i && forall j | 0 <= j < i :: cells[j] == b[j].solved
    {
      cells := cells + [b[i].solved];
    }
    copy := cells;
    assert forall i | 0 <= i < SIZE :: BoardOf(b)[i] == b[i].solved;
  }

  /** Filling cells in leaves less to do, and moves no cell to branch on. */
  lemma Filled(was: Board, now: Board, start: nat)
    requires TaskOk(Task(was, start))
    requires forall i | 0 <= i < SIZE :: was[i] != 0 ==> now[i] == was[i]
    requires exists i :: 0 <= i < SIZE && was[i] == 0 && now[i] != 0
    ensures Empty(now) < Empty(was) && Weight(Empty(now)) <= Weight(Empty(was)) && TaskOk(Task(now, start))
  {
    EmptyMonotone(was, now, 0);
    WeightMonotone(Empty(now), Empty(was));
  }

  /** The cell to branch on. */
  method NextEmpty(b: array<Element>, start: nat) returns (first: nat)
    requires b.Length == SIZE && TaskOk(Task(BoardOf(b), start)) && !Full(BoardOf(b))
    ensures first < SIZE && BoardOf(b)[first] == 0 && TaskOk(Task(BoardOf(b), first))
  {
    first := start;
    assert forall i | 0 <= i < SIZE :: BoardOf(b)[i] == b[i].solved;
    while b[first].solved != 0
      invariant first < SIZE
      invariant forall i | 0 <= i < first :: b[i].solved != 0
      decreases SIZE - first
    {
      first := first + 1;
    }
  }

  class Search {
    var nSols: nat
    var pending: seq<Task>

    constructor ()
      ensures nSols == 0 && pending == []
    {
      nSols, pending := 0, [];
    }

    ghost function Accounted(): nat
      reads this
    {
      nSols + Total(pending)
    }

    /** The branch for one digit: a task with a copy of the board, if the digit is a potential of the cell. */
    method SpawnBranch(b: array<Element>, first: nat, p: nat)
      requires b.Length == SIZE && first < SIZE && 1 <= p < 10 && BoardOf(b)[first] == 0
      requires Valid(BoardOf(b)) && PotentialsOk(b[first], BoardOf(b), first)
      requires TaskOk(Task(BoardOf(b), first)) && Empty(BoardOf(b)) > 0 && TasksOk(pending)
      modifies `pending
      ensures var board, w := BoardOf(b), Weight(Empty(BoardOf(b)) - 1);
        && SumOfChoices(board, first, p) == SumOfChoices(board, first, p - 1) + Total(pending) - old(Total(pending))
        && Times(p, w) - Times(p - 1, w) >= Measure(pending) - old(Measure(pending))
      ensures TasksOk(pending)
    {
      hide Has, Total, Measure, Completions, SumOfChoices, Times, TaskOk, TasksOk, Valid, PotentialsOk, Empty, Weight,
        BoardOf;
      BranchStep(b[first], BoardOf(b), first, p, pending);
      if Has(b[first].potentials, p) {
        var copy := CopyBoard(b);
        pending := pending + [Task(copy[first := p], first)];
      }
    }

    /** Splitting: one task for each potential digit of the cell. */
    method SpawnBranches(b: array<Element>, first: nat)
      requires b.Length == SIZE && first < SIZE && BoardOf(b)[first] == 0
      requires Valid(BoardOf(b)) && PotentialsOk(b[first], BoardOf(b), first)
      requires TaskOk(Task(BoardOf(b), first)) && TasksOk(pending)
      modifies `pending
      ensures Total(pending) == old(Total(pending)) + |Completions(BoardOf(b))|
      ensures Measure(pending) < old(Measure(pending)) + Weight(Empty(BoardOf(b)))
      ensures TasksOk(pending)
    {
      hide *;
      ghost var board, total, measure := BoardOf(b), Total(pending), Measure(pending);
      Sums(board, first);
      for p := 1 to 10
        invariant BoardOf(b) == board && TasksOk(pending)
        invariant Total(pending) == total + SumOfChoices(board, first, p - 1)
        invariant Measure(pending) <= measure + Times(p - 1, Weight(Empty(board) - 1))
      {
        SpawnBranch(b, first, p);
      }
    }

    /** One task; it owns its board. */
    method PartialSolve(b: array<Element>, start: nat)
      requires b.Length == SIZE && TaskOk(Task(BoardOf(b), start)) && TasksOk(pending)
      modifies this, b
      ensures Accounted() == old(Accounted()) + old(Credit(BoardOf(b)))
      ensures Measure(pending) < old(Measure(pending)) + old(Weight(Empty(BoardOf(b))))
      ensures TasksOk(pending)
      decreases Empty(BoardOf(b))
    {
      hide Has, Blocked, Completions, Empty, Total, Valid, TaskOk, SolvedElements;
      var fixed := FixedBoard(b);
      if fixed {
        nSols := nSols + 1;
        return;
      }
      ghost var board := BoardOf(b);
      CalculatePotentials(b);
      assert BoardOf(b) == board;
      var success, progress := ExaminePotentials(b);
      CreditIsExact(board);
      CreditIsExact(BoardOf(b));
      if success && progress {
        Filled(board, BoardOf(b), start);
        PartialSolve(b, start);
      } else if success && !progress {
        assert BoardOf(b) == board;
        var first := NextEmpty(b, start);
        SpawnBranches(b, first);
      }
    }

    /** The pool runs the pending tasks in any order until none is left. */
    method Run()
      requires TasksOk(pending)
      modifies this
      ensures pending == [] && nSols == old(Accounted())
    {
      hide Total, Measure, TasksOk, Weight, Empty, Credit;
      NoTasks();
      while pending != []
        invariant TasksOk(pending) && Accounted() == old(Accounted())
        decreases Measure(pending)
      {
        var k :| 0 <= k < |pending|;
        var t := pending[k];
        Picked(pending, k);
        TasksStayOk(pending, k);
        pending := pending[..k] + pending[k + 1..];
        var b := new Element[SIZE](i requires 0 <= i < SIZE => Element(t.board[i], 0));
        assert BoardOf(b) == t.board;
        PartialSolve(b, t.first);
      }
    }
  }

  lemma NoTasks()
    ensures Total([]) == 0
  {
  }

  lemma TasksStayOk(tasks: seq<Task>, k: nat)
    requires TasksOk(tasks) && k < |tasks|
    ensures TasksOk(tasks[..k] + tasks[k + 1..]) && TaskOk(tasks[k])
  {
  }

  /** With every solution to be found, the search counts the valid completions of any board that is not full. */
  method Solve(initValues: Board) returns (solutions: nat)
    ensures solutions == Credit(initValues)
    ensures solutions == |Completions(initValues)| <==> !(Full(initValues) && !Valid(initValues))
  {
    var search := new Search();
    search.pending := [Task(initValues, 0)];
    Spawned([], Task(initValues, 0));
    assert [] + [Task(initValues, 0)] == [Task(initValues, 0)];
    search.Run();
    solutions := search.nSols;
    CreditIsExact(initValues);
  }

  /** On a full board with a conflict the count is wrong: the board is counted as a solution. */
  lemma FullConflictIsCounted() returns (b: Board)
    ensures Credit(b) == 1 && Completions(b) == {}
  {
    b := seq(SIZE, _ => 1);
    assert Peers(0, 1);
    assert !Valid(b);
    ConflictMeansNone(b);
  }
}
