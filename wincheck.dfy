/**
 The win check `won`: every cell is scored 1 (a cross), 2 (a zero) or 20
 (anything else), and the board is won when some column, row, the main
 diagonal or the anti-diagonal sums to exactly 3 or 6. The check says only
 THAT a line is complete; who completed it follows from when it is called.
 */
module WinCheck {
  import opened Board

  /** The score of a cell. */
  function Code(x: Cell): int
  {
    match x
    case Cross => 1
    case Zero => 2
    case _ => 20
  }

  /** The eight lines of the board. */
  datatype Line = Column(k: nat) | Row(k: nat) | Diagonal | AntiDiagonal

  predicate ValidLine(l: Line)
  {
    (l.Column? || l.Row?) ==> l.k < 3
  }

  /** The coordinates of the i-th cell of line l; the anti-diagonal is the
      main diagonal of the board with its columns reversed. */
  function At(l: Line, i: nat): (rc: (int, int))
    requires ValidLine(l) && i < 3
    ensures InRange(rc.0, rc.1)
  {
    match l
    case Column(k) => (i, k)
    case Row(k) => (k, i)
    case Diagonal => (i, i)
    case AntiDiagonal => (i, 2 - i)
  }

  /** The i-th cell of line l on board g. */
  function Mark(g: Grid, l: Line, i: nat): Cell
    requires IsGrid(g) && ValidLine(l) && i < 3
  {
    g[At(l, i).0][At(l, i).1]
  }

  function LineSum(g: Grid, l: Line): int
    requires IsGrid(g) && ValidLine(l)
  {
    Code(Mark(g, l, 0)) + Code(Mark(g, l, 1)) + Code(Mark(g, l, 2))
  }

  predicate Hit(g: Grid, l: Line)
    requires IsGrid(g) && ValidLine(l)
  {
    LineSum(g, l) == 3 || LineSum(g, l) == 6
  }

  /** `won`: the column sums, then the row sums, then the two diagonals. */
  predicate Won(g: Grid)
    requires IsGrid(g)
  {
    || Hit(g, Column(0)) || Hit(g, Column(1)) || Hit(g, Column(2))
    || Hit(g, Row(0)) || Hit(g, Row(1)) || Hit(g, Row(2))
    || Hit(g, Diagonal)
    || Hit(g, AntiDiagonal)
  }

  /** Reference definition: all three cells of line l hold mark m. */
  predicate Filled(g: Grid, l: Line, m: Cell)
    requires IsGrid(g) && ValidLine(l)
  {
    Mark(g, l, 0) == m && Mark(g, l, 1) == m && Mark(g, l, 2) == m
  }

  /** Some line is three of mark m. */
  ghost predicate ThreeInARow(g: Grid, m: Cell)
    requires IsGrid(g)
  {
    exists l :: ValidLine(l) && Filled(g, l, m)
  }

  /** Cell (r, c) lies on line l. */
  predicate OnLine(l: Line, r: int, c: int)
    requires ValidLine(l)
  {
    At(l, 0) == (r, c) || At(l, 1) == (r, c) || At(l, 2) == (r, c)
  }

  /** The scoring is unambiguous: with scores from {1, 2, 20}, a sum of 3
      needs three 1s and a sum of 6 needs three 2s. */
  lemma CodeSums(a: int, b: int, c: int)
    requires a in {1, 2, 20} && b in {1, 2, 20} && c in {1, 2, 20}
    ensures a + b + c == 3 <==> a == 1 && b == 1 && c == 1
    ensures a + b + c == 6 <==> a == 2 && b == 2 && c == 2
  {
  }

  /** A line sums to 3 exactly when it is three crosses, to 6 exactly when
      it is three zeros. */
  lemma LineSumMeaning(g: Grid, l: Line)
    requires IsGrid(g) && ValidLine(l)
    ensures LineSum(g, l) == 3 <==> Filled(g, l, Cross)
    ensures LineSum(g, l) == 6 <==> Filled(g, l, Zero)
  {
  }

  /** `won` holds exactly when some line is three crosses or three zeros. */
  lemma WonIffThreeInARow(g: Grid)
    requires IsGrid(g)
    ensures Won(g) <==> ThreeInARow(g, Cross) || ThreeInARow(g, Zero)
  {
    forall l | ValidLine(l)
      ensures Hit(g, l) <==> Filled(g, l, Cross) || Filled(g, l, Zero)
    {
      LineSumMeaning(g, l);
    }
    if ThreeInARow(g, Cross) || ThreeInARow(g, Zero) {
      var l :| ValidLine(l) && (Filled(g, l, Cross) || Filled(g, l, Zero));
      assert Hit(g, l);
      match l
      case Column(k) => assert k == 0 || k == 1 || k == 2;
      case Row(k) => assert k == 0 || k == 1 || k == 2;
      case Diagonal =>
      case AntiDiagonal =>
    }
  }

  /** A fresh game is not won. */
  lemma DefaultNotWon()
    ensures !Won(DefaultState())
  {
  }

  /** A line that misses cell (r, c) reads the same after a mark is
      written there. */
  lemma OffLineUnchanged(g: Grid, r: int, c: int, m: Cell, l: Line, x: Cell)
    requires IsGrid(g) && InRange(r, c) && ValidLine(l)
    ensures !OnLine(l, r, c) ==> (Filled(Put(g, r, c, m), l, x) <==> Filled(g, l, x))
  {
  }

  /** A won board has a line of three crosses or three zeros. */
  lemma WonHasLine(g: Grid) returns (l: Line, x: Cell)
    requires IsGrid(g) && Won(g)
    ensures ValidLine(l) && (x == Cross || x == Zero) && Filled(g, l, x)
  {
    WonIffThreeInARow(g);
    if ThreeInARow(g, Cross) {
      x := Cross;
    } else {
      x := Zero;
    }
    l :| ValidLine(l) && Filled(g, l, x);
  }

  /** A board that is not won has no line of three crosses or three zeros. */
  lemma NotWonNoLine(g: Grid, l: Line, x: Cell)
    requires IsGrid(g) && !Won(g) && ValidLine(l) && (x == Cross || x == Zero)
    ensures !Filled(g, l, x)
  {
  }

  /** Marking one cell with m can complete a line only through that cell,
      and the completed line is three m's: on a board nobody has won, the
      move that makes `won` true is the winner's. */
  lemma WinningMoveCompletesOwnLine(g: Grid, r: int, c: int, m: Cell)
    requires IsGrid(g) && InRange(r, c) && g[r][c] == Free
    requires !Won(g) && Won(Put(g, r, c, m))
    ensures m == Cross || m == Zero
    ensures exists l :: ValidLine(l) && OnLine(l, r, c) && Filled(Put(g, r, c, m), l, m)
  {
    var h := Put(g, r, c, m);
    var l, x := WonHasLine(h);
    NotWonNoLine(g, l, x);
    OffLineUnchanged(g, r, c, m, l, x);
    var i :| 0 <= i < 3 && At(l, i) == (r, c);
    assert Mark(h, l, i) == m;
    assert i == 0 || i == 1 || i == 2;
  }
}
