/**
 The tic-tac-toe board: what a cell can hold, the 3×3 grid as a value, the
 default (all free) state a game starts from, and the in-place board that the
 bot keeps per user.
 */
module Board {

  /** What a cell shows. The bot writes three texts: FREE_SPACE ".",
      CROSS "✖" (the player's mark) and ZERO "O" (the AI's mark). Any other
      text a board may hold is `Other`: the win check scores it like a free
      cell, and a player's move treats it as occupied. */
  datatype Cell = Free | Cross | Zero | Other

  /** A board as a value: a list of rows, indexed `g[row][column]`. */
  type Grid = seq<seq<Cell>>

  /** The board is always three rows of three cells. */
  predicate IsGrid(g: Grid)
  {
    |g| == 3 && forall r :: 0 <= r < 3 ==> |g[r]| == 3
  }

  predicate InRange(r: int, c: int)
  {
    0 <= r < 3 && 0 <= c < 3
  }

  /** DEFAULT_STATE: three rows of three free cells. */
  function DefaultState(): (g: Grid)
    ensures IsGrid(g)
    ensures forall r, c :: InRange(r, c) ==> g[r][c] == Free
  {
    seq(3, _ => seq(3, _ => Free))
  }

  /** Some cell is still free. */
  predicate HasFree(g: Grid)
    requires IsGrid(g)
  {
    exists r, c | 0 <= r < 3 && 0 <= c < 3 :: g[r][c] == Free
  }

  /** The board after writing mark `m` into cell (r, c). */
  function Put(g: Grid, r: int, c: int, m: Cell): (h: Grid)
    requires IsGrid(g) && InRange(r, c)
    ensures IsGrid(h) && h[r][c] == m
    ensures forall i, j :: InRange(i, j) && (i != r || j != c) ==> h[i][j] == g[i][j]
  {
    g[r := g[r][c := m]]
  }

  /** The value an in-place board holds. */
  function Snapshot(a: array2<Cell>): (g: Grid)
    reads a
    requires a.Length0 == 3 && a.Length1 == 3
    ensures IsGrid(g)
  {
    [[a[0, 0], a[0, 1], a[0, 2]],
     [a[1, 0], a[1, 1], a[1, 2]],
     [a[2, 0], a[2, 1], a[2, 2]]]
  }

  /** Two 3×3 boards that agree on every cell are equal. */
  lemma {:induction false} GridExt(g: Grid, h: Grid)
    requires IsGrid(g) && IsGrid(h)
    requires forall r, c :: InRange(r, c) ==> g[r][c] == h[r][c]
    ensures g == h
  {
    forall r | 0 <= r < 3
      ensures g[r] == h[r]
    {
      assert forall c :: 0 <= c < 3 ==> g[r][c] == h[r][c];
    }
  }

  /** A fresh in-place board holding `g` (a deep copy of it). */
  method NewBoard(g: Grid) returns (a: array2<Cell>)
    requires IsGrid(g)
    ensures fresh(a) && a.Length0 == 3 && a.Length1 == 3
    ensures Snapshot(a) == g
  {
    a := new Cell[3, 3]((r, c) requires 0 <= r < 3 && 0 <= c < 3 => g[r][c]);
    GridExt(Snapshot(a), g);
  }

  /** get_default_state: a fresh copy of DEFAULT_STATE, so that no two games
      share a board. */
  method GetDefaultState() returns (a: array2<Cell>)
    ensures fresh(a) && a.Length0 == 3 && a.Length1 == 3
    ensures Snapshot(a) == DefaultState()
  {
    a := NewBoard(DefaultState());
  }
}
