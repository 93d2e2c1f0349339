/**
 The AI's move `ai_move`: collect the callback texts "ij" of all free cells in
 row-major order, pick one of them at random, decode it and write a zero
 there, in place on the caller's board. With no free cell left it reports
 that it could not move and leaves the board alone.
 */
module Opponent {
  import opened Board
  import opened Callback

  /** The texts the scan collects from row r, over its first n cells. */
  function RowCodes(g: Grid, r: int, n: nat): seq<string>
    requires IsGrid(g) && 0 <= r < 3 && n <= 3
  {
    if n == 0 then []
    else RowCodes(g, r, n - 1) + (if g[r][n - 1] == Free then [Encode(r, n - 1)] else [])
  }

  /** `cells_for_choice` once the scan has passed the first n rows. */
  function FreeCodes(g: Grid, n: nat): seq<string>
    requires IsGrid(g) && n <= 3
  {
    if n == 0 then [] else FreeCodes(g, n - 1) + RowCodes(g, n - 1, 3)
  }

  lemma {:induction false} RowCodesHas(g: Grid, r: int, n: nat, i: int, j: int)
    requires IsGrid(g) && 0 <= r < 3 && n <= 3 && InRange(i, j)
    ensures Encode(i, j) in RowCodes(g, r, n) <==> i == r && j < n && g[i][j] == Free
  {
    if n > 0 {
      RowCodesHas(g, r, n - 1, i, j);
      if Encode(i, j) == Encode(r, n - 1) {
        EncodeInjective(i, j, r, n - 1);
      }
    }
  }

  /** A cell's text is collected exactly when the scan has passed the cell's
      row and the cell is free. */
  lemma {:induction false} FreeCodesHas(g: Grid, n: nat, r: int, c: int)
    requires IsGrid(g) && n <= 3 && InRange(r, c)
    ensures Encode(r, c) in FreeCodes(g, n) <==> r < n && g[r][c] == Free
  {
    if n > 0 {
      FreeCodesHas(g, n - 1, r, c);
      RowCodesHas(g, n - 1, 3, r, c);
    }
  }

  lemma {:induction false} RowCodesSound(g: Grid, r: int, n: nat, s: string)
    requires IsGrid(g) && 0 <= r < 3 && n <= 3
    requires s in RowCodes(g, r, n)
    ensures exists c :: 0 <= c < n && g[r][c] == Free && s == Encode(r, c)
  {
    if s in RowCodes(g, r, n - 1) {
      RowCodesSound(g, r, n - 1, s);
    } else {
      assert g[r][n - 1] == Free && s == Encode(r, n - 1);
    }
  }

  /** Everything collected is the text of a free cell in a row the scan has
      passed, and decodes back to that cell. */
  lemma {:induction false} FreeCodesSound(g: Grid, n: nat, s: string)
    requires IsGrid(g) && n <= 3
    requires s in FreeCodes(g, n)
    ensures Decode(s).Ok?
    ensures var (r, c) := Decode(s).value;
            InRange(r, c) && r < n && g[r][c] == Free && s == Encode(r, c)
  {
    if s in FreeCodes(g, n - 1) {
      FreeCodesSound(g, n - 1, s);
    } else {
      RowCodesSound(g, n - 1, 3, s);
      var c :| 0 <= c < 3 && g[n - 1][c] == Free && s == Encode(n - 1, c);
      DecodeEncode(n - 1, c);
    }
  }

  /** Nothing is collected exactly when no cell is free. */
  lemma FreeCodesEmpty(g: Grid)
    requires IsGrid(g)
    ensures FreeCodes(g, 3) == [] <==> !HasFree(g)
  {
    if HasFree(g) {
      var r, c :| InRange(r, c) && g[r][c] == Free;
      FreeCodesHas(g, 3, r, c);
    } else if FreeCodes(g, 3) != [] {
      FreeCodesSound(g, 3, FreeCodes(g, 3)[0]);
    }
  }

  lemma {:induction false} RowCodesAfterZero(g: Grid, r: int, n: nat, i: int, j: int)
    requires IsGrid(g) && 0 <= r < 3 && n <= 3 && InRange(i, j) && g[i][j] == Free
    ensures |RowCodes(Put(g, i, j, Zero), r, n)| == |RowCodes(g, r, n)| - (if i == r && j < n then 1 else 0)
  {
    if n > 0 {
      RowCodesAfterZero(g, r, n - 1, i, j);
    }
  }

  /** Writing a zero into a free cell in a row the scan has passed removes
      exactly one text from the collection. */
  lemma {:induction false} FreeCodesAfterZero(g: Grid, n: nat, r: int, c: int)
    requires IsGrid(g) && n <= 3 && InRange(r, c) && g[r][c] == Free
    ensures |FreeCodes(Put(g, r, c, Zero), n)| == |FreeCodes(g, n)| - (if r < n then 1 else 0)
  {
    if n > 0 {
      FreeCodesAfterZero(g, n - 1, r, c);
      RowCodesAfterZero(g, n - 1, 3, r, c);
    }
  }

  /** With one free cell left, the random choice is forced: the AI plays
      that cell. */
  lemma OnlyFreeCell(g: Grid, r: int, c: int, i: int, j: int)
    requires IsGrid(g) && InRange(r, c) && InRange(i, j)
    requires |FreeCodes(g, 3)| == 1 && g[r][c] == Free && g[i][j] == Free
    ensures i == r && j == c
  {
    FreeCodesHas(g, 3, r, c);
    FreeCodesHas(g, 3, i, j);
    EncodeInjective(r, c, i, j);
  }

  /** The scan of `ai_move`: the callback texts of the free cells, row by
      row, each row left to right. */
  method CollectFree(fields: array2<Cell>) returns (cells: seq<string>)
    requires fields.Length0 == 3 && fields.Length1 == 3
    ensures cells == FreeCodes(Snapshot(fields), 3)
  {
    ghost var g := Snapshot(fields);
    cells := [];
    var i := 0;
    while i < 3
      invariant 0 <= i <= 3
      invariant cells == FreeCodes(g, i)
    {
      var j := 0;
      while j < 3
        invariant 0 <= j <= 3
        invariant cells == FreeCodes(g, i) + RowCodes(g, i, j)
      {
        if fields[i, j] == Free {
          cells := cells + [Encode(i, j)];
        }
        j := j + 1;
      }
      i := i + 1;
    }
  }

  /** `ai_move`, with the random pick left open: any collected cell may be
      chosen. The chosen cell (row, col) is returned as ghost outputs. */
  method AiMove(fields: array2<Cell>) returns (moved: bool, ghost row: int, ghost col: int)
    requires fields.Length0 == 3 && fields.Length1 == 3
    modifies fields
    ensures moved <==> HasFree(old(Snapshot(fields)))
    ensures !moved ==> Snapshot(fields) == old(Snapshot(fields))
    ensures moved ==> && InRange(row, col)
                      && Encode(row, col) in FreeCodes(old(Snapshot(fields)), 3)
                      && old(Snapshot(fields))[row][col] == Free
                      && Snapshot(fields) == Put(old(Snapshot(fields)), row, col, Zero)
                      && |FreeCodes(Snapshot(fields), 3)| == |FreeCodes(old(Snapshot(fields)), 3)| - 1
  {
    ghost var g := Snapshot(fields);
    var cells := CollectFree(fields);
    FreeCodesEmpty(g);
    if cells == [] {
      return false, 0, 0;
    }
    var k :| 0 <= k < |cells|;
    FreeCodesSound(g, 3, cells[k]);
    var (i, j) := Decode(cells[k]).value;
    fields[i, j] := Zero;
    GridExt(Snapshot(fields), Put(g, i, j, Zero));
    FreeCodesHas(g, 3, i, j);
    FreeCodesAfterZero(g, 3, i, j);
    moved, row, col := true, i, j;
  }
}
