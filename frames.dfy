/**
 A rotation state of a tetrimino is a 4x4 grid of cell values in which 0
 means "no block" and any other value is the colour of a block. This module
 defines that frame, counts its blocks, and gives the matrix-rotation
 reference against which the stored rotation states are checked: a
 clockwise quarter turn of the whole frame, compared with the stored state
 up to a translation inside the frame.
 */
module Frames {

  /** Rows of cells; a well-formed frame is 4x4 (see IsFrame). */
  type Frame = seq<seq<int>>

  const Size := 4

  ghost predicate IsFrame(m: Frame) {
    |m| == Size && forall i :: 0 <= i < |m| ==> |m[i]| == Size
  }

  /** Every block of `m` carries the colour `tag`. */
  ghost predicate Coloured(m: Frame, tag: int) {
    forall i, j :: 0 <= i < |m| && 0 <= j < |m[i]| ==> m[i][j] == 0 || m[i][j] == tag
  }

  /**
   Four blocks, all of colour `tag`, drawn on a frame. Whether the blocks are
   connected is not part of this predicate.
   */
  ghost predicate FourBlocks(m: Frame, tag: int) {
    IsFrame(m) && Blocks(m) == 4 && Coloured(m, tag)
  }

  function Block(v: int): nat {
    if v == 0 then 0 else 1
  }

  /** Number of blocks (non-zero cells) in a row of the frame. */
  function RowBlocks(row: seq<int>): nat
    requires |row| == Size
  {
    Block(row[0]) + Block(row[1]) + Block(row[2]) + Block(row[3])
  }

  /** Number of blocks (non-zero cells) in a frame. */
  function Blocks(m: Frame): nat
    requires IsFrame(m)
  {
    RowBlocks(m[0]) + RowBlocks(m[1]) + RowBlocks(m[2]) + RowBlocks(m[3])
  }

  /** The cell at row `i`, column `j`, or 0 outside the frame. */
  function At(m: Frame, i: int, j: int): int {
    if 0 <= i < |m| && 0 <= j < |m[i]| then m[i][j] else 0
  }

  // ---------------------------------------------------------------------------
  // Rotation

  /** Column `j` read from the bottom row up: row `j` of the clockwise turn. */
  function TurnedRow(m: Frame, j: nat): seq<int>
    requires IsFrame(m) && j < Size
  {
    [m[3][j], m[2][j], m[1][j], m[0][j]]
  }

  /** The clockwise quarter turn of a whole 4x4 frame. */
  function Rotate(m: Frame): (r: Frame)
    requires IsFrame(m)
    ensures IsFrame(r)
  {
    [TurnedRow(m, 0), TurnedRow(m, 1), TurnedRow(m, 2), TurnedRow(m, 3)]
  }

  // ---------------------------------------------------------------------------
  // Translation inside the frame

  /** The cell of `row` at column `j`, or 0 outside the row. */
  function CellAt(row: seq<int>, j: int): int {
    if 0 <= j < |row| then row[j] else 0
  }

  /** Row `i` of `m`, or an empty row outside the frame. */
  function RowAt(m: Frame, i: int): seq<int> {
    if 0 <= i < |m| then m[i] else [0, 0, 0, 0]
  }

  /** `row` slid right by `dc` cells (left when negative), filling with 0. */
  function Slide(row: seq<int>, dc: int): (r: seq<int>)
    ensures |r| == Size
  {
    [CellAt(row, 0 - dc), CellAt(row, 1 - dc), CellAt(row, 2 - dc), CellAt(row, 3 - dc)]
  }

  /**
   The frame `m` moved down by `dr` rows and right by `dc` columns (up and
   left when negative); cells moved out of the frame are dropped, cells
   moved in are empty.
   */
  function Moved(m: Frame, dr: int, dc: int): (r: Frame)
    ensures IsFrame(r)
  {
    [ Slide(RowAt(m, 0 - dr), dc), Slide(RowAt(m, 1 - dr), dc),
      Slide(RowAt(m, 2 - dr), dc), Slide(RowAt(m, 3 - dr), dc) ]
  }

  /**
   `a` and `b` hold the same shape: `b` is `a` moved inside the frame, with
   no block lost over its edge.
   */
  ghost predicate SameShape(a: Frame, b: Frame)
    requires IsFrame(a) && IsFrame(b)
  {
    exists dr, dc :: b == Moved(a, dr, dc) && Blocks(b) == Blocks(a)
  }

  // ---------------------------------------------------------------------------
  // Lemmas

  /** A quarter turn neither adds nor removes blocks. */
  lemma RotateKeepsBlocks(m: Frame)
    requires IsFrame(m)
    ensures Blocks(Rotate(m)) == Blocks(m)
  {
    var r := Rotate(m);
    assert RowBlocks(r[0]) == Block(m[3][0]) + Block(m[2][0]) + Block(m[1][0]) + Block(m[0][0]);
    assert RowBlocks(r[1]) == Block(m[3][1]) + Block(m[2][1]) + Block(m[1][1]) + Block(m[0][1]);
    assert RowBlocks(r[2]) == Block(m[3][2]) + Block(m[2][2]) + Block(m[1][2]) + Block(m[0][2]);
    assert RowBlocks(r[3]) == Block(m[3][3]) + Block(m[2][3]) + Block(m[1][3]) + Block(m[0][3]);
  }

  /** A quarter turn keeps four blocks of colour `tag` at four blocks of that colour. */
  lemma RotateKeepsFourBlocks(m: Frame, tag: int)
    requires FourBlocks(m, tag)
    ensures FourBlocks(Rotate(m), tag)
  {
    RotateKeepsBlocks(m);
  }

  /** Cell (`i`, `j`) of the clockwise turn comes from row `3 - j`, column `i` of `m`. */
  lemma RotateCell(m: Frame, i: int, j: int)
    requires IsFrame(m) && 0 <= i < Size && 0 <= j < Size
    ensures Rotate(m)[i][j] == m[Size - 1 - j][i]
  {
  }

  /** Two quarter turns make a half turn: every cell goes to the opposite corner. */
  lemma HalfTurn(m: Frame, i: int, j: int)
    requires IsFrame(m) && 0 <= i < Size && 0 <= j < Size
    ensures Rotate(Rotate(m))[i][j] == m[Size - 1 - i][Size - 1 - j]
  {
  }

  /** Four quarter turns bring every frame back to itself. */
  lemma RotateFourTimes(m: Frame)
    requires IsFrame(m)
    ensures Rotate(Rotate(Rotate(Rotate(m)))) == m
  {
    var r := Rotate(Rotate(Rotate(Rotate(m))));
    forall i | 0 <= i < Size
      ensures r[i] == m[i]
    {
      assert forall j :: 0 <= j < Size ==> r[i][j] == m[i][j];
    }
  }

  /** A quarter turn of `a` moved by (`dr`, `dc`) that gives `b` shows that `b` has the turned shape. */
  lemma TurnsInto(a: Frame, b: Frame, dr: int, dc: int)
    requires IsFrame(a) && IsFrame(b)
    requires b == Moved(Rotate(a), dr, dc) && Blocks(b) == Blocks(a)
    ensures SameShape(Rotate(a), b)
  {
    RotateKeepsBlocks(a);
  }
}
