/**
 * The 9 x 10 board of the point-based engine: cells addressed by a
 * `Point` (column x, row y), read with `Get`, written with `Set`, and the
 * fixed opening layout built by the constructor.
 */
module Chess {
  import opened Wrappers
  import opened Points

  datatype Side = Red | Black

  datatype ChessType = King | Guard | Elephant | Horse | Rook | Cannon | Pawn

  /** A cell: `ChessPiece(None)` is empty, otherwise it holds a kind and a side. */
  datatype ChessPiece = ChessPiece(content: Option<(ChessType, Side)>) {

    predicate IsEmpty() {
      content.None?
    }

    /** True iff the cell holds a piece of side `camp`; an empty cell is on no side. */
    predicate SameSide(camp: Side) {
      content.Some? && content.value.1 == camp
    }
  }

  /** The abstract value of a board: 9 columns of 10 cells, indexed [x][y]. */
  type Grid = seq<seq<ChessPiece>>

  predicate WellFormed(g: Grid) {
    |g| == 9 && forall x | 0 <= x < 9 :: |g[x]| == 10
  }

  function At(g: Grid, p: Point): ChessPiece
    requires WellFormed(g) && p.Valid()
  {
    g[p.x][p.y]
  }

  /** The grid after writing `piece` at `p`: that cell is `piece`, every other cell keeps its value. */
  function Update(g: Grid, p: Point, piece: ChessPiece): (r: Grid)
    requires WellFormed(g) && p.Valid()
    ensures WellFormed(r)
    ensures At(r, p) == piece
    ensures forall q: Point | q.Valid() && q != p :: At(r, q) == At(g, q)
  {
    g[p.x := g[p.x][p.y := piece]]
  }

  /** The back rank, column by column: Rook Horse Elephant Guard King Guard Elephant Horse Rook. */
  function BackRank(x: nat): ChessType
    requires x < 9
  {
    if x == 0 || x == 8 then Rook
    else if x == 1 || x == 7 then Horse
    else if x == 2 || x == 6 then Elephant
    else if x == 3 || x == 5 then Guard
    else King
  }

  /** Pawns start on the even columns. */
  predicate IsPawnColumn(x: nat) {
    x == 0 || x == 2 || x == 4 || x == 6 || x == 8
  }

  /**
   * The opening layout as a rule: Red's back rank on row 0, cannons on row 2
   * at columns 1 and 7, pawns on row 3 at the even columns; Black mirrored on
   * rows 9, 7 and 6; every other cell empty.
   */
  function OpeningAt(x: nat, y: nat): ChessPiece
    requires x < 9
  {
    if y == 0 then ChessPiece(Some((BackRank(x), Red)))
    else if y == 9 then ChessPiece(Some((BackRank(x), Black)))
    else if y == 2 && (x == 1 || x == 7) then ChessPiece(Some((Cannon, Red)))
    else if y == 7 && (x == 1 || x == 7) then ChessPiece(Some((Cannon, Black)))
    else if y == 3 && IsPawnColumn(x) then ChessPiece(Some((Pawn, Red)))
    else if y == 6 && IsPawnColumn(x) then ChessPiece(Some((Pawn, Black)))
    else ChessPiece(None)
  }

  function Opening(): (g: Grid)
    ensures WellFormed(g)
    ensures forall p: Point | p.Valid() :: At(g, p) == OpeningAt(p.x, p.y)
  {
    seq(9, x requires 0 <= x < 9 => seq(10, y requires 0 <= y < 10 => OpeningAt(x, y)))
  }

  class ChessBoard {
    const cells: array2<ChessPiece>
    ghost var Contents: Grid

    ghost predicate Valid()
      reads this, cells
    {
      && cells.Length0 == 9 && cells.Length1 == 10
      && WellFormed(Contents)
      && forall x, y | 0 <= x < 9 && 0 <= y < 10 :: Contents[x][y] == cells[x, y]
    }

    /** A board in the opening layout, built cell by cell. */
    constructor ()
      ensures Valid() && fresh(cells)
      ensures Contents == Opening()
    {
      var board: Grid := seq(9, _ => seq(10, _ => ChessPiece(None)));
      // Red
      board := board[0 := board[0][0 := ChessPiece(Some((Rook, Red)))]];
      board := board[1 := board[1][0 := ChessPiece(Some((Horse, Red)))]];
      board := board[2 := board[2][0 := ChessPiece(Some((Elephant, Red)))]];
      board := board[3 := board[3][0 := ChessPiece(Some((Guard, Red)))]];
      board := board[4 := board[4][0 := ChessPiece(Some((King, Red)))]];
      board := board[5 := board[5][0 := ChessPiece(Some((Guard, Red)))]];
      board := board[6 := board[6][0 := ChessPiece(Some((Elephant, Red)))]];
      board := board[7 := board[7][0 := ChessPiece(Some((Horse, Red)))]];
      board := board[8 := board[8][0 := ChessPiece(Some((Rook, Red)))]];
      board := board[1 := board[1][2 := ChessPiece(Some((Cannon, Red)))]];
      board := board[7 := board[7][2 := ChessPiece(Some((Cannon, Red)))]];
      board := board[0 := board[0][3 := ChessPiece(Some((Pawn, Red)))]];
      board := board[2 := board[2][3 := ChessPiece(Some((Pawn, Red)))]];
      board := board[4 := board[4][3 := ChessPiece(Some((Pawn, Red)))]];
      board := board[6 := board[6][3 := ChessPiece(Some((Pawn, Red)))]];
      board := board[8 := board[8][3 := ChessPiece(Some((Pawn, Red)))]];
      // Black
      board := board[0 := board[0][9 := ChessPiece(Some((Rook, Black)))]];
      board := board[1 := board[1][9 := ChessPiece(Some((Horse, Black)))]];
      board := board[2 := board[2][9 := ChessPiece(Some((Elephant, Black)))]];
      board := board[3 := board[3][9 := ChessPiece(Some((Guard, Black)))]];
      board := board[4 := board[4][9 := ChessPiece(Some((King, Black)))]];
      board := board[5 := board[5][9 := ChessPiece(Some((Guard, Black)))]];
      board := board[6 := board[6][9 := ChessPiece(Some((Elephant, Black)))]];
      board := board[7 := board[7][9 := ChessPiece(Some((Horse, Black)))]];
      board := board[8 := board[8][9 := ChessPiece(Some((Rook, Black)))]];
      board := board[1 := board[1][7 := ChessPiece(Some((Cannon, Black)))]];
      board := board[7 := board[7][7 := ChessPiece(Some((Cannon, Black)))]];
      board := board[0 := board[0][6 := ChessPiece(Some((Pawn, Black)))]];
      board := board[2 := board[2][6 := ChessPiece(Some((Pawn, Black)))]];
      board := board[4 := board[4][6 := ChessPiece(Some((Pawn, Black)))]];
      board := board[6 := board[6][6 := ChessPiece(Some((Pawn, Black)))]];
      board := board[8 := board[8][6 := ChessPiece(Some((Pawn, Black)))]];
      cells := new ChessPiece[9, 10]((x, y) requires 0 <= x < 9 && 0 <= y < 10 => board[x][y]);
      Contents := board;
      forall x | 0 <= x < 9 ensures board[x] == Opening()[x] {
        forall y | 0 <= y < 10 ensures board[x][y] == Opening()[x][y] {
          assert At(Opening(), Point(x, y)) == OpeningAt(x, y);
        }
      }
    }

    /** The cell at `p`. */
    function Get(p: Point): (r: ChessPiece)
      reads this, cells
      requires Valid() && p.Valid()
      ensures r == At(Contents, p)
    {
      cells[p.x, p.y]
    }

    /** Writes `piece` at `p`: reading `p` back gives `piece`, and no other cell changes. */
    method Set(p: Point, piece: ChessPiece)
      requires Valid() && p.Valid()
      modifies this, cells
      ensures Valid()
      ensures Contents == Update(old(Contents), p, piece)
      ensures Get(p) == piece
      ensures forall q: Point | q.Valid() && q != p :: Get(q) == old(Get(q))
    {
      cells[p.x, p.y] := piece;
      Contents := Update(Contents, p, piece);
    }
  }

  /** Number of cells among the first `n` of `column` that hold a piece of `side`. */
  function CountColumn(column: seq<ChessPiece>, side: Side, n: nat): nat
    requires n <= |column|
  {
    if n == 0 then 0
    else CountColumn(column, side, n - 1) + (if column[n - 1].SameSide(side) then 1 else 0)
  }

  /** Number of cells of the first `n` columns of `g` that hold a piece of `side`. */
  function CountSide(g: Grid, side: Side, n: nat): nat
    requires WellFormed(g) && n <= 9
  {
    if n == 0 then 0
    else CountSide(g, side, n - 1) + CountColumn(g[n - 1], side, 10)
  }

  /** The opening has a Red Rook in the corner (0, 0). */
  lemma OpeningRedRookCorner()
    ensures At(Opening(), Point(0, 0)) == ChessPiece(Some((Rook, Red)))
  {
  }

  /** Exactly one King per side: Red's at (4, 0) and Black's at (4, 9). */
  lemma OpeningKings(p: Point)
    requires p.Valid()
    ensures At(Opening(), p) == ChessPiece(Some((King, Red))) <==> p == Point(4, 0)
    ensures At(Opening(), p) == ChessPiece(Some((King, Black))) <==> p == Point(4, 9)
  {
  }

  /** The layout is mirror-symmetric: (x, y) holds Red T iff (x, 9 - y) holds Black T. */
  lemma OpeningMirror(p: Point, t: ChessType)
    requires p.Valid()
    ensures At(Opening(), p) == ChessPiece(Some((t, Red)))
            <==> At(Opening(), Point(p.x, 9 - p.y)) == ChessPiece(Some((t, Black)))
  {
  }

  /** The two rows beside the river, y = 4 and y = 5, start empty. */
  lemma OpeningRiverRowsEmpty(x: nat)
    requires x < 9
    ensures At(Opening(), Point(x, 4)).IsEmpty() && At(Opening(), Point(x, 5)).IsEmpty()
  {
  }

  /** Column x of the opening holds one back-rank piece, a cannon at x = 1 or 7 and a pawn at even x, per side. */
  lemma {:induction false} OpeningColumnCount(x: nat, side: Side)
    requires x < 9
    ensures CountColumn(Opening()[x], side, 10)
            == 1 + (if x == 1 || x == 7 then 1 else 0) + (if IsPawnColumn(x) then 1 else 0)
  {
    var c := Opening()[x];
    var cannon := if x == 1 || x == 7 then 1 else 0;
    var pawn := if IsPawnColumn(x) then 1 else 0;
    var red := side == Red;
    assert forall y | 0 <= y < 10 :: c[y] == OpeningAt(x, y);
    assert CountColumn(c, side, 1) == (if red then 1 else 0);
    assert CountColumn(c, side, 2) == (if red then 1 else 0);
    assert CountColumn(c, side, 3) == (if red then 1 + cannon else 0);
    assert CountColumn(c, side, 4) == (if red then 1 + cannon + pawn else 0);
    assert CountColumn(c, side, 5) == (if red then 1 + cannon + pawn else 0);
    assert CountColumn(c, side, 6) == (if red then 1 + cannon + pawn else 0);
    assert CountColumn(c, side, 7) == (if red then 1 + cannon + pawn else pawn);
    assert CountColumn(c, side, 8) == (if red then 1 + cannon + pawn else pawn + cannon);
    assert CountColumn(c, side, 9) == (if red then 1 + cannon + pawn else pawn + cannon);
    assert CountColumn(c, side, 10) == 1 + cannon + pawn;
  }

  /** The opening has 16 pieces per side, hence 32 occupied cells. */
  lemma {:induction false} OpeningPieceCount(side: Side)
    ensures CountSide(Opening(), side, 9) == 16
  {
    var g := Opening();
    forall x | 0 <= x < 9
      ensures CountColumn(g[x], side, 10)
              == 1 + (if x == 1 || x == 7 then 1 else 0) + (if IsPawnColumn(x) then 1 else 0)
    {
      OpeningColumnCount(x, side);
    }
    assert CountSide(g, side, 1) == 2;
    assert CountSide(g, side, 2) == 4;
    assert CountSide(g, side, 3) == 6;
    assert CountSide(g, side, 4) == 7;
    assert CountSide(g, side, 5) == 9;
    assert CountSide(g, side, 6) == 10;
    assert CountSide(g, side, 7) == 12;
    assert CountSide(g, side, 8) == 14;
    assert CountSide(g, side, 9) == 16;
  }
}
