/**
 * The flat-array move generator: a board of 90 cells indexed by
 * row * 9 + col, and one generator per piece type that returns the
 * indices a piece standing at `index` may move to.
 */
module Xiangqi {

  datatype ChessType = BING | PAO | CHE | MA | XIANG | SHI | JIANG

  datatype ChessPiece = None | Chess(chessType: ChessType, black: bool)

  /** A board is exactly 90 cells. */
  predicate IsBoard(chesses: seq<ChessPiece>) {
    |chesses| == 90
  }

  predicate InBoard(row: int, col: int) {
    0 <= row < 10 && 0 <= col < 9
  }

  /** The index of a cell: row * 9 + col, below 90, and row and column are recovered from it. */
  function Idx(row: int, col: int): (i: nat)
    requires InBoard(row, col)
    ensures i < 90 && i / 9 == row && i % 9 == col
  {
    row * 9 + col
  }

  /** The cell at `row`, `col`. */
  function At(chesses: seq<ChessPiece>, row: int, col: int): ChessPiece
    requires IsBoard(chesses) && InBoard(row, col)
  {
    chesses[Idx(row, col)]
  }

  /** `piece` belongs to the side given by `black`. */
  predicate Own(piece: ChessPiece, black: bool) {
    piece.Chess? && piece.black == black
  }

  /** `index` is a cell of the board holding a piece: what every generator demands of its origin. */
  predicate IsOrigin(chesses: seq<ChessPiece>, index: nat) {
    IsBoard(chesses) && index < 90 && chesses[index].Chess?
  }

  /** Two cells with the same index are the same cell. */
  lemma IdxInjective(r1: int, c1: int, r2: int, c2: int)
    requires InBoard(r1, c1) && InBoard(r2, c2)
    ensures Idx(r1, c1) == Idx(r2, c2) <==> r1 == r2 && c1 == c2
  {
  }

  /**
   * The camp of the piece at a generator's origin. Each generator is called
   * only for its own piece type and panics otherwise; that is a precondition here.
   */
  function GetBlack(piece: ChessPiece, expectType: ChessType): (black: bool)
    requires piece.Chess? && piece.chessType == expectType
    ensures Own(piece, black) && !Own(piece, !black)
  {
    piece.black
  }

  // ------------------------------------------------------------------ rays

  /** The four ways the sliding generators scan: rows upwards or downwards, columns upwards or downwards. */
  datatype Heading = RowIncrease | RowDecrease | ColIncrease | ColDecrease

  function StepRow(row: int, h: Heading): int {
    match h
    case RowIncrease => row + 1
    case RowDecrease => row - 1
    case _ => row
  }

  function StepCol(col: int, h: Heading): int {
    match h
    case ColIncrease => col + 1
    case ColDecrease => col - 1
    case _ => col
  }

  /** Cells left before the edge along `h`. */
  function Remaining(row: int, col: int, h: Heading): nat
    requires InBoard(row, col)
  {
    match h
    case RowIncrease => 9 - row
    case RowDecrease => row
    case ColIncrease => 8 - col
    case ColDecrease => col
  }

  /** (`tr`, `tc`) lies beyond (`row`, `col`) along `h`. */
  predicate OnRay(row: int, col: int, h: Heading, tr: int, tc: int) {
    match h
    case RowIncrease => tc == col && tr > row
    case RowDecrease => tc == col && tr < row
    case ColIncrease => tr == row && tc > col
    case ColDecrease => tr == row && tc < col
  }

  /** Distinct cells on a shared row or column. */
  predicate Lined(row: int, col: int, tr: int, tc: int) {
    (row, col) != (tr, tc) && (row == tr || col == tc)
  }

  /** (`pr`, `pc`) lies strictly between (`row`, `col`) and (`tr`, `tc`). */
  predicate Between(row: int, col: int, pr: int, pc: int, tr: int, tc: int) {
    || (pr == row && tr == row && ((col < pc < tc) || (tc < pc < col)))
    || (pc == col && tc == col && ((row < pr < tr) || (tr < pr < row)))
  }

  /** Every cell strictly between the two is empty. */
  ghost predicate Clear(chesses: seq<ChessPiece>, row: int, col: int, tr: int, tc: int)
    requires IsBoard(chesses)
  {
    forall pr, pc | InBoard(pr, pc) && Between(row, col, pr, pc, tr, tc) :: At(chesses, pr, pc).None?
  }

  /** Exactly one piece, the screen, stands strictly between the two. */
  ghost predicate Screened(chesses: seq<ChessPiece>, row: int, col: int, tr: int, tc: int)
    requires IsBoard(chesses)
  {
    exists sr, sc ::
      && InBoard(sr, sc) && Between(row, col, sr, sc, tr, tc) && At(chesses, sr, sc).Chess?
      && Clear(chesses, row, col, sr, sc) && Clear(chesses, sr, sc, tr, tc)
  }

  /** What a `che` loop collects along `h`: empty cells up to the first piece, which counts only if it is an enemy. */
  ghost function CheRay(chesses: seq<ChessPiece>, black: bool, row: int, col: int, h: Heading): (r: seq<nat>)
    requires IsBoard(chesses) && InBoard(row, col)
    ensures forall t <- r :: t < 90
    decreases Remaining(row, col, h)
  {
    var (nr, nc) := (StepRow(row, h), StepCol(col, h));
    if !InBoard(nr, nc) then []
    else if At(chesses, nr, nc).None? then [Idx(nr, nc)] + CheRay(chesses, black, nr, nc, h)
    else if At(chesses, nr, nc).black != black then [Idx(nr, nc)]
    else []
  }

  /**
   * What the two `pao` loops collect along `h`: before the screen (`met`
   * false) every empty cell; past it only the next piece, if an enemy.
   */
  ghost function PaoRay(chesses: seq<ChessPiece>, black: bool, row: int, col: int, h: Heading, met: bool): (r: seq<nat>)
    requires IsBoard(chesses) && InBoard(row, col)
    ensures forall t <- r :: t < 90
    decreases Remaining(row, col, h)
  {
    var (nr, nc) := (StepRow(row, h), StepCol(col, h));
    if !InBoard(nr, nc) then []
    else if At(chesses, nr, nc).None? then (if met then [] else [Idx(nr, nc)]) + PaoRay(chesses, black, nr, nc, h, met)
    else if !met then PaoRay(chesses, black, nr, nc, h, true)
    else if At(chesses, nr, nc).black != black then [Idx(nr, nc)]
    else []
  }

  /** One step along a ray: the next cell is adjacent, and the ray beyond it is the rest of the ray. */
  lemma StepAlong(row: int, col: int, h: Heading, tr: int, tc: int)
    requires InBoard(row, col) && InBoard(StepRow(row, h), StepCol(col, h))
    ensures Remaining(StepRow(row, h), StepCol(col, h), h) < Remaining(row, col, h)
    ensures OnRay(row, col, h, tr, tc)
            <==> (tr, tc) == (StepRow(row, h), StepCol(col, h)) || OnRay(StepRow(row, h), StepCol(col, h), h, tr, tc)
    ensures OnRay(StepRow(row, h), StepCol(col, h), h, tr, tc) ==> Between(row, col, StepRow(row, h), StepCol(col, h), tr, tc)
  {
  }

  /** Past an adjacent cell, the way on is clear iff that cell is empty and the way from it is clear. */
  lemma ClearStep(chesses: seq<ChessPiece>, row: int, col: int, h: Heading, tr: int, tc: int)
    requires IsBoard(chesses) && InBoard(row, col) && InBoard(StepRow(row, h), StepCol(col, h))
    requires OnRay(StepRow(row, h), StepCol(col, h), h, tr, tc)
    ensures Clear(chesses, row, col, tr, tc)
            <==> At(chesses, StepRow(row, h), StepCol(col, h)).None? && Clear(chesses, StepRow(row, h), StepCol(col, h), tr, tc)
  {
    var (nr, nc) := (StepRow(row, h), StepCol(col, h));
    StepAlong(row, col, h, tr, tc);
    if At(chesses, nr, nc).None? && Clear(chesses, nr, nc, tr, tc) {
      forall pr, pc | InBoard(pr, pc) && Between(row, col, pr, pc, tr, tc)
        ensures At(chesses, pr, pc).None?
      {
        if (pr, pc) != (nr, nc) {
          assert Between(nr, nc, pr, pc, tr, tc);
        }
      }
    }
  }

  /** A `che` loop collects a cell iff it lies on the ray with nothing between and no own piece on it. */
  lemma {:induction false} CheRayMembers(chesses: seq<ChessPiece>, black: bool, row: int, col: int, h: Heading, tr: int, tc: int)
    requires IsBoard(chesses) && InBoard(row, col) && InBoard(tr, tc)
    ensures Idx(tr, tc) in CheRay(chesses, black, row, col, h)
            <==> OnRay(row, col, h, tr, tc) && Clear(chesses, row, col, tr, tc) && !Own(At(chesses, tr, tc), black)
    decreases Remaining(row, col, h)
  {
    var (nr, nc) := (StepRow(row, h), StepCol(col, h));
    if InBoard(nr, nc) {
      StepAlong(row, col, h, tr, tc);
      IdxInjective(nr, nc, tr, tc);
      if OnRay(nr, nc, h, tr, tc) {
        ClearStep(chesses, row, col, h, tr, tc);
      }
      if At(chesses, nr, nc).None? {
        CheRayMembers(chesses, black, nr, nc, h, tr, tc);
      }
    }
  }

  /** Past the screen a `pao` loop collects a cell iff it is the next piece and an enemy. */
  lemma {:induction false} PaoRayMetMembers(chesses: seq<ChessPiece>, black: bool, row: int, col: int, h: Heading, tr: int, tc: int)
    requires IsBoard(chesses) && InBoard(row, col) && InBoard(tr, tc)
    ensures Idx(tr, tc) in PaoRay(chesses, black, row, col, h, true)
            <==> && OnRay(row, col, h, tr, tc) && Clear(chesses, row, col, tr, tc)
                 && At(chesses, tr, tc).Chess? && !Own(At(chesses, tr, tc), black)
    decreases Remaining(row, col, h)
  {
    var (nr, nc) := (StepRow(row, h), StepCol(col, h));
    if InBoard(nr, nc) {
      StepAlong(row, col, h, tr, tc);
      IdxInjective(nr, nc, tr, tc);
      if OnRay(nr, nc, h, tr, tc) {
        ClearStep(chesses, row, col, h, tr, tc);
      }
      if At(chesses, nr, nc).None? {
        PaoRayMetMembers(chesses, black, nr, nc, h, tr, tc);
      }
    }
  }

  /** Beyond an empty neighbour, a screen between the origin and a cell is a screen between the neighbour and that cell. */
  lemma ScreenedPastEmpty(chesses: seq<ChessPiece>, row: int, col: int, h: Heading, tr: int, tc: int)
    requires IsBoard(chesses) && InBoard(row, col) && InBoard(StepRow(row, h), StepCol(col, h))
    requires OnRay(StepRow(row, h), StepCol(col, h), h, tr, tc)
    requires At(chesses, StepRow(row, h), StepCol(col, h)).None?
    ensures Screened(chesses, row, col, tr, tc) <==> Screened(chesses, StepRow(row, h), StepCol(col, h), tr, tc)
  {
    var (nr, nc) := (StepRow(row, h), StepCol(col, h));
    StepAlong(row, col, h, tr, tc);
    if Screened(chesses, row, col, tr, tc) {
      var sr, sc :| && InBoard(sr, sc) && Between(row, col, sr, sc, tr, tc) && At(chesses, sr, sc).Chess?
                     && Clear(chesses, row, col, sr, sc) && Clear(chesses, sr, sc, tr, tc);
      assert OnRay(nr, nc, h, sr, sc);
      ClearStep(chesses, row, col, h, sr, sc);
      assert Between(nr, nc, sr, sc, tr, tc);
    }
    if Screened(chesses, nr, nc, tr, tc) {
      var sr, sc :| && InBoard(sr, sc) && Between(nr, nc, sr, sc, tr, tc) && At(chesses, sr, sc).Chess?
                     && Clear(chesses, nr, nc, sr, sc) && Clear(chesses, sr, sc, tr, tc);
      assert OnRay(nr, nc, h, sr, sc);
      ClearStep(chesses, row, col, h, sr, sc);
      assert Between(row, col, sr, sc, tr, tc);
    }
  }

  /** When the neighbour holds a piece, it is the only possible screen. */
  lemma ScreenedByNeighbour(chesses: seq<ChessPiece>, row: int, col: int, h: Heading, tr: int, tc: int)
    requires IsBoard(chesses) && InBoard(row, col) && InBoard(StepRow(row, h), StepCol(col, h))
    requires OnRay(StepRow(row, h), StepCol(col, h), h, tr, tc)
    requires At(chesses, StepRow(row, h), StepCol(col, h)).Chess?
    ensures Screened(chesses, row, col, tr, tc) <==> Clear(chesses, StepRow(row, h), StepCol(col, h), tr, tc)
  {
    var (nr, nc) := (StepRow(row, h), StepCol(col, h));
    StepAlong(row, col, h, tr, tc);
    if Screened(chesses, row, col, tr, tc) {
      var sr, sc :| && InBoard(sr, sc) && Between(row, col, sr, sc, tr, tc) && At(chesses, sr, sc).Chess?
                     && Clear(chesses, row, col, sr, sc) && Clear(chesses, sr, sc, tr, tc);
      assert (sr, sc) == (nr, nc) || Between(row, col, nr, nc, sr, sc);
    }
    if Clear(chesses, nr, nc, tr, tc) {
      assert Clear(chesses, row, col, nr, nc);
      assert Between(row, col, nr, nc, tr, tc);
    }
  }

  /** Before the screen a `pao` loop collects a cell iff it is an empty cell with a clear way or an enemy behind one screen. */
  lemma {:induction false} PaoRayMembers(chesses: seq<ChessPiece>, black: bool, row: int, col: int, h: Heading, tr: int, tc: int)
    requires IsBoard(chesses) && InBoard(row, col) && InBoard(tr, tc)
    ensures Idx(tr, tc) in PaoRay(chesses, black, row, col, h, false)
            <==> && OnRay(row, col, h, tr, tc)
                 && (|| (At(chesses, tr, tc).None? && Clear(chesses, row, col, tr, tc))
                     || (At(chesses, tr, tc).Chess? && !Own(At(chesses, tr, tc), black) && Screened(chesses, row, col, tr, tc)))
    decreases Remaining(row, col, h)
  {
    var (nr, nc) := (StepRow(row, h), StepCol(col, h));
    if InBoard(nr, nc) {
      StepAlong(row, col, h, tr, tc);
      IdxInjective(nr, nc, tr, tc);
      assert Clear(chesses, row, col, nr, nc);
      if (tr, tc) == (nr, nc) {
        assert !Screened(chesses, row, col, nr, nc);
      }
      if At(chesses, nr, nc).None? {
        PaoRayMembers(chesses, black, nr, nc, h, tr, tc);
        if OnRay(nr, nc, h, tr, tc) {
          ClearStep(chesses, row, col, h, tr, tc);
          ScreenedPastEmpty(chesses, row, col, h, tr, tc);
        }
      } else {
        PaoRayMetMembers(chesses, black, nr, nc, h, tr, tc);
        if OnRay(nr, nc, h, tr, tc) {
          ClearStep(chesses, row, col, h, tr, tc);
          ScreenedByNeighbour(chesses, row, col, h, tr, tc);
        }
      }
    } else {
      assert !OnRay(row, col, h, tr, tc);
    }
  }

  /** The four `che` rays together hold exactly the cells a rook-like piece at (`row`, `col`) may reach. */
  lemma CheRaysComplete(chesses: seq<ChessPiece>, black: bool, row: int, col: int, t: nat)
    requires IsBoard(chesses) && InBoard(row, col)
    ensures (|| t in CheRay(chesses, black, row, col, RowIncrease) || t in CheRay(chesses, black, row, col, RowDecrease)
             || t in CheRay(chesses, black, row, col, ColIncrease) || t in CheRay(chesses, black, row, col, ColDecrease))
            <==> && t < 90 && Lined(row, col, t / 9, t % 9)
                 && Clear(chesses, row, col, t / 9, t % 9) && !Own(chesses[t], black)
  {
    if t < 90 {
      var (tr, tc) := (t / 9, t % 9);
      assert Idx(tr, tc) == t;
      CheRayMembers(chesses, black, row, col, RowIncrease, tr, tc);
      CheRayMembers(chesses, black, row, col, RowDecrease, tr, tc);
      CheRayMembers(chesses, black, row, col, ColIncrease, tr, tc);
      CheRayMembers(chesses, black, row, col, ColDecrease, tr, tc);
    }
  }

  /** The four `pao` rays together hold exactly the cells a cannon at (`row`, `col`) may reach. */
  lemma PaoRaysComplete(chesses: seq<ChessPiece>, black: bool, row: int, col: int, t: nat)
    requires IsBoard(chesses) && InBoard(row, col)
    ensures (|| t in PaoRay(chesses, black, row, col, RowIncrease, false) || t in PaoRay(chesses, black, row, col, RowDecrease, false)
             || t in PaoRay(chesses, black, row, col, ColIncrease, false) || t in PaoRay(chesses, black, row, col, ColDecrease, false))
            <==> && t < 90 && Lined(row, col, t / 9, t % 9)
                 && (|| (chesses[t].None? && Clear(chesses, row, col, t / 9, t % 9))
                     || (chesses[t].Chess? && !Own(chesses[t], black) && Screened(chesses, row, col, t / 9, t % 9)))
  {
    if t < 90 {
      var (tr, tc) := (t / 9, t % 9);
      assert Idx(tr, tc) == t;
      PaoRayMembers(chesses, black, row, col, RowIncrease, tr, tc);
      PaoRayMembers(chesses, black, row, col, RowDecrease, tr, tc);
      PaoRayMembers(chesses, black, row, col, ColIncrease, tr, tc);
      PaoRayMembers(chesses, black, row, col, ColDecrease, tr, tc);
    }
  }

  // -------------------------------------------------------------------- che

  /** The cells a `che` at `index` may reach: along its row or column, nothing between, no own piece on the cell. */
  ghost predicate CheTarget(chesses: seq<ChessPiece>, index: nat, t: nat)
    requires IsOrigin(chesses, index)
  {
    && t < 90 && Lined(index / 9, index % 9, t / 9, t % 9)
    && Clear(chesses, index / 9, index % 9, t / 9, t % 9)
    && !Own(chesses[t], chesses[index].black)
  }

  /** The `row_increase` loop of `che`. */
  method CheRowIncrease(chesses: seq<ChessPiece>, black: bool, row: int, col: int, result0: seq<nat>) returns (result: seq<nat>)
    requires IsBoard(chesses) && InBoard(row, col)
    ensures result == result0 + CheRay(chesses, black, row, col, RowIncrease)
  {
    result := result0;
    var rowIncrease := row + 1;
    while rowIncrease < 10
      invariant row < rowIncrease <= 10
      invariant result + CheRay(chesses, black, rowIncrease - 1, col, RowIncrease) == result0 + CheRay(chesses, black, row, col, RowIncrease)
      decreases 10 - rowIncrease
    {
      match chesses[rowIncrease * 9 + col] {
        case None =>
          result := result + [rowIncrease * 9 + col];
        case Chess(_, chessBlack) =>
          if chessBlack != black {
            result := result + [rowIncrease * 9 + col];
          }
          break;
      }
      rowIncrease := rowIncrease + 1;
    }
  }

  /** The `row_decrease` loop of `che`, entered only when `row > 0`. */
  method CheRowDecrease(chesses: seq<ChessPiece>, black: bool, row: int, col: int, result0: seq<nat>) returns (result: seq<nat>)
    requires IsBoard(chesses) && InBoard(row, col)
    ensures result == result0 + CheRay(chesses, black, row, col, RowDecrease)
  {
    result := result0;
    if row > 0 {
      var rowDecrease := row - 1;
      while true
        invariant 0 <= rowDecrease < row
        invariant result + CheRay(chesses, black, rowDecrease + 1, col, RowDecrease) == result0 + CheRay(chesses, black, row, col, RowDecrease)
        decreases rowDecrease
      {
        match chesses[rowDecrease * 9 + col] {
          case None =>
            result := result + [rowDecrease * 9 + col];
          case Chess(_, chessBlack) =>
            if chessBlack != black {
              result := result + [rowDecrease * 9 + col];
            }
            break;
        }
        if rowDecrease == 0 {
          break;
        }
        rowDecrease := rowDecrease - 1;
      }
    }
  }

  /** The `col_increase` loop of `che`. */
  method CheColIncrease(chesses: seq<ChessPiece>, black: bool, row: int, col: int, result0: seq<nat>) returns (result: seq<nat>)
    requires IsBoard(chesses) && InBoard(row, col)
    ensures result == result0 + CheRay(chesses, black, row, col, ColIncrease)
  {
    result := result0;
    var colIncrease := col + 1;
    while colIncrease < 9
      invariant col < colIncrease <= 9
      invariant result + CheRay(chesses, black, row, colIncrease - 1, ColIncrease) == result0 + CheRay(chesses, black, row, col, ColIncrease)
      decreases 9 - colIncrease
    {
      match chesses[row * 9 + colIncrease] {
        case None =>
          result := result + [row * 9 + colIncrease];
        case Chess(_, chessBlack) =>
          if chessBlack != black {
            result := result + [row * 9 + colIncrease];
          }
          break;
      }
      colIncrease := colIncrease + 1;
    }
  }

  /** The `col_decrease` loop of `che`: it looks at column `col_decrease - 1`. */
  method CheColDecrease(chesses: seq<ChessPiece>, black: bool, row: int, col: int, result0: seq<nat>) returns (result: seq<nat>)
    requires IsBoard(chesses) && InBoard(row, col)
    ensures result == result0 + CheRay(chesses, black, row, col, ColDecrease)
  {
    result := result0;
    var colDecrease := col;
    while colDecrease > 0
      invariant 0 <= colDecrease <= col
      invariant result + CheRay(chesses, black, row, colDecrease, ColDecrease) == result0 + CheRay(chesses, black, row, col, ColDecrease)
    {
      match chesses[row * 9 + colDecrease - 1] {
        case None =>
          result := result + [row * 9 + colDecrease - 1];
        case Chess(_, chessBlack) =>
          if black != chessBlack {
            result := result + [row * 9 + colDecrease - 1];
          }
          break;
      }
      colDecrease := colDecrease - 1;
    }
  }

  /** `che`: every cell along its row and column up to the first piece, which is included only if it is an enemy. */
  method Che(chesses: seq<ChessPiece>, index: nat) returns (result: seq<nat>)
    requires IsBoard(chesses) && index < 90
    requires chesses[index].Chess? && chesses[index].chessType == CHE
    ensures forall t: nat :: t in result <==> CheTarget(chesses, index, t)
  {
    var (row, col) := (index / 9, index % 9);
    result := [];
    var black := GetBlack(chesses[index], CHE);
    result := CheRowIncrease(chesses, black, row, col, result);
    result := CheRowDecrease(chesses, black, row, col, result);
    result := CheColIncrease(chesses, black, row, col, result);
    result := CheColDecrease(chesses, black, row, col, result);
    forall t: nat
      ensures t in result <==> CheTarget(chesses, index, t)
    {
      CheRaysComplete(chesses, black, row, col, t);
    }
  }

  // -------------------------------------------------------------------- pao

  /** The cells a `pao` at `index` may reach: an empty cell with nothing between, or an enemy behind exactly one screen. */
  ghost predicate PaoTarget(chesses: seq<ChessPiece>, index: nat, t: nat)
    requires IsOrigin(chesses, index)
  {
    && t < 90 && Lined(index / 9, index % 9, t / 9, t % 9)
    && (|| (chesses[t].None? && Clear(chesses, index / 9, index % 9, t / 9, t % 9))
        || (chesses[t].Chess? && !Own(chesses[t], chesses[index].black) && Screened(chesses, index / 9, index % 9, t / 9, t % 9)))
  }

  /** The first `row_increase` loop of `pao`: empty cells, stopping at the screen (if any). */
  method PaoRowIncreaseScreen(chesses: seq<ChessPiece>, black: bool, row: int, col: int, result0: seq<nat>)
    returns (result: seq<nat>, rowIncrease: int)
    requires IsBoard(chesses) && InBoard(row, col)
    ensures row < rowIncrease <= 10
    ensures rowIncrease < 10 ==>
      result + PaoRay(chesses, black, rowIncrease, col, RowIncrease, true) == result0 + PaoRay(chesses, black, row, col, RowIncrease, false)
    ensures rowIncrease == 10 ==> result == result0 + PaoRay(chesses, black, row, col, RowIncrease, false)
  {
    ghost var full := result0 + PaoRay(chesses, black, row, col, RowIncrease, false);
    result := result0;
    rowIncrease := row + 1;
    while rowIncrease < 10
      invariant row < rowIncrease <= 10
      invariant result + PaoRay(chesses, black, rowIncrease - 1, col, RowIncrease, false) == full
      decreases 10 - rowIncrease
    {
      match chesses[rowIncrease * 9 + col] {
        case None =>
          result := result + [rowIncrease * 9 + col];
        case Chess(_, _) =>
          break;
      }
      rowIncrease := rowIncrease + 1;
    }
  }

  /** The second `row_increase` loop of `pao`, from row `start` on: the first piece, if an enemy. */
  method PaoRowIncreaseBeyond(chesses: seq<ChessPiece>, black: bool, start: int, col: int, result0: seq<nat>)
    returns (result: seq<nat>)
    requires IsBoard(chesses) && InBoard(start - 1, col) && start <= 9
    ensures result == result0 + PaoRay(chesses, black, start - 1, col, RowIncrease, true)
  {
    ghost var full := result0 + PaoRay(chesses, black, start - 1, col, RowIncrease, true);
    result := result0;
    var rowIncrease := start;
    while rowIncrease < 10
      invariant start <= rowIncrease <= 10
      invariant result + PaoRay(chesses, black, rowIncrease - 1, col, RowIncrease, true) == full
      decreases 10 - rowIncrease
    {
      match chesses[rowIncrease * 9 + col] {
        case None =>
        case Chess(_, b) =>
          if b != black {
            result := result + [rowIncrease * 9 + col];
          }
          break;
      }
      rowIncrease := rowIncrease + 1;
    }
  }

  /** The two `row_increase` loops of `pao`. */
  method PaoRowIncrease(chesses: seq<ChessPiece>, black: bool, row: int, col: int, result0: seq<nat>) returns (result: seq<nat>)
    requires IsBoard(chesses) && InBoard(row, col)
    ensures result == result0 + PaoRay(chesses, black, row, col, RowIncrease, false)
  {
    var rowIncrease;
    result, rowIncrease := PaoRowIncreaseScreen(chesses, black, row, col, result0);
    if rowIncrease < 9 {
      rowIncrease := rowIncrease + 1;
      result := PaoRowIncreaseBeyond(chesses, black, rowIncrease, col, result);
    }
  }

  /** The first `row_decrease` loop of `pao` (a `loop` that also stops at row 0); `screened` tells which exit was taken. */
  method PaoRowDecreaseScreen(chesses: seq<ChessPiece>, black: bool, row: int, col: int, result0: seq<nat>)
    returns (result: seq<nat>, rowDecrease: int, ghost screened: bool)
    requires IsBoard(chesses) && InBoard(row, col) && row > 0
    ensures 0 <= rowDecrease < row
    ensures screened ==>
      result + PaoRay(chesses, black, rowDecrease, col, RowDecrease, true) == result0 + PaoRay(chesses, black, row, col, RowDecrease, false)
    ensures !screened ==> rowDecrease == 0 && result == result0 + PaoRay(chesses, black, row, col, RowDecrease, false)
  {
    ghost var full := result0 + PaoRay(chesses, black, row, col, RowDecrease, false);
    result := result0;
    rowDecrease := row - 1;
    screened := false;
    while true
      invariant 0 <= rowDecrease < row
      invariant !screened
      invariant result + PaoRay(chesses, black, rowDecrease + 1, col, RowDecrease, false) == full
      decreases rowDecrease
    {
      match chesses[rowDecrease * 9 + col] {
        case None =>
          result := result + [rowDecrease * 9 + col];
        case Chess(_, _) =>
          screened := true;
          break;
      }
      if rowDecrease == 0 {
        break;
      }
      rowDecrease := rowDecrease - 1;
    }
  }

  /** The second `row_decrease` loop of `pao`, from row `start` down: the first piece, if an enemy. */
  method PaoRowDecreaseBeyond(chesses: seq<ChessPiece>, black: bool, start: int, col: int, result0: seq<nat>)
    returns (result: seq<nat>)
    requires IsBoard(chesses) && InBoard(start + 1, col) && start >= 0
    ensures result == result0 + PaoRay(chesses, black, start + 1, col, RowDecrease, true)
  {
    ghost var full := result0 + PaoRay(chesses, black, start + 1, col, RowDecrease, true);
    result := result0;
    var rowDecrease := start;
    while true
      invariant 0 <= rowDecrease <= start
      invariant result + PaoRay(chesses, black, rowDecrease + 1, col, RowDecrease, true) == full
      decreases rowDecrease
    {
      match chesses[rowDecrease * 9 + col] {
        case None =>
        case Chess(_, b) =>
          if b != black {
            result := result + [rowDecrease * 9 + col];
          }
          break;
      }
      if rowDecrease == 0 {
        break;
      }
      rowDecrease := rowDecrease - 1;
    }
  }

  /** The two `row_decrease` loops of `pao`, entered only when `row > 0`. */
  method PaoRowDecrease(chesses: seq<ChessPiece>, black: bool, row: int, col: int, result0: seq<nat>) returns (result: seq<nat>)
    requires IsBoard(chesses) && InBoard(row, col)
    ensures result == result0 + PaoRay(chesses, black, row, col, RowDecrease, false)
  {
    result := result0;
    if row > 0 {
      var rowDecrease;
      ghost var screened;
      result, rowDecrease, screened := PaoRowDecreaseScreen(chesses, black, row, col, result);
      if rowDecrease > 0 {
        rowDecrease := rowDecrease - 1;
        result := PaoRowDecreaseBeyond(chesses, black, rowDecrease, col, result);
      }
    }
  }

  /** The first `col_increase` loop of `pao`. */
  method PaoColIncreaseScreen(chesses: seq<ChessPiece>, black: bool, row: int, col: int, result0: seq<nat>)
    returns (result: seq<nat>, colIncrease: int)
    requires IsBoard(chesses) && InBoard(row, col)
    ensures col < colIncrease <= 9
    ensures colIncrease < 9 ==>
      result + PaoRay(chesses, black, row, colIncrease, ColIncrease, true) == result0 + PaoRay(chesses, black, row, col, ColIncrease, false)
    ensures colIncrease == 9 ==> result == result0 + PaoRay(chesses, black, row, col, ColIncrease, false)
  {
    ghost var full := result0 + PaoRay(chesses, black, row, col, ColIncrease, false);
    result := result0;
    colIncrease := col + 1;
    while colIncrease < 9
      invariant col < colIncrease <= 9
      invariant result + PaoRay(chesses, black, row, colIncrease - 1, ColIncrease, false) == full
      decreases 9 - colIncrease
    {
      match chesses[row * 9 + colIncrease] {
        case None =>
          result := result + [row * 9 + colIncrease];
        case Chess(_, _) =>
          break;
      }
      colIncrease := colIncrease + 1;
    }
  }

  /** The second `col_increase` loop of `pao`, from column `start` on. */
  method PaoColIncreaseBeyond(chesses: seq<ChessPiece>, black: bool, row: int, start: int, result0: seq<nat>)
    returns (result: seq<nat>)
    requires IsBoard(chesses) && InBoard(row, start - 1) && start <= 8
    ensures result == result0 + PaoRay(chesses, black, row, start - 1, ColIncrease, true)
  {
    ghost var full := result0 + PaoRay(chesses, black, row, start - 1, ColIncrease, true);
    result := result0;
    var colIncrease := start;
    while colIncrease < 9
      invariant start <= colIncrease <= 9
      invariant result + PaoRay(chesses, black, row, colIncrease - 1, ColIncrease, true) == full
      decreases 9 - colIncrease
    {
      assert At(chesses, row, colIncrease) == chesses[row * 9 + colIncrease];
      match chesses[row * 9 + colIncrease] {
        case None =>
        case Chess(_, b) =>
          if b != black {
            result := result + [row * 9 + colIncrease];
          }
          break;
      }
      colIncrease := colIncrease + 1;
    }
  }

  /** The two `col_increase` loops of `pao`. */
  method PaoColIncrease(chesses: seq<ChessPiece>, black: bool, row: int, col: int, result0: seq<nat>) returns (result: seq<nat>)
    requires IsBoard(chesses) && InBoard(row, col)
    ensures result == result0 + PaoRay(chesses, black, row, col, ColIncrease, false)
  {
    var colIncrease;
    result, colIncrease := PaoColIncreaseScreen(chesses, black, row, col, result0);
    if colIncrease < 8 {
      colIncrease := colIncrease + 1;
      result := PaoColIncreaseBeyond(chesses, black, row, colIncrease, result);
    }
  }

  /** The first `col_decrease` loop of `pao`: it looks at column `col_decrease - 1`. */
  method PaoColDecreaseScreen(chesses: seq<ChessPiece>, black: bool, row: int, col: int, result0: seq<nat>)
    returns (result: seq<nat>, colDecrease: int)
    requires IsBoard(chesses) && InBoard(row, col)
    ensures 0 <= colDecrease <= col
    ensures colDecrease > 0 ==>
      result + PaoRay(chesses, black, row, colDecrease - 1, ColDecrease, true) == result0 + PaoRay(chesses, black, row, col, ColDecrease, false)
    ensures colDecrease == 0 ==> result == result0 + PaoRay(chesses, black, row, col, ColDecrease, false)
  {
    ghost var full := result0 + PaoRay(chesses, black, row, col, ColDecrease, false);
    result := result0;
    colDecrease := col;
    while colDecrease > 0
      invariant 0 <= colDecrease <= col
      invariant result + PaoRay(chesses, black, row, colDecrease, ColDecrease, false) == full
    {
      match chesses[row * 9 + colDecrease - 1] {
        case None =>
          result := result + [row * 9 + colDecrease - 1];
        case Chess(_, _) =>
          break;
      }
      colDecrease := colDecrease - 1;
    }
  }

  /** The second `col_decrease` loop of `pao`, looking at columns `start - 1` down to 0. */
  method PaoColDecreaseBeyond(chesses: seq<ChessPiece>, black: bool, row: int, start: int, result0: seq<nat>)
    returns (result: seq<nat>)
    requires IsBoard(chesses) && InBoard(row, start)
    ensures result == result0 + PaoRay(chesses, black, row, start, ColDecrease, true)
  {
    ghost var full := result0 + PaoRay(chesses, black, row, start, ColDecrease, true);
    result := result0;
    var colDecrease := start;
    while colDecrease > 0
      invariant 0 <= colDecrease <= start
      invariant result + PaoRay(chesses, black, row, colDecrease, ColDecrease, true) == full
    {
      match chesses[row * 9 + colDecrease - 1] {
        case None =>
        case Chess(_, b) =>
          if b != black {
            result := result + [row * 9 + colDecrease - 1];
          }
          break;
      }
      colDecrease := colDecrease - 1;
    }
  }

  /** The two `col_decrease` loops of `pao`. */
  method PaoColDecrease(chesses: seq<ChessPiece>, black: bool, row: int, col: int, result0: seq<nat>) returns (result: seq<nat>)
    requires IsBoard(chesses) && InBoard(row, col)
    ensures result == result0 + PaoRay(chesses, black, row, col, ColDecrease, false)
  {
    var colDecrease;
    result, colDecrease := PaoColDecreaseScreen(chesses, black, row, col, result0);
    if colDecrease > 1 {
      colDecrease := colDecrease - 1;
      result := PaoColDecreaseBeyond(chesses, black, row, colDecrease, result);
    }
  }

  /** `pao`: empty cells up to the first piece along each line, and the first piece past that screen if it is an enemy. */
  method Pao(chesses: seq<ChessPiece>, index: nat) returns (result: seq<nat>)
    requires IsBoard(chesses) && index < 90
    requires chesses[index].Chess? && chesses[index].chessType == PAO
    ensures forall t: nat :: t in result <==> PaoTarget(chesses, index, t)
  {
    var (row, col) := (index / 9, index % 9);
    result := [];
    var black := GetBlack(chesses[index], PAO);
    result := PaoRowIncrease(chesses, black, row, col, result);
    result := PaoRowDecrease(chesses, black, row, col, result);
    result := PaoColIncrease(chesses, black, row, col, result);
    result := PaoColDecrease(chesses, black, row, col, result);
    forall t: nat
      ensures t in result <==> PaoTarget(chesses, index, t)
    {
      PaoRaysComplete(chesses, black, row, col, t);
    }
  }

  // ----------------------------------------------------------- single steps

  function Abs(x: int): nat {
    if x < 0 then -x else x
  }

  /** The palace of a side: columns 3 to 5 of rows 0 to 2 (red) or 7 to 9 (black). */
  predicate InPalace(black: bool, row: int, col: int) {
    3 <= col <= 5 && (if black then 7 <= row <= 9 else 0 <= row <= 2)
  }

  /** The half of the board a side starts on: rows 0 to 4 for red, 5 to 9 for black. */
  predicate OwnHalf(black: bool, row: int) {
    if black then row >= 5 else row <= 4
  }

  /** The row step towards the other side: red moves to higher rows, black to lower ones. */
  function Forward(black: bool): int {
    if black then -1 else 1
  }

  /** `t` is the index of the cell at `row`, `col` exactly when its quotient and remainder by 9 are `row` and `col`. */
  lemma CellOf(t: nat, row: int, col: int)
    requires InBoard(row, col)
    ensures t == row * 9 + col <==> t < 90 && t / 9 == row && t % 9 == col
  {
    if t < 90 && t / 9 == row && t % 9 == col {
      assert t == (t / 9) * 9 + t % 9;
    }
    if t == row * 9 + col {
      assert t == Idx(row, col);
    }
  }

  /**
   * The cell at `row`, `col` as a list of one index when a piece of side `black` may land
   * there (it is empty or holds an enemy), and the empty list when an own piece stands there.
   */
  function Landing(chesses: seq<ChessPiece>, black: bool, row: int, col: int): (r: seq<nat>)
    requires IsBoard(chesses) && InBoard(row, col)
    ensures forall t: nat :: t in r <==> t < 90 && t / 9 == row && t % 9 == col && !Own(chesses[t], black)
  {
    if Own(At(chesses, row, col), black) then []
    else
      var i := Idx(row, col);
      assert forall t: nat | t < 90 && t / 9 == row && t % 9 == col :: t == (t / 9) * 9 + t % 9 == i;
      [i]
  }

  /** The push every single-step generator repeats: the cell at `row`, `col` unless an own piece stands there. */
  method PushLanding(chesses: seq<ChessPiece>, black: bool, row: int, col: int, result0: seq<nat>) returns (result: seq<nat>)
    requires IsBoard(chesses) && InBoard(row, col)
    ensures result == result0 + Landing(chesses, black, row, col)
  {
    var nxt := row * 9 + col;
    if Own(chesses[nxt], black) {
      result := result0;
    } else {
      result := result0 + [nxt];
    }
  }

  /**
   * The cells a `jiang` may reach: one step along its row or column, where a step away from
   * column 4 or towards the other side must end inside the palace lines (columns 3 to 5, the
   * three palace rows) and a step the other way is always allowed; no own piece on the cell.
   */
  predicate JiangTarget(chesses: seq<ChessPiece>, index: nat, t: nat)
    requires IsOrigin(chesses, index)
  {
    var (row, col, tr, tc, black) := (index / 9, index % 9, t / 9, t % 9, chesses[index].black);
    && t < 90 && !Own(chesses[t], black)
    && (|| (tr == row && ((tc == col - 1 && tc >= 3) || (tc == col + 1 && tc <= 5)))
        || (tc == col && (tr == row - Forward(black) || (tr == row + Forward(black) && InPalace(black, tr, 4)))))
  }

  /** A `jiang` that starts in its palace stays in it. */
  lemma JiangStaysInPalace(chesses: seq<ChessPiece>, index: nat, t: nat)
    requires IsOrigin(chesses, index) && InPalace(chesses[index].black, index / 9, index % 9)
    requires JiangTarget(chesses, index, t)
    ensures InPalace(chesses[index].black, t / 9, t % 9)
  {
  }

  /** The `jiang` targets are the landings the generator probes, under the generator's own guards. */
  lemma JiangLandings(chesses: seq<ChessPiece>, index: nat, t: nat)
    requires IsOrigin(chesses, index)
    ensures var (row, col, black) := (index / 9, index % 9, chesses[index].black);
      JiangTarget(chesses, index, t) <==>
        || (col > 3 && t in Landing(chesses, black, row, col - 1))
        || (col < 5 && t in Landing(chesses, black, row, col + 1))
        || (!black && row > 0 && t in Landing(chesses, black, row - 1, col))
        || (!black && row < 2 && t in Landing(chesses, black, row + 1, col))
        || (black && row > 7 && t in Landing(chesses, black, row - 1, col))
        || (black && row < 9 && t in Landing(chesses, black, row + 1, col))
  {
  }

  /** `jiang`: the cells beside it in its row and column, kept inside the palace columns and rows. */
  method Jiang(chesses: seq<ChessPiece>, index: nat) returns (result: seq<nat>)
    requires IsBoard(chesses) && index < 90
    requires chesses[index].Chess? && chesses[index].chessType == JIANG
    ensures forall t: nat :: t in result <==> JiangTarget(chesses, index, t)
  {
    var piece := chesses[index];
    var (row, col) := (index / 9, index % 9);
    result := [];
    var black := GetBlack(piece, JIANG);
    if col > 3 {
      result := PushLanding(chesses, black, row, col - 1, result);
    }
    if col < 5 {
      result := PushLanding(chesses, black, row, col + 1, result);
    }
    if !black {
      if row > 0 {
        result := PushLanding(chesses, black, row - 1, col, result);
      }
      if row < 2 {
        result := PushLanding(chesses, black, row + 1, col, result);
      }
    } else {
      if row > 7 {
        result := PushLanding(chesses, black, row - 1, col, result);
      }
      if row < 9 {
        result := PushLanding(chesses, black, row + 1, col, result);
      }
    }
    forall t: nat
      ensures t in result <==> JiangTarget(chesses, index, t)
    {
      JiangLandings(chesses, index, t);
    }
  }

  // ------------------------------------------------------------------- bing

  /**
   * The cells a `bing` may reach: one row forward (higher rows for red, lower for black),
   * or, once it stands beyond its own half, one column sideways; no own piece on the cell.
   * It never moves backward.
   */
  predicate BingTarget(chesses: seq<ChessPiece>, index: nat, t: nat)
    requires IsOrigin(chesses, index)
  {
    var (row, col, tr, tc, black) := (index / 9, index % 9, t / 9, t % 9, chesses[index].black);
    && t < 90 && !Own(chesses[t], black)
    && (|| (tr == row + Forward(black) && tc == col)
        || (!OwnHalf(black, row) && tr == row && (tc == col - 1 || tc == col + 1)))
  }

  /** The `bing` targets are the landings the generator probes, under the generator's own guards. */
  lemma BingLandings(chesses: seq<ChessPiece>, index: nat, t: nat)
    requires IsOrigin(chesses, index)
    ensures var (row, col, black) := (index / 9, index % 9, chesses[index].black);
      BingTarget(chesses, index, t) <==>
        || (!black && row < 9 && t in Landing(chesses, black, row + 1, col))
        || (!black && row >= 5 && col > 0 && t in Landing(chesses, black, row, col - 1))
        || (!black && row >= 5 && col < 8 && t in Landing(chesses, black, row, col + 1))
        || (black && row > 0 && t in Landing(chesses, black, row - 1, col))
        || (black && row <= 4 && col > 0 && t in Landing(chesses, black, row, col - 1))
        || (black && row <= 4 && col < 8 && t in Landing(chesses, black, row, col + 1))
  {
  }

  /** `bing`: one row forward, and one column sideways once across the river. */
  method Bing(chesses: seq<ChessPiece>, index: nat) returns (result: seq<nat>)
    requires IsBoard(chesses) && index < 90
    requires chesses[index].Chess? && chesses[index].chessType == BING
    ensures forall t: nat :: t in result <==> BingTarget(chesses, index, t)
  {
    var piece := chesses[index];
    var (row, col) := (index / 9, index % 9);
    result := [];
    var black := GetBlack(piece, BING);
    if !black {
      if row < 9 {
        result := PushLanding(chesses, black, row + 1, col, result);
      }
      if row >= 5 {
        if col > 0 {
          result := PushLanding(chesses, black, row, col - 1, result);
        }
        if col < 8 {
          result := PushLanding(chesses, black, row, col + 1, result);
        }
      }
    } else {
      if row > 0 {
        result := PushLanding(chesses, black, row - 1, col, result);
      }
      if row <= 4 {
        if col > 0 {
          result := PushLanding(chesses, black, row, col - 1, result);
        }
        if col < 8 {
          result := PushLanding(chesses, black, row, col + 1, result);
        }
      }
    }
    forall t: nat
      ensures t in result <==> BingTarget(chesses, index, t)
    {
      BingLandings(chesses, index, t);
    }
  }

  // -------------------------------------------------------------------- shi

  /** The row of a palace's centre: 1 for red, 8 for black. */
  function PalaceCentreRow(black: bool): int {
    if black then 8 else 1
  }

  /** The five cells of a palace a `shi` can stand on: the centre and the four corners. */
  predicate ShiPoint(black: bool, row: int, col: int) {
    InPalace(black, row, col) && Abs(row - PalaceCentreRow(black)) == Abs(col - 4)
  }

  /** The cells a `shi` may reach: one diagonal step that stays in its palace; no own piece on the cell. */
  predicate ShiTarget(chesses: seq<ChessPiece>, index: nat, t: nat)
    requires IsOrigin(chesses, index)
  {
    var (row, col, tr, tc, black) := (index / 9, index % 9, t / 9, t % 9, chesses[index].black);
    && t < 90 && !Own(chesses[t], black)
    && Abs(tr - row) == 1 && Abs(tc - col) == 1 && InPalace(black, tr, tc)
  }

  /**
   * The cells of `cells` a piece of side `black` may land on (empty or holding an
   * enemy), in their order.
   */
  function Enterable(chesses: seq<ChessPiece>, black: bool, cells: seq<nat>): (r: seq<nat>)
    requires IsBoard(chesses) && forall k :: 0 <= k < |cells| ==> cells[k] < 90
    ensures forall t :: t in r <==> t in cells && !Own(chesses[t], black)
    decreases |cells|
  {
    if cells == [] then []
    else
      var last := cells[|cells| - 1];
      Enterable(chesses, black, cells[..|cells| - 1]) + (if Own(chesses[last], black) then [] else [last])
  }

  /** The loop `shi` and `xiang` run over a list of candidate cells, keeping those without an own piece. */
  method KeepLandings(chesses: seq<ChessPiece>, black: bool, cells: seq<nat>, result0: seq<nat>) returns (result: seq<nat>)
    requires IsBoard(chesses) && forall k :: 0 <= k < |cells| ==> cells[k] < 90
    ensures result == result0 + Enterable(chesses, black, cells)
  {
    result := result0;
    for i := 0 to |cells|
      invariant result == result0 + Enterable(chesses, black, cells[..i])
    {
      var nxt := cells[i];
      assert cells[..i + 1][..i] == cells[..i];
      if !Own(chesses[nxt], black) {
        result := result + [nxt];
      }
    }
    assert cells[..|cells|] == cells;
  }

  /** The cells a `shi` on a palace corner or centre is offered, as the generator lists them. */
  function ShiTable(black: bool, row: int, col: int): (r: seq<nat>)
    requires ShiPoint(black, row, col)
    ensures forall t <- r :: t < 90
  {
    if row == PalaceCentreRow(black) then (if black then [84, 86, 66, 68] else [3, 5, 21, 23])
    else [if black then 76 else 13]
  }

  /** The generator's table is exactly the diagonal palace geometry. */
  lemma ShiTableIsDiagonal(black: bool, row: int, col: int, t: nat)
    requires ShiPoint(black, row, col)
    ensures t in ShiTable(black, row, col)
            <==> t < 90 && Abs(t / 9 - row) == 1 && Abs(t % 9 - col) == 1 && InPalace(black, t / 9, t % 9)
  {
    if t < 90 {
      CellOf(t, t / 9, t % 9);
    }
  }

  /** `shi`: the palace centre from a corner, or the four corners from the centre; any other origin is refused. */
  method Shi(chesses: seq<ChessPiece>, index: nat) returns (result: seq<nat>)
    requires IsBoard(chesses) && index < 90
    requires chesses[index].Chess? && chesses[index].chessType == SHI
    requires ShiPoint(chesses[index].black, index / 9, index % 9)
    ensures forall t: nat :: t in result <==> ShiTarget(chesses, index, t)
  {
    var piece := chesses[index];
    var (row, col) := (index / 9, index % 9);
    result := [];
    var black := GetBlack(piece, SHI);
    if !black {
      match (row, col) {
        case (0, 3) | (0, 5) | (2, 3) | (2, 5) =>
          result := PushLanding(chesses, black, 1, 4, result);
        case (1, 4) =>
          result := KeepLandings(chesses, black, [3, 5, 21, 23], result);
        case _ =>
          assert false;
      }
    } else {
      match (row, col) {
        case (9, 3) | (9, 5) | (7, 3) | (7, 5) =>
          result := PushLanding(chesses, black, 8, 4, result);
        case (8, 4) =>
          result := KeepLandings(chesses, black, [84, 86, 66, 68], result);
        case _ =>
          assert false;
      }
    }
    forall t: nat
      ensures t in result <==> ShiTarget(chesses, index, t)
    {
      ShiTableIsDiagonal(black, row, col, t);
    }
  }

  // --------------------------------------------------------------------- ma

  /**
   * The cells a `ma` may reach: two rows and one column away, or one row and two columns
   * away, when the cell midway along the long side (its leg) is empty; no own piece on the cell.
   */
  predicate MaTarget(chesses: seq<ChessPiece>, index: nat, t: nat)
    requires IsOrigin(chesses, index)
  {
    var (row, col, tr, tc, black) := (index / 9, index % 9, t / 9, t % 9, chesses[index].black);
    && t < 90 && !Own(chesses[t], black)
    && (|| (Abs(tr - row) == 2 && Abs(tc - col) == 1 && At(chesses, (row + tr) / 2, col).None?)
        || (Abs(tr - row) == 1 && Abs(tc - col) == 2 && At(chesses, row, (col + tc) / 2).None?))
  }

  /**
   * The `ma` jumps whose leg is the neighbour along `h`: the leg is empty, and the landing lies
   * one step further along `h` and one step to either side of it; no own piece on the landing.
   */
  ghost predicate MaAlong(chesses: seq<ChessPiece>, black: bool, row: int, col: int, h: Heading, t: nat)
    requires IsBoard(chesses) && InBoard(row, col)
  {
    var (lr, lc) := (StepRow(row, h), StepCol(col, h));
    && InBoard(lr, lc) && At(chesses, lr, lc).None?
    && t < 90 && !Own(chesses[t], black)
    && (if h.RowIncrease? || h.RowDecrease? then t / 9 == 2 * lr - row && Abs(t % 9 - col) == 1
        else t % 9 == 2 * lc - col && Abs(t / 9 - row) == 1)
  }

  /** A `ma` target is a jump over exactly one of its four legs. */
  lemma MaTargetByLeg(chesses: seq<ChessPiece>, index: nat, t: nat)
    requires IsOrigin(chesses, index)
    ensures var (row, col, black) := (index / 9, index % 9, chesses[index].black);
      MaTarget(chesses, index, t) <==>
        || MaAlong(chesses, black, row, col, RowIncrease, t) || MaAlong(chesses, black, row, col, RowDecrease, t)
        || MaAlong(chesses, black, row, col, ColIncrease, t) || MaAlong(chesses, black, row, col, ColDecrease, t)
  {
  }

  /** The `row < 8` block of `ma`: the leg at `row + 1`. */
  method MaRowIncrease(chesses: seq<ChessPiece>, black: bool, row: int, col: int, result0: seq<nat>) returns (result: seq<nat>)
    requires IsBoard(chesses) && InBoard(row, col)
    ensures forall t: nat :: t in result <==> t in result0 || MaAlong(chesses, black, row, col, RowIncrease, t)
  {
    result := result0;
    if row < 8 {
      if chesses[(row + 1) * 9 + col].None? {
        if col > 0 {
          result := PushLanding(chesses, black, row + 2, col - 1, result);
        }
        if col < 8 {
          result := PushLanding(chesses, black, row + 2, col + 1, result);
        }
      }
    }
  }

  /** The `row > 1` block of `ma`: the leg at `row - 1`. */
  method MaRowDecrease(chesses: seq<ChessPiece>, black: bool, row: int, col: int, result0: seq<nat>) returns (result: seq<nat>)
    requires IsBoard(chesses) && InBoard(row, col)
    ensures forall t: nat :: t in result <==> t in result0 || MaAlong(chesses, black, row, col, RowDecrease, t)
  {
    result := result0;
    if row > 1 {
      if chesses[(row - 1) * 9 + col].None? {
        if col > 0 {
          result := PushLanding(chesses, black, row - 2, col - 1, result);
        }
        if col < 8 {
          result := PushLanding(chesses, black, row - 2, col + 1, result);
        }
      }
    }
  }

  /** The `col > 1` block of `ma`: the leg at `col - 1`. */
  method MaColDecrease(chesses: seq<ChessPiece>, black: bool, row: int, col: int, result0: seq<nat>) returns (result: seq<nat>)
    requires IsBoard(chesses) && InBoard(row, col)
    ensures forall t: nat :: t in result <==> t in result0 || MaAlong(chesses, black, row, col, ColDecrease, t)
  {
    result := result0;
    if col > 1 {
      if chesses[row * 9 + (col - 1)].None? {
        if row > 0 {
          result := PushLanding(chesses, black, row - 1, col - 2, result);
        }
        if row < 9 {
          result := PushLanding(chesses, black, row + 1, col - 2, result);
        }
      }
    }
  }

  /** The `col < 7` block of `ma`: the leg at `col + 1`. */
  method MaColIncrease(chesses: seq<ChessPiece>, black: bool, row: int, col: int, result0: seq<nat>) returns (result: seq<nat>)
    requires IsBoard(chesses) && InBoard(row, col)
    ensures forall t: nat :: t in result <==> t in result0 || MaAlong(chesses, black, row, col, ColIncrease, t)
  {
    result := result0;
    if col < 7 {
      if chesses[row * 9 + (col + 1)].None? {
        if row > 0 {
          result := PushLanding(chesses, black, row - 1, col + 2, result);
        }
        if row < 9 {
          result := PushLanding(chesses, black, row + 1, col + 2, result);
        }
      }
    }
  }

  /** `ma`: the eight knight jumps, each blocked by a piece on its leg. */
  method Ma(chesses: seq<ChessPiece>, index: nat) returns (result: seq<nat>)
    requires IsBoard(chesses) && index < 90
    requires chesses[index].Chess? && chesses[index].chessType == MA
    ensures forall t: nat :: t in result <==> MaTarget(chesses, index, t)
  {
    var piece := chesses[index];
    var (row, col) := (index / 9, index % 9);
    result := [];
    var black := GetBlack(piece, MA);
    result := MaRowIncrease(chesses, black, row, col, result);
    result := MaRowDecrease(chesses, black, row, col, result);
    result := MaColDecrease(chesses, black, row, col, result);
    result := MaColIncrease(chesses, black, row, col, result);
    forall t: nat
      ensures t in result <==> MaTarget(chesses, index, t)
    {
      MaTargetByLeg(chesses, index, t);
    }
  }

  // ------------------------------------------------------------------ xiang

  /**
   * The cells a `xiang` may reach: two rows and two columns away when the cell midway (its
   * eye) is empty, where a step towards the other side must end on its own half; no own
   * piece on the cell.
   */
  predicate XiangTarget(chesses: seq<ChessPiece>, index: nat, t: nat)
    requires IsOrigin(chesses, index)
  {
    var (row, col, tr, tc, black) := (index / 9, index % 9, t / 9, t % 9, chesses[index].black);
    && t < 90 && !Own(chesses[t], black)
    && Abs(tr - row) == 2 && Abs(tc - col) == 2 && At(chesses, (row + tr) / 2, (col + tc) / 2).None?
    && (tr == row + 2 * Forward(black) ==> OwnHalf(black, tr))
  }

  /** A `xiang` that starts on its own half stays there. */
  lemma XiangStaysHome(chesses: seq<ChessPiece>, index: nat, t: nat)
    requires IsOrigin(chesses, index) && OwnHalf(chesses[index].black, index / 9)
    requires XiangTarget(chesses, index, t)
    ensures OwnHalf(chesses[index].black, t / 9)
  {
  }

  /**
   * One of the four elephant steps, `dr` rows and `dc` columns per half step, as the generator
   * collects them in `tmp`: the landing is on the board, the eye is empty, and a step towards the
   * other side ends on the own half. Own pieces are filtered out afterwards.
   */
  ghost predicate XiangStep(chesses: seq<ChessPiece>, black: bool, row: int, col: int, dr: int, dc: int, t: nat)
    requires IsBoard(chesses) && InBoard(row, col) && Abs(dr) == 1 && Abs(dc) == 1
  {
    && InBoard(row + 2 * dr, col + 2 * dc) && At(chesses, row + dr, col + dc).None?
    && (dr == Forward(black) ==> OwnHalf(black, row + 2 * dr))
    && t == (row + 2 * dr) * 9 + (col + 2 * dc)
  }

  /** A collected step without an own piece on it is a `xiang` target in that direction, and back. */
  lemma XiangStepCell(chesses: seq<ChessPiece>, index: nat, dr: int, dc: int, t: nat)
    requires IsOrigin(chesses, index) && Abs(dr) == 1 && Abs(dc) == 1
    ensures var (row, col, black) := (index / 9, index % 9, chesses[index].black);
      (XiangStep(chesses, black, row, col, dr, dc, t) && t < 90 && !Own(chesses[t], black))
      <==> XiangTarget(chesses, index, t) && t / 9 == row + 2 * dr && t % 9 == col + 2 * dc
  {
    var (row, col) := (index / 9, index % 9);
    if InBoard(row + 2 * dr, col + 2 * dc) {
      CellOf(t, row + 2 * dr, col + 2 * dc);
    }
  }

  /** The `xiang` targets are the collected steps without an own piece on them. */
  lemma XiangByStep(chesses: seq<ChessPiece>, index: nat, t: nat)
    requires IsOrigin(chesses, index)
    ensures var (row, col, black) := (index / 9, index % 9, chesses[index].black);
      XiangTarget(chesses, index, t)
      <==> t < 90 && !Own(chesses[t], black)
           && (|| XiangStep(chesses, black, row, col, 1, 1, t) || XiangStep(chesses, black, row, col, -1, 1, t)
               || XiangStep(chesses, black, row, col, 1, -1, t) || XiangStep(chesses, black, row, col, -1, -1, t))
  {
    XiangStepCell(chesses, index, 1, 1, t);
    XiangStepCell(chesses, index, -1, 1, t);
    XiangStepCell(chesses, index, 1, -1, t);
    XiangStepCell(chesses, index, -1, -1, t);
  }

  /** The `col + 2 < 9` block of `xiang`. */
  method XiangTmpRight(chesses: seq<ChessPiece>, black: bool, row: int, col: int, tmp0: seq<nat>) returns (tmp: seq<nat>)
    requires IsBoard(chesses) && InBoard(row, col)
    requires forall k :: 0 <= k < |tmp0| ==> tmp0[k] < 90
    ensures forall k :: 0 <= k < |tmp| ==> tmp[k] < 90
    ensures forall t: nat :: t in tmp <==> t in tmp0 || XiangStep(chesses, black, row, col, 1, 1, t) || XiangStep(chesses, black, row, col, -1, 1, t)
  {
    tmp := tmp0;
    if col + 2 < 9 {
      if !black {
        if row < 3 {
          if chesses[(row + 1) * 9 + (col + 1)].None? {
            tmp := tmp + [(row + 2) * 9 + (col + 2)];
          }
        }
        if row > 1 {
          if chesses[(row - 1) * 9 + (col + 1)].None? {
            tmp := tmp + [(row - 2) * 9 + (col + 2)];
          }
        }
      } else {
        if row < 8 {
          if chesses[(row + 1) * 9 + (col + 1)].None? {
            tmp := tmp + [(row + 2) * 9 + (col + 2)];
          }
        }
        if row > 6 {
          if chesses[(row - 1) * 9 + (col + 1)].None? {
            tmp := tmp + [(row - 2) * 9 + (col + 2)];
          }
        }
      }
    }
  }

  /** The `col > 1` block of `xiang`. */
  method XiangTmpLeft(chesses: seq<ChessPiece>, black: bool, row: int, col: int, tmp0: seq<nat>) returns (tmp: seq<nat>)
    requires IsBoard(chesses) && InBoard(row, col)
    requires forall k :: 0 <= k < |tmp0| ==> tmp0[k] < 90
    ensures forall k :: 0 <= k < |tmp| ==> tmp[k] < 90
    ensures forall t: nat :: t in tmp <==> t in tmp0 || XiangStep(chesses, black, row, col, 1, -1, t) || XiangStep(chesses, black, row, col, -1, -1, t)
  {
    tmp := tmp0;
    if col > 1 {
      if !black {
        if row < 3 {
          if chesses[(row + 1) * 9 + (col - 1)].None? {
            tmp := tmp + [(row + 2) * 9 + (col - 2)];
          }
        }
        if row > 1 {
          if chesses[(row - 1) * 9 + (col - 1)].None? {
            tmp := tmp + [(row - 2) * 9 + (col - 2)];
          }
        }
      } else {
        if row < 8 {
          if chesses[(row + 1) * 9 + (col - 1)].None? {
            tmp := tmp + [(row + 2) * 9 + (col - 2)];
          }
        }
        if row > 6 {
          if chesses[(row - 1) * 9 + (col - 1)].None? {
            tmp := tmp + [(row - 2) * 9 + (col - 2)];
          }
        }
      }
    }
  }

  /** `xiang`: the elephant steps with an empty eye, kept on the own half, then filtered for own pieces. */
  method Xiang(chesses: seq<ChessPiece>, index: nat) returns (result: seq<nat>)
    requires IsBoard(chesses) && index < 90
    requires chesses[index].Chess? && chesses[index].chessType == XIANG
    ensures forall t: nat :: t in result <==> XiangTarget(chesses, index, t)
  {
    var (row, col) := (index / 9, index % 9);
    var piece := chesses[index];
    var black := piece.black;
    var tmp := XiangTmpRight(chesses, black, row, col, []);
    tmp := XiangTmpLeft(chesses, black, row, col, tmp);
    result := KeepLandings(chesses, black, tmp, []);
    forall t: nat
      ensures t in result <==> XiangTarget(chesses, index, t)
    {
      XiangByStep(chesses, index, t);
    }
  }

  // ------------------------------------------------------------ dispatch

  /** The cells the piece at `index` may move to, by its type. */
  ghost predicate Target(chesses: seq<ChessPiece>, index: nat, t: nat)
    requires IsOrigin(chesses, index)
  {
    match chesses[index].chessType
    case BING => BingTarget(chesses, index, t)
    case PAO => PaoTarget(chesses, index, t)
    case CHE => CheTarget(chesses, index, t)
    case MA => MaTarget(chesses, index, t)
    case XIANG => XiangTarget(chesses, index, t)
    case SHI => ShiTarget(chesses, index, t)
    case JIANG => JiangTarget(chesses, index, t)
  }

  /** No generator offers a cell off the board, the origin itself, or a cell holding an own piece. */
  lemma TargetIsLanding(chesses: seq<ChessPiece>, index: nat, t: nat)
    requires IsOrigin(chesses, index) && Target(chesses, index, t)
    ensures t < 90 && t != index && !Own(chesses[t], chesses[index].black)
  {
  }

  /** `calculate_operators`: the moves of the piece at `index`, by its type; an empty cell is not handled. */
  method CalculateOperators(chesses: seq<ChessPiece>, index: nat) returns (result: seq<nat>)
    requires IsBoard(chesses) && index < 90
    requires chesses[index].Chess?
    requires chesses[index].chessType == SHI ==> ShiPoint(chesses[index].black, index / 9, index % 9)
    ensures forall t: nat :: t in result <==> Target(chesses, index, t)
    ensures forall t <- result :: t < 90 && t != index && !Own(chesses[t], chesses[index].black)
  {
    var piece := chesses[index];
    match piece.chessType {
      case BING => result := Bing(chesses, index);
      case PAO => result := Pao(chesses, index);
      case CHE => result := Che(chesses, index);
      case MA => result := Ma(chesses, index);
      case XIANG => result := Xiang(chesses, index);
      case SHI => result := Shi(chesses, index);
      case JIANG => result := Jiang(chesses, index);
    }
    forall t <- result
      ensures t < 90 && t != index && !Own(chesses[t], chesses[index].black)
    {
      TargetIsLanding(chesses, index, t);
    }
  }
}
