/**
 * Boolean legality checks for single moves over a 90-cell board of
 * `Pieces.Piece`, one per piece kind that has one (pawn, rook, knight,
 * bishop). Points here have a row (0..9) and a column (0..8) and are
 * stored at index row * 9 + col; this encoding is separate from the
 * column-major one of module Points.
 */
module ChessRule {
  import opened Pieces

  /** A point given by row and column; signed, as the checks subtract coordinates. */
  datatype RulePoint = RulePoint(row: int, col: int) {
    predicate Valid() {
      0 <= row < 10 && 0 <= col < 9
    }

    /** The cell index of a valid point; row and column are recovered from it. */
    function Raw(): (r: nat)
      requires Valid()
      ensures r < 90 && r / 9 == row && r % 9 == col
    {
      row * 9 + col
    }

    function Left(): RulePoint { RulePoint(row, col - 1) }
    function Right(): RulePoint { RulePoint(row, col + 1) }
    function Up(): RulePoint { RulePoint(row - 1, col) }
    function Down(): RulePoint { RulePoint(row + 1, col) }
  }

  /** A move: from one point to another. */
  datatype Vector = Vector(from: RulePoint, to: RulePoint)

  /** A board has exactly 90 cells. */
  predicate IsBoard(chess: seq<Piece>) {
    |chess| == 90
  }

  function Abs(v: int): (r: int)
    ensures r >= 0 && (r == v || r == -v)
  {
    if v < 0 then -v else v
  }

  /** The piece at point `p`. */
  function Cell(chess: seq<Piece>, p: RulePoint): Piece
    requires IsBoard(chess) && p.Valid()
  {
    chess[p.Raw()]
  }

  // ------------------------------------------------------------------ pawn

  /** Whether a pawn of `camp` standing on `row` may move sideways: Red on rows 0..4, Black on rows 5..9. */
  predicate SidewaysAllowed(camp: Camp, row: int) {
    match camp
    case Red => row <= 4
    case Black => row >= 5
  }

  /**
   * The pawn check: one step, never backward (Red towards smaller rows,
   * Black towards larger), and sideways only once allowed.
   */
  function PawnMoveCheck(op: Vector, camp: Camp, chess: seq<Piece>): (r: bool)
    ensures r <==>
      || (op.to.col == op.from.col && op.to.row == op.from.row + (if camp == Red then -1 else 1))
      || (op.to.row == op.from.row && Abs(op.to.col - op.from.col) == 1 && SidewaysAllowed(camp, op.from.row))
  {
    var (x, y) := (op.from.col, op.from.row);
    var (x1, y1) := (op.to.col, op.to.row);
    var (dx, dy) := (Abs(x1 - x), Abs(y1 - y));
    if dx + dy != 1 then false
    else match camp
      case Red => !(y1 > y) && !(y1 == y && y > 4)
      case Black => !(y1 < y) && !(y1 == y && y < 5)
  }

  /** The pawn check never accepts a move of more than one step. */
  lemma PawnSingleStep(op: Vector, camp: Camp, chess: seq<Piece>)
    requires PawnMoveCheck(op, camp, chess)
    ensures Abs(op.to.col - op.from.col) + Abs(op.to.row - op.from.row) == 1
  {
  }

  // ------------------------------------------------------------------ rook

  /** `p` lies strictly between `a` and `b` on their shared row or column. */
  predicate StrictlyBetween(a: RulePoint, p: RulePoint, b: RulePoint) {
    || (p.row == a.row == b.row && ((a.col < p.col < b.col) || (b.col < p.col < a.col)))
    || (p.col == a.col == b.col && ((a.row < p.row < b.row) || (b.row < p.row < a.row)))
  }

  /** No piece stands strictly between `a` and `b`. */
  ghost predicate NothingBetween(chess: seq<Piece>, a: RulePoint, b: RulePoint)
    requires IsBoard(chess)
  {
    forall p: RulePoint | p.Valid() && StrictlyBetween(a, p, b) :: Cell(chess, p).None?
  }

  /**
   * The rook check: distinct points on a shared row or column with nothing
   * in between. Neither the camp nor the destination's occupant matters.
   */
  method RookMoveCheck(op: Vector, camp: Camp, chess: seq<Piece>) returns (r: bool)
    requires IsBoard(chess) && op.from.Valid() && op.to.Valid()
    ensures r <==> && op.from != op.to
                   && (op.from.row == op.to.row || op.from.col == op.to.col)
                   && NothingBetween(chess, op.from, op.to)
  {
    var from, to := op.from, op.to;
    var (x, y) := (from.col, from.row);
    var (x1, y1) := (to.col, to.row);
    var count := 0;
    if x == x1 {
      if y == y1 {
        return false;
      }
      var min, max := if y < y1 then y else y1, if y < y1 then y1 else y;
      for i := min + 1 to max
        invariant count >= 0
        invariant count == 0 <==> forall j | min < j < i :: Cell(chess, RulePoint(j, x)).None?
      {
        var c := chess[RulePoint(i, x).Raw()];
        match c
        case Exist(_) => count := count + 1;
        case None =>
      }
      assert forall p: RulePoint | p.Valid() && StrictlyBetween(from, p, to) :: p == RulePoint(p.row, x) && min < p.row < max;
    } else if y == y1 {
      var min, max := if x < x1 then x else x1, if x < x1 then x1 else x;
      for i := min + 1 to max
        invariant count >= 0
        invariant count == 0 <==> forall j | min < j < i :: Cell(chess, RulePoint(y, j)).None?
      {
        var c := chess[RulePoint(y, i).Raw()];
        match c
        case Exist(_) => count := count + 1;
        case None =>
      }
      assert forall p: RulePoint | p.Valid() && StrictlyBetween(from, p, to) :: p == RulePoint(y, p.col) && min < p.col < max;
    } else {
      return false;
    }
    return count == 0;
  }

  // ---------------------------------------------------------------- knight

  /** The leg of a knight move: the square next to `from` on the axis that moves two. */
  function KnightLeg(op: Vector): RulePoint {
    var (dx, dy) := (op.to.col - op.from.col, op.to.row - op.from.row);
    if dx == 2 then op.from.Right()
    else if dx == -2 then op.from.Left()
    else if dy == 2 then op.from.Down()
    else op.from.Up()
  }

  /** The knight check: an L-shaped move (two along one axis, one along the other) whose leg is empty. */
  function KnightMoveCheck(op: Vector, camp: Camp, chess: seq<Piece>): (r: bool)
    requires IsBoard(chess) && op.from.Valid() && op.to.Valid()
    ensures r <==>
      && (|| (Abs(op.to.col - op.from.col) == 2 && Abs(op.to.row - op.from.row) == 1)
          || (Abs(op.to.col - op.from.col) == 1 && Abs(op.to.row - op.from.row) == 2))
      && KnightLeg(op).Valid() && Cell(chess, KnightLeg(op)).None?
  {
    var from, to := op.from, op.to;
    var (x, y) := (from.col, from.row);
    var (x1, y1) := (to.col, to.row);
    var (dx, dy) := (x1 - x, y1 - y);
    if Abs(dx) + Abs(dy) != 3 then false
    else if dx == 2 then chess[from.Right().Raw()].None?
    else if dx == -2 then chess[from.Left().Raw()].None?
    else if dy == 2 then chess[from.Down().Raw()].None?
    else if dy == -2 then chess[from.Up().Raw()].None?
    else false
  }

  // ---------------------------------------------------------------- bishop

  /** The bishop check: exactly two squares along both axes; no eye and no river test. */
  function BishopMoveCheck(op: Vector, camp: Camp, chess: seq<Piece>): (r: bool)
    ensures r <==> Abs(op.to.col - op.from.col) == 2 && Abs(op.to.row - op.from.row) == 2
  {
    var (x, y) := (op.from.col, op.from.row);
    var (x1, y1) := (op.to.col, op.to.row);
    var (dx, dy) := (x1 - x, y1 - y);
    if Abs(dx) + Abs(dy) != 4 then false
    else match (dx, dy)
      case (2, 2) => true
      case (2, -2) => true
      case (-2, 2) => true
      case (-2, -2) => true
      case _ => false
  }
}
