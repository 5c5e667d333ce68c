/**
 * Board coordinates of the point-based engine.
 *
 * A point is a pair (x, y): x is the column (0..8) and y the row (0..9).
 * Its linear encoding is x * 10 + y, which is also the byte the network
 * layer sends for a point. This encoding is NOT the row * 9 + col index of
 * the flat-array generator (module Xiangqi); the two never meet.
 */
module Points {
  import opened Wrappers

  datatype Point = Point(x: nat, y: nat) {

    /** Every point the engine builds lies on the 9 x 10 grid. */
    predicate Valid() {
      x < 9 && y < 10
    }

    /** The linear encoding x * 10 + y; division and remainder by 10 recover the coordinates. */
    function Raw(): (r: nat)
      requires Valid()
      ensures r < 90
      ensures r / 10 == x && r % 10 == y
    {
      x * 10 + y
    }

    /** One row towards y = 0; fails on the top edge and never wraps. */
    function Up(): (r: Option<Point>)
      ensures r.None? <==> y == 0
      ensures r.Some? ==> r.value.x == x && r.value.y + 1 == y
    {
      if y == 0 then None else Some(Point(x, y - 1))
    }

    /** One row towards y = 9; fails on the bottom edge and never wraps. */
    function Down(): (r: Option<Point>)
      ensures r.None? <==> y == 9
      ensures r.Some? ==> r.value.x == x && r.value.y == y + 1
    {
      if y == 9 then None else Some(Point(x, y + 1))
    }

    /** One column towards x = 0; fails on the left edge and never wraps. */
    function Left(): (r: Option<Point>)
      ensures r.None? <==> x == 0
      ensures r.Some? ==> r.value.x + 1 == x && r.value.y == y
    {
      if x == 0 then None else Some(Point(x - 1, y))
    }

    /** One column towards x = 8; fails on the right edge and never wraps. */
    function Right(): (r: Option<Point>)
      ensures r.None? <==> x == 8
      ensures r.Some? ==> r.value.x == x + 1 && r.value.y == y
    {
      if x == 8 then None else Some(Point(x + 1, y))
    }

    /** Rows 0..4 are Red's half of the board. */
    predicate IsRedCamp() {
      y <= 4
    }

    /** Rows 5..9 are Black's half of the board. */
    predicate IsBlackCamp() {
      y >= 5
    }

    /** Diagonal neighbour: a step left, then a step up. */
    function LeftUp(): (r: Option<Point>)
      ensures r.None? <==> (x == 0 || y == 0)
      ensures r.Some? ==> r.value.x + 1 == x && r.value.y + 1 == y
    {
      match Left()
      case None => None
      case Some(l) => l.Up()
    }

    /** Diagonal neighbour: a step right, then a step up. */
    function RightUp(): (r: Option<Point>)
      ensures r.None? <==> (x == 8 || y == 0)
      ensures r.Some? ==> r.value.x == x + 1 && r.value.y + 1 == y
    {
      match Right()
      case None => None
      case Some(rt) => rt.Up()
    }

    /** Diagonal neighbour: a step left, then a step down. */
    function LeftDown(): (r: Option<Point>)
      ensures r.None? <==> (x == 0 || y == 9)
      ensures r.Some? ==> r.value.x + 1 == x && r.value.y == y + 1
    {
      match Left()
      case None => None
      case Some(l) => l.Down()
    }

    /** Diagonal neighbour: a step right, then a step down. */
    function RightDown(): (r: Option<Point>)
      ensures r.None? <==> (x == 8 || y == 9)
      ensures r.Some? ==> r.value.x == x + 1 && r.value.y == y + 1
    {
      match Right()
      case None => None
      case Some(rt) => rt.Down()
    }

    /** Manhattan distance, computed on signed differences as the engine does. */
    function Dis(other: Point): (d: nat)
      ensures d == 0 <==> this == other
      ensures d == AbsDiff(x, other.x) + AbsDiff(y, other.y)
    {
      var dx: int := x as int - other.x as int;
      var dy: int := y as int - other.y as int;
      Abs(dx) + Abs(dy)
    }

    /** Columns 3..5, the palace columns. */
    predicate SpecialArea() {
      x >= 3 && x <= 5
    }
  }

  function Abs(v: int): nat {
    if v < 0 then -v else v
  }

  /** |a - b| on naturals, used to state the move rules. */
  function AbsDiff(a: nat, b: nat): nat {
    if a < b then b - a else a - b
  }

  /** The checked constructor: a point exists only on the 9 x 10 grid. */
  function MakePoint(x: nat, y: nat): (r: Option<Point>)
    ensures r.Some? <==> x < 9 && y < 10
    ensures r.Some? ==> r.value.x == x && r.value.y == y && r.value.Valid()
  {
    if x >= 9 then None
    else if y >= 10 then None
    else Some(Point(x, y))
  }

  /** Decoding a point's byte with / 10 and % 10, as the network layer does, gives the point back. */
  lemma RawRoundTrip(p: Point)
    requires p.Valid()
    ensures MakePoint(p.Raw() / 10, p.Raw() % 10) == Some(p)
  {
  }

  /** Two valid points with the same encoding are the same point. */
  lemma RawInjective(p: Point, q: Point)
    requires p.Valid() && q.Valid() && p.Raw() == q.Raw()
    ensures p == q
  {
    assert p.x == p.Raw() / 10 == q.x;
  }

  /** Neighbours of a valid point are valid. */
  lemma NeighboursValid(p: Point)
    requires p.Valid()
    ensures p.Up().Some? ==> p.Up().value.Valid()
    ensures p.Down().Some? ==> p.Down().value.Valid()
    ensures p.Left().Some? ==> p.Left().value.Valid()
    ensures p.Right().Some? ==> p.Right().value.Valid()
  {
  }

  /** Where defined, `down` undoes `up` and `up` undoes `down`; likewise for left and right. */
  lemma StepsInverse(p: Point)
    requires p.Valid()
    ensures p.Up().Some? ==> p.Up().value.Down() == Some(p)
    ensures p.Down().Some? ==> p.Down().value.Up() == Some(p)
    ensures p.Left().Some? ==> p.Left().value.Right() == Some(p)
    ensures p.Right().Some? ==> p.Right().value.Left() == Some(p)
  {
  }

  /** The distance is symmetric. */
  lemma DisSymmetric(p: Point, q: Point)
    ensures p.Dis(q) == q.Dis(p)
  {
  }

  /** Every point is in exactly one camp. */
  lemma CampsPartition(p: Point)
    ensures p.IsRedCamp() != p.IsBlackCamp()
  {
  }
}
