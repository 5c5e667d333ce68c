/**
 * The seven destination generators of the point-based engine, one per
 * piece kind. Each appends the destinations it finds to the caller's list
 * and returns how many it appended.
 *
 * Every generator is specified by a declarative rule (`HorseTarget`,
 * `RookTarget`, ...): a point is appended iff the rule holds of it. The
 * sliding pieces are also specified ray by ray (`RookRay`, `CannonRay`,
 * `FlyingRay`), which is what their loops compute; the `*RayMembers`
 * lemmas connect each ray to its rule.
 */
module TrackSteps {
  import opened Wrappers
  import opened Points
  import opened Chess

  // ---------------------------------------------------------------- geometry

  datatype Dir = Left | Right | Up | Down

  /** The neighbour of `p` in direction `d`, as the point operations give it. */
  function Next(p: Point, d: Dir): Option<Point> {
    match d
    case Left => p.Left()
    case Right => p.Right()
    case Up => p.Up()
    case Down => p.Down()
  }

  /** How many steps `p` is from the edge in direction `d`. */
  function Remaining(p: Point, d: Dir): nat
    requires p.Valid()
  {
    match d
    case Left => p.x
    case Right => 8 - p.x
    case Up => p.y
    case Down => 9 - p.y
  }

  /** `q` lies beyond `p` in direction `d`, on `p`'s row or column. */
  predicate OnRay(p: Point, d: Dir, q: Point) {
    match d
    case Left => q.y == p.y && q.x < p.x
    case Right => q.y == p.y && q.x > p.x
    case Up => q.x == p.x && q.y < p.y
    case Down => q.x == p.x && q.y > p.y
  }

  /** `p` and `q` are distinct and share a row or a column. */
  predicate Lined(p: Point, q: Point) {
    p != q && (p.x == q.x || p.y == q.y)
  }

  /** `r` lies strictly between `p` and `q` on their shared row or column. */
  predicate StrictlyBetween(p: Point, r: Point, q: Point) {
    || (r.y == p.y && q.y == p.y && ((p.x < r.x < q.x) || (q.x < r.x < p.x)))
    || (r.x == p.x && q.x == p.x && ((p.y < r.y < q.y) || (q.y < r.y < p.y)))
  }

  /** Every square strictly between `p` and `q` is empty. */
  ghost predicate Clear(g: Grid, p: Point, q: Point)
    requires WellFormed(g)
  {
    forall r: Point | r.Valid() && StrictlyBetween(p, r, q) :: At(g, r).IsEmpty()
  }

  /** Exactly one piece stands strictly between `p` and `q`: the screen `s`. */
  ghost predicate Screened(g: Grid, p: Point, q: Point)
    requires WellFormed(g)
  {
    exists s: Point ::
      s.Valid() && StrictlyBetween(p, s, q) && !At(g, s).IsEmpty() && Clear(g, p, s) && Clear(g, s, q)
  }

  predicate IsKing(c: ChessPiece) {
    c.content.Some? && c.content.value.0 == King
  }

  /** The centre of each side's palace: (4, 1) for Red, (4, 8) for Black. */
  function PalaceCentre(camp: Side): (c: Point)
    ensures c.Valid()
  {
    match camp
    case Red => Point(4, 1)
    case Black => Point(4, 8)
  }

  // ------------------------------------------------------ the rules, stated

  /** The leg of a horse jump from `p` to `q`: the square next to `p` along the two-square axis. */
  function HorseLeg(p: Point, q: Point): Point
    requires (AbsDiff(p.x, q.x) == 2 && AbsDiff(p.y, q.y) == 1) || (AbsDiff(p.x, q.x) == 1 && AbsDiff(p.y, q.y) == 2)
  {
    if AbsDiff(p.x, q.x) == 2 then Point(if q.x > p.x then p.x + 1 else p.x - 1, p.y)
    else Point(p.x, if q.y > p.y then p.y + 1 else p.y - 1)
  }

  /** A horse jump whose leg is the neighbour of `p` in direction `d`. */
  ghost predicate HorseVia(g: Grid, camp: Side, p: Point, d: Dir, q: Point)
    requires WellFormed(g) && p.Valid()
  {
    && q.Valid() && !At(g, q).SameSide(camp)
    && match d
       case Left => q.x + 2 == p.x && AbsDiff(q.y, p.y) == 1 && At(g, Point(p.x - 1, p.y)).IsEmpty()
       case Right => q.x == p.x + 2 && AbsDiff(q.y, p.y) == 1 && At(g, Point(p.x + 1, p.y)).IsEmpty()
       case Up => q.y + 2 == p.y && AbsDiff(q.x, p.x) == 1 && At(g, Point(p.x, p.y - 1)).IsEmpty()
       case Down => q.y == p.y + 2 && AbsDiff(q.x, p.x) == 1 && At(g, Point(p.x, p.y + 1)).IsEmpty()
  }

  /** An L-shaped jump whose leg is empty, onto a square not held by `camp`. */
  ghost predicate HorseTarget(g: Grid, camp: Side, p: Point, q: Point)
    requires WellFormed(g) && p.Valid()
  {
    && q.Valid()
    && ((AbsDiff(p.x, q.x) == 2 && AbsDiff(p.y, q.y) == 1) || (AbsDiff(p.x, q.x) == 1 && AbsDiff(p.y, q.y) == 2))
    && At(g, HorseLeg(p, q)).IsEmpty()
    && !At(g, q).SameSide(camp)
  }

  /** Any distance along a row or column over empty squares, onto a square not held by `camp`. */
  ghost predicate RookTarget(g: Grid, camp: Side, p: Point, q: Point)
    requires WellFormed(g)
  {
    q.Valid() && Lined(p, q) && Clear(g, p, q) && !At(g, q).SameSide(camp)
  }

  /** Along a row or column: an empty square with nothing in between, or an enemy piece behind exactly one screen. */
  ghost predicate CannonTarget(g: Grid, camp: Side, p: Point, q: Point)
    requires WellFormed(g)
  {
    && q.Valid() && Lined(p, q)
    && (|| (At(g, q).IsEmpty() && Clear(g, p, q))
        || (!At(g, q).IsEmpty() && !At(g, q).SameSide(camp) && Screened(g, p, q)))
  }

  /** The eye of an elephant move: the diagonal square half way. */
  function Eye(p: Point, q: Point): Point
    requires AbsDiff(p.x, q.x) == 2 && AbsDiff(p.y, q.y) == 2
  {
    Point(if q.x > p.x then p.x + 1 else p.x - 1, if q.y > p.y then p.y + 1 else p.y - 1)
  }

  /** Two squares diagonally with an empty eye, onto a square not held by `camp`; there is no river limit. */
  ghost predicate ElephantTarget(g: Grid, camp: Side, p: Point, q: Point)
    requires WellFormed(g) && p.Valid()
  {
    && q.Valid()
    && AbsDiff(p.x, q.x) == 2 && AbsDiff(p.y, q.y) == 2
    && At(g, Eye(p, q)).IsEmpty()
    && !At(g, q).SameSide(camp)
  }

  /** One square diagonally, within distance 2 of the palace centre, onto a square not held by `camp`. */
  ghost predicate GuardTarget(g: Grid, camp: Side, p: Point, q: Point)
    requires WellFormed(g)
  {
    && q.Valid()
    && AbsDiff(p.x, q.x) == 1 && AbsDiff(p.y, q.y) == 1
    && PalaceCentre(camp).Dis(q) <= 2
    && !At(g, q).SameSide(camp)
  }

  /** The direction in which a king looks for the other king: Red towards y = 9, Black towards y = 0. */
  function FacingDir(camp: Side): Dir {
    match camp
    case Red => Down
    case Black => Up
  }

  /** The first piece met along the king's column, in the facing direction, when it is a king. */
  ghost predicate FlyingTarget(g: Grid, camp: Side, p: Point, q: Point)
    requires WellFormed(g)
  {
    q.Valid() && OnRay(p, FacingDir(camp), q) && Clear(g, p, q) && IsKing(At(g, q))
  }

  /**
   * One orthogonal step onto a square in columns 3..5 within distance 2 of
   * the palace centre and not held by `camp`; or the flying capture.
   */
  ghost predicate KingTarget(g: Grid, camp: Side, p: Point, q: Point)
    requires WellFormed(g)
  {
    || (&& q.Valid() && p.Dis(q) == 1
        && q.SpecialArea() && PalaceCentre(camp).Dis(q) <= 2
        && !At(g, q).SameSide(camp))
    || FlyingTarget(g, camp, p, q)
  }

  /** Whether a pawn at `p` may also move sideways: Red once in Black's half, Black once in Red's. */
  predicate PawnCrossed(camp: Side, p: Point) {
    match camp
    case Red => p.IsBlackCamp()
    case Black => p.IsRedCamp()
  }

  /** One step forward (Red towards y = 0, Black towards y = 9), or sideways once crossed; never backward. */
  ghost predicate PawnTarget(g: Grid, camp: Side, p: Point, q: Point)
    requires WellFormed(g)
  {
    && q.Valid()
    && (|| (q.x == p.x && (if camp == Red then q.y + 1 == p.y else q.y == p.y + 1))
        || (PawnCrossed(camp, p) && q.y == p.y && AbsDiff(p.x, q.x) == 1))
    && !At(g, q).SameSide(camp)
  }

  // ------------------------------------------------------- the rays, scanned

  /** What the rook loop appends along direction `d`: empty squares up to the first piece, which counts only if not `camp`'s. */
  ghost function RookRay(g: Grid, camp: Side, p: Point, d: Dir): seq<Point>
    requires WellFormed(g) && p.Valid()
    decreases Remaining(p, d)
  {
    match Next(p, d)
    case None => []
    case Some(n) =>
      if At(g, n).IsEmpty() then [n] + RookRay(g, camp, n, d)
      else if !At(g, n).SameSide(camp) then [n]
      else []
  }

  /**
   * What the cannon loop appends along `d`: before the screen (`met` false)
   * every empty square; after it, nothing but the next piece, if not `camp`'s.
   */
  ghost function CannonRay(g: Grid, camp: Side, p: Point, d: Dir, met: bool): seq<Point>
    requires WellFormed(g) && p.Valid()
    decreases Remaining(p, d)
  {
    match Next(p, d)
    case None => []
    case Some(n) =>
      if At(g, n).IsEmpty() then (if met then [] else [n]) + CannonRay(g, camp, n, d, met)
      else if met then (if !At(g, n).SameSide(camp) then [n] else [])
      else CannonRay(g, camp, n, d, true)
  }

  /** What the king's facing scan appends: the first piece along `d`, if it is a king. */
  ghost function FlyingRay(g: Grid, p: Point, d: Dir): seq<Point>
    requires WellFormed(g) && p.Valid()
    decreases Remaining(p, d)
  {
    match Next(p, d)
    case None => []
    case Some(n) =>
      if At(g, n).IsEmpty() then FlyingRay(g, n, d)
      else if IsKing(At(g, n)) then [n]
      else []
  }

  // ------------------------------------------------------- ray lemmas

  /** One step along a ray: the next square is on the ray, adjacent, and what lies beyond it. */
  lemma StepAlong(p: Point, d: Dir, n: Point, q: Point)
    requires p.Valid() && Next(p, d) == Some(n)
    ensures n.Valid() && OnRay(p, d, n) && Remaining(n, d) < Remaining(p, d)
    ensures OnRay(p, d, q) <==> q == n || OnRay(n, d, q)
    ensures !StrictlyBetween(p, q, n)
    ensures OnRay(n, d, q) ==> StrictlyBetween(p, n, q)
  {
  }

  /** Past an adjacent square `n`, the way from `p` to `q` is clear iff `n` is empty and the way from `n` is clear. */
  lemma ClearStep(g: Grid, p: Point, d: Dir, n: Point, q: Point)
    requires WellFormed(g) && p.Valid() && Next(p, d) == Some(n) && OnRay(n, d, q)
    ensures Clear(g, p, q) <==> At(g, n).IsEmpty() && Clear(g, n, q)
  {
    StepAlong(p, d, n, q);
    forall r: Point | StrictlyBetween(n, r, q)
      ensures StrictlyBetween(p, r, q)
    {
    }
    if At(g, n).IsEmpty() && Clear(g, n, q) {
      forall r: Point | r.Valid() && StrictlyBetween(p, r, q)
        ensures At(g, r).IsEmpty()
      {
        if r != n {
          assert StrictlyBetween(n, r, q);
        }
      }
    }
  }

  /** Nothing lies strictly between a point and its neighbour. */
  lemma ClearAdjacent(g: Grid, p: Point, d: Dir, n: Point)
    requires WellFormed(g) && p.Valid() && Next(p, d) == Some(n)
    ensures Clear(g, p, n)
  {
  }

  /** `q` lies on the ray from `p` in some direction iff it shares a row or column with `p`. */
  lemma LinedOnRay(p: Point, q: Point)
    ensures Lined(p, q) <==> OnRay(p, Left, q) || OnRay(p, Right, q) || OnRay(p, Up, q) || OnRay(p, Down, q)
  {
  }

  /** A point on the rook's ray in direction `d` is appended iff it is a rook target. */
  lemma {:induction false} RookRayMembers(g: Grid, camp: Side, p: Point, d: Dir, q: Point)
    requires WellFormed(g) && p.Valid()
    ensures q in RookRay(g, camp, p, d)
            <==> q.Valid() && OnRay(p, d, q) && Clear(g, p, q) && !At(g, q).SameSide(camp)
    decreases Remaining(p, d)
  {
    match Next(p, d)
    case None =>
    case Some(n) =>
      StepAlong(p, d, n, q);
      ClearAdjacent(g, p, d, n);
      if OnRay(n, d, q) {
        ClearStep(g, p, d, n, q);
      }
      if At(g, n).IsEmpty() {
        RookRayMembers(g, camp, n, d, q);
      }
  }

  /** After the screen: a point is appended iff it is the next piece and not `camp`'s. */
  lemma {:induction false} CannonRayMetMembers(g: Grid, camp: Side, p: Point, d: Dir, q: Point)
    requires WellFormed(g) && p.Valid()
    ensures q in CannonRay(g, camp, p, d, true)
            <==> q.Valid() && OnRay(p, d, q) && Clear(g, p, q) && !At(g, q).IsEmpty() && !At(g, q).SameSide(camp)
    decreases Remaining(p, d)
  {
    match Next(p, d)
    case None =>
    case Some(n) =>
      StepAlong(p, d, n, q);
      ClearAdjacent(g, p, d, n);
      if OnRay(n, d, q) {
        ClearStep(g, p, d, n, q);
      }
      if At(g, n).IsEmpty() {
        CannonRayMetMembers(g, camp, n, d, q);
      }
  }

  /** Beyond an empty neighbour `n`, a screen between `p` and `q` is a screen between `n` and `q`. */
  lemma ScreenedPastEmpty(g: Grid, p: Point, d: Dir, n: Point, q: Point)
    requires WellFormed(g) && p.Valid() && Next(p, d) == Some(n) && OnRay(n, d, q)
    requires At(g, n).IsEmpty()
    ensures Screened(g, p, q) <==> Screened(g, n, q)
  {
    StepAlong(p, d, n, q);
    if Screened(g, p, q) {
      var s: Point :| s.Valid() && StrictlyBetween(p, s, q) && !At(g, s).IsEmpty() && Clear(g, p, s) && Clear(g, s, q);
      assert s != n;
      assert OnRay(n, d, s);
      ClearStep(g, p, d, n, s);
      assert StrictlyBetween(n, s, q);
    }
    if Screened(g, n, q) {
      var s: Point :| s.Valid() && StrictlyBetween(n, s, q) && !At(g, s).IsEmpty() && Clear(g, n, s) && Clear(g, s, q);
      assert OnRay(n, d, s);
      ClearStep(g, p, d, n, s);
      assert StrictlyBetween(p, s, q);
    }
  }

  /** When the neighbour `n` holds a piece, it is the only possible screen. */
  lemma ScreenedByNeighbour(g: Grid, p: Point, d: Dir, n: Point, q: Point)
    requires WellFormed(g) && p.Valid() && Next(p, d) == Some(n) && OnRay(n, d, q)
    requires !At(g, n).IsEmpty()
    ensures Screened(g, p, q) <==> Clear(g, n, q)
  {
    StepAlong(p, d, n, q);
    ClearAdjacent(g, p, d, n);
    if Screened(g, p, q) {
      var s: Point :| s.Valid() && StrictlyBetween(p, s, q) && !At(g, s).IsEmpty() && Clear(g, p, s) && Clear(g, s, q);
      assert s == n || StrictlyBetween(p, n, s);
    }
    if Clear(g, n, q) {
      assert StrictlyBetween(p, n, q);
    }
  }

  /** Before the screen: a point is appended iff it is a cannon target on this ray. */
  lemma {:induction false} CannonRayMembers(g: Grid, camp: Side, p: Point, d: Dir, q: Point)
    requires WellFormed(g) && p.Valid()
    ensures q in CannonRay(g, camp, p, d, false)
            <==> && q.Valid() && OnRay(p, d, q)
                 && (|| (At(g, q).IsEmpty() && Clear(g, p, q))
                     || (!At(g, q).IsEmpty() && !At(g, q).SameSide(camp) && Screened(g, p, q)))
    decreases Remaining(p, d)
  {
    match Next(p, d)
    case None =>
    case Some(n) =>
      StepAlong(p, d, n, q);
      ClearAdjacent(g, p, d, n);
      if q == n {
        assert !Screened(g, p, n);
      }
      if At(g, n).IsEmpty() {
        CannonRayMembers(g, camp, n, d, q);
        if OnRay(n, d, q) {
          ClearStep(g, p, d, n, q);
          ScreenedPastEmpty(g, p, d, n, q);
        }
      } else {
        CannonRayMetMembers(g, camp, n, d, q);
        if OnRay(n, d, q) {
          ClearStep(g, p, d, n, q);
          ScreenedByNeighbour(g, p, d, n, q);
        }
      }
  }

  /** The facing scan appends `q` iff `q` is the first piece along `d` and is a king. */
  lemma {:induction false} FlyingRayMembers(g: Grid, p: Point, d: Dir, q: Point)
    requires WellFormed(g) && p.Valid()
    ensures q in FlyingRay(g, p, d) <==> q.Valid() && OnRay(p, d, q) && Clear(g, p, q) && IsKing(At(g, q))
    decreases Remaining(p, d)
  {
    match Next(p, d)
    case None =>
    case Some(n) =>
      StepAlong(p, d, n, q);
      ClearAdjacent(g, p, d, n);
      if OnRay(n, d, q) {
        ClearStep(g, p, d, n, q);
      }
      if At(g, n).IsEmpty() {
        FlyingRayMembers(g, n, d, q);
      }
  }

  /** The four rook rays together hold exactly the rook targets. */
  lemma RookRaysComplete(g: Grid, camp: Side, p: Point, q: Point)
    requires WellFormed(g) && p.Valid()
    ensures (|| q in RookRay(g, camp, p, Left) || q in RookRay(g, camp, p, Right)
             || q in RookRay(g, camp, p, Up) || q in RookRay(g, camp, p, Down))
            <==> RookTarget(g, camp, p, q)
  {
    LinedOnRay(p, q);
    RookRayMembers(g, camp, p, Left, q);
    RookRayMembers(g, camp, p, Right, q);
    RookRayMembers(g, camp, p, Up, q);
    RookRayMembers(g, camp, p, Down, q);
  }

  /** The four cannon rays together hold exactly the cannon targets. */
  lemma CannonRaysComplete(g: Grid, camp: Side, p: Point, q: Point)
    requires WellFormed(g) && p.Valid()
    ensures (|| q in CannonRay(g, camp, p, Left, false) || q in CannonRay(g, camp, p, Right, false)
             || q in CannonRay(g, camp, p, Up, false) || q in CannonRay(g, camp, p, Down, false))
            <==> CannonTarget(g, camp, p, q)
  {
    LinedOnRay(p, q);
    CannonRayMembers(g, camp, p, Left, q);
    CannonRayMembers(g, camp, p, Right, q);
    CannonRayMembers(g, camp, p, Up, q);
    CannonRayMembers(g, camp, p, Down, q);
  }

  /** The two directions at right angles to `d`, in the order the generators try them. */
  function Aside(d: Dir): (Dir, Dir) {
    match d
    case Left => (Up, Down)
    case Right => (Up, Down)
    case Up => (Left, Right)
    case Down => (Left, Right)
  }

  /** `[q]` when `o` is a square not held by `camp`, else nothing. */
  ghost function Landing(g: Grid, camp: Side, o: Option<Point>): seq<Point>
    requires WellFormed(g)
  {
    if o.Some? && o.value.Valid() && !At(g, o.value).SameSide(camp) then [o.value] else []
  }

  /** What one quarter of the horse generator appends: both jumps over the neighbour in direction `d`, if it is empty. */
  ghost function HorseJumps(g: Grid, camp: Side, p: Point, d: Dir): seq<Point>
    requires WellFormed(g) && p.Valid()
  {
    match Next(p, d)
    case None => []
    case Some(n) =>
      if !At(g, n).IsEmpty() then []
      else match Next(n, d)
        case None => []
        case Some(m) => Landing(g, camp, Next(m, Aside(d).0)) + Landing(g, camp, Next(m, Aside(d).1))
  }

  /** A quarter of the horse generator appends exactly the jumps over that leg. */
  lemma HorseJumpsMembers(g: Grid, camp: Side, p: Point, d: Dir, q: Point)
    requires WellFormed(g) && p.Valid()
    ensures q in HorseJumps(g, camp, p, d) <==> HorseVia(g, camp, p, d, q)
  {
    if Next(p, d).Some? && At(g, Next(p, d).value).IsEmpty() && Next(Next(p, d).value, d).Some? {
      var m := Next(Next(p, d).value, d).value;
      assert HorseJumps(g, camp, p, d) == Landing(g, camp, Next(m, Aside(d).0)) + Landing(g, camp, Next(m, Aside(d).1));
      match d
      case Left => assert m == Point(p.x - 2, p.y);
      case Right => assert m == Point(p.x + 2, p.y);
      case Up => assert m == Point(p.x, p.y - 2);
      case Down => assert m == Point(p.x, p.y + 2);
    }
  }


  /** The horse's rule, split by the direction of the leg. */
  lemma HorseByLeg(g: Grid, camp: Side, p: Point, q: Point)
    requires WellFormed(g) && p.Valid()
    ensures HorseTarget(g, camp, p, q)
            <==> HorseVia(g, camp, p, Left, q) || HorseVia(g, camp, p, Right, q) || HorseVia(g, camp, p, Up, q) || HorseVia(g, camp, p, Down, q)
  {
  }

  /** The four quarters of the horse generator together hold exactly the horse targets. */
  lemma HorseJumpsComplete(g: Grid, camp: Side, p: Point, q: Point)
    requires WellFormed(g) && p.Valid()
    ensures q in HorseJumps(g, camp, p, Left) + HorseJumps(g, camp, p, Right)
                 + HorseJumps(g, camp, p, Up) + HorseJumps(g, camp, p, Down)
            <==> HorseTarget(g, camp, p, q)
  {
    HorseByLeg(g, camp, p, q);
    HorseJumpsMembers(g, camp, p, Left, q);
    HorseJumpsMembers(g, camp, p, Right, q);
    HorseJumpsMembers(g, camp, p, Up, q);
    HorseJumpsMembers(g, camp, p, Down, q);
  }

  /** Four appends leave the prefix alone and add exactly their concatenation. */
  lemma AppendedFour<T>(s: seq<T>, a: seq<T>, b: seq<T>, c: seq<T>, d: seq<T>)
    ensures (((s + a) + b) + c) + d == s + (a + b + c + d)
  {
  }

  datatype Diag = LeftUp | RightUp | LeftDown | RightDown

  /** The diagonal neighbour of `p` in direction `d`. */
  function DiagNext(p: Point, d: Diag): Option<Point> {
    match d
    case LeftUp => p.LeftUp()
    case RightUp => p.RightUp()
    case LeftDown => p.LeftDown()
    case RightDown => p.RightDown()
  }

  /** What one quarter of the elephant generator appends: the square two steps along `d`, over an empty eye. */
  ghost function ElephantJump(g: Grid, camp: Side, p: Point, d: Diag): seq<Point>
    requires WellFormed(g) && p.Valid()
  {
    match DiagNext(p, d)
    case None => []
    case Some(eye) => if At(g, eye).IsEmpty() then Landing(g, camp, DiagNext(eye, d)) else []
  }

  /** The elephant's rule, split by diagonal: `q` is two steps along `d` from `p` over an empty eye. */
  lemma ElephantByDiag(g: Grid, camp: Side, p: Point, q: Point)
    requires WellFormed(g) && p.Valid()
    ensures ElephantTarget(g, camp, p, q)
            <==> || ElephantVia(g, camp, p, LeftUp, q) || ElephantVia(g, camp, p, RightUp, q)
                 || ElephantVia(g, camp, p, LeftDown, q) || ElephantVia(g, camp, p, RightDown, q)
  {
    if q.Valid() && AbsDiff(p.x, q.x) == 2 && AbsDiff(p.y, q.y) == 2 {
      var d := if q.x < p.x then (if q.y < p.y then LeftUp else LeftDown)
               else (if q.y < p.y then RightUp else RightDown);
      var eye := DiagNext(p, d).value;
      assert eye == Eye(p, q);
      assert DiagNext(eye, d) == Some(q);
    }
  }

  /** An elephant move along the diagonal `d`. */
  ghost predicate ElephantVia(g: Grid, camp: Side, p: Point, d: Diag, q: Point)
    requires WellFormed(g) && p.Valid()
  {
    && DiagNext(p, d).Some? && At(g, DiagNext(p, d).value).IsEmpty()
    && DiagNext(DiagNext(p, d).value, d) == Some(q) && !At(g, q).SameSide(camp)
  }

  /** A quarter of the elephant generator appends exactly the move along its diagonal. */
  lemma ElephantJumpMembers(g: Grid, camp: Side, p: Point, d: Diag, q: Point)
    requires WellFormed(g) && p.Valid()
    ensures q in ElephantJump(g, camp, p, d) <==> ElephantVia(g, camp, p, d, q)
  {
  }

  /** The four quarters of the elephant generator together hold exactly the elephant targets. */
  lemma ElephantJumpsComplete(g: Grid, camp: Side, p: Point, q: Point)
    requires WellFormed(g) && p.Valid()
    ensures q in ElephantJump(g, camp, p, LeftUp) + ElephantJump(g, camp, p, RightUp)
                 + ElephantJump(g, camp, p, LeftDown) + ElephantJump(g, camp, p, RightDown)
            <==> ElephantTarget(g, camp, p, q)
  {
    ElephantByDiag(g, camp, p, q);
    ElephantJumpMembers(g, camp, p, LeftUp, q);
    ElephantJumpMembers(g, camp, p, RightUp, q);
    ElephantJumpMembers(g, camp, p, LeftDown, q);
    ElephantJumpMembers(g, camp, p, RightDown, q);
  }

  /** What one quarter of the guard generator appends: the diagonal neighbour, if open to `camp` and near the palace centre. */
  ghost function GuardStep(g: Grid, camp: Side, p: Point, d: Diag): seq<Point>
    requires WellFormed(g) && p.Valid()
  {
    match DiagNext(p, d)
    case None => []
    case Some(n) => if !At(g, n).SameSide(camp) && PalaceCentre(camp).Dis(n) <= 2 then [n] else []
  }

  /** The guard's rule, split by diagonal. */
  lemma GuardByDiag(g: Grid, camp: Side, p: Point, q: Point)
    requires WellFormed(g) && p.Valid()
    ensures GuardTarget(g, camp, p, q)
            <==> && (|| DiagNext(p, LeftUp) == Some(q) || DiagNext(p, RightUp) == Some(q)
                     || DiagNext(p, LeftDown) == Some(q) || DiagNext(p, RightDown) == Some(q))
                 && !At(g, q).SameSide(camp) && PalaceCentre(camp).Dis(q) <= 2
  {
  }

  /** A quarter of the guard generator appends exactly its diagonal neighbour, when the guard may go there. */
  lemma GuardStepMembers(g: Grid, camp: Side, p: Point, d: Diag, q: Point)
    requires WellFormed(g) && p.Valid()
    ensures q in GuardStep(g, camp, p, d)
            <==> DiagNext(p, d) == Some(q) && !At(g, q).SameSide(camp) && PalaceCentre(camp).Dis(q) <= 2
  {
  }

  /** The four quarters of the guard generator together hold exactly the guard targets. */
  lemma GuardStepsComplete(g: Grid, camp: Side, p: Point, q: Point)
    requires WellFormed(g) && p.Valid()
    ensures q in GuardStep(g, camp, p, LeftUp) + GuardStep(g, camp, p, RightUp)
                 + GuardStep(g, camp, p, LeftDown) + GuardStep(g, camp, p, RightDown)
            <==> GuardTarget(g, camp, p, q)
  {
    GuardByDiag(g, camp, p, q);
    GuardStepMembers(g, camp, p, LeftUp, q);
    GuardStepMembers(g, camp, p, RightUp, q);
    GuardStepMembers(g, camp, p, LeftDown, q);
    GuardStepMembers(g, camp, p, RightDown, q);
  }

  /** What one of the king's four step checks appends: the neighbour along `d`, if open to `camp` and inside the palace test. */
  ghost function KingStep(g: Grid, camp: Side, p: Point, d: Dir): seq<Point>
    requires WellFormed(g) && p.Valid()
  {
    match Next(p, d)
    case None => []
    case Some(n) =>
      if !At(g, n).SameSide(camp) && n.SpecialArea() && PalaceCentre(camp).Dis(n) <= 2 then [n] else []
  }

  /** A point at distance 1 is exactly an orthogonal neighbour. */
  lemma UnitDistance(p: Point, q: Point)
    requires p.Valid()
    ensures q.Valid() && p.Dis(q) == 1
            <==> Next(p, Left) == Some(q) || Next(p, Right) == Some(q) || Next(p, Up) == Some(q) || Next(p, Down) == Some(q)
  {
  }

  /** One of the king's step checks appends exactly its neighbour, when the king may go there. */
  lemma KingStepMembers(g: Grid, camp: Side, p: Point, d: Dir, q: Point)
    requires WellFormed(g) && p.Valid()
    ensures q in KingStep(g, camp, p, d)
            <==> && Next(p, d) == Some(q) && !At(g, q).SameSide(camp)
                 && q.SpecialArea() && PalaceCentre(camp).Dis(q) <= 2
  {
  }

  /** The king's four steps and its facing scan together hold exactly the king targets. */
  lemma KingStepsComplete(g: Grid, camp: Side, p: Point, q: Point)
    requires WellFormed(g) && p.Valid()
    ensures q in KingStep(g, camp, p, Left) + KingStep(g, camp, p, Right)
                 + KingStep(g, camp, p, Up) + KingStep(g, camp, p, Down)
                 + FlyingRay(g, p, FacingDir(camp))
            <==> KingTarget(g, camp, p, q)
  {
    UnitDistance(p, q);
    KingStepMembers(g, camp, p, Left, q);
    KingStepMembers(g, camp, p, Right, q);
    KingStepMembers(g, camp, p, Up, q);
    KingStepMembers(g, camp, p, Down, q);
    FlyingRayMembers(g, p, FacingDir(camp), q);
  }

  /** The square a pawn steps onto going forward: Red towards y = 0, Black towards y = 9. */
  function PawnForward(camp: Side, p: Point): Option<Point> {
    match camp
    case Red => p.Up()
    case Black => p.Down()
  }

  /** What the pawn generator appends: forward, then, once crossed, left and right. */
  ghost function PawnMoves(g: Grid, camp: Side, p: Point): seq<Point>
    requires WellFormed(g) && p.Valid()
  {
    Landing(g, camp, PawnForward(camp, p))
    + (if PawnCrossed(camp, p) then Landing(g, camp, p.Left()) + Landing(g, camp, p.Right()) else [])
  }

  /** The pawn generator's output holds exactly the pawn targets. */
  lemma PawnMovesComplete(g: Grid, camp: Side, p: Point, q: Point)
    requires WellFormed(g) && p.Valid()
    ensures q in PawnMoves(g, camp, p) <==> PawnTarget(g, camp, p, q)
  {
  }

  /** Five appends leave the prefix alone and add exactly their concatenation. */
  lemma AppendedFive<T>(s: seq<T>, a: seq<T>, b: seq<T>, c: seq<T>, d: seq<T>, e: seq<T>)
    ensures ((((s + a) + b) + c) + d) + e == s + (a + b + c + d + e)
  {
  }

  // ------------------------------------------------------- the generators

  /**
   * One quarter of the horse generator: when the neighbour in direction `d`
   * is empty, try the two squares beyond it and one aside.
   */
  method HorseJumpsOver(from: Point, d: Dir, camp: Side, board: ChessBoard, out0: seq<Point>, count0: nat)
    returns (out: seq<Point>, count: nat)
    requires board.Valid() && from.Valid()
    ensures out == out0 + HorseJumps(board.Contents, camp, from, d)
    ensures count == count0 + |out| - |out0|
  {
    out, count := out0, count0;
    var leg := Next(from, d);
    if leg.Some? && board.Get(leg.value).content.None? {
      var far := Next(leg.value, d);
      if far.Some? {
        var first := Next(far.value, Aside(d).0);
        if first.Some? && !board.Get(first.value).SameSide(camp) {
          out, count := out + [first.value], count + 1;
        }
        var second := Next(far.value, Aside(d).1);
        if second.Some? && !board.Get(second.value).SameSide(camp) {
          out, count := out + [second.value], count + 1;
        }
      }
    }
  }

  /** Horse: for each orthogonal neighbour that is empty, the two squares one further and one aside. */
  method HorseSteps(from: Point, camp: Side, board: ChessBoard, result: seq<Point>) returns (out: seq<Point>, count: nat)
    requires board.Valid() && from.Valid()
    ensures |out| >= |result| && out[..|result|] == result
    ensures count == |out| - |result|
    ensures forall q: Point :: q in out[|result|..] <==> HorseTarget(board.Contents, camp, from, q)
  {
    ghost var g := board.Contents;
    out, count := HorseJumpsOver(from, Left, camp, board, result, 0);
    out, count := HorseJumpsOver(from, Right, camp, board, out, count);
    out, count := HorseJumpsOver(from, Up, camp, board, out, count);
    out, count := HorseJumpsOver(from, Down, camp, board, out, count);
    AppendedFour(result, HorseJumps(g, camp, from, Left), HorseJumps(g, camp, from, Right),
                 HorseJumps(g, camp, from, Up), HorseJumps(g, camp, from, Down));
    forall q: Point
      ensures q in out[|result|..] <==> HorseTarget(g, camp, from, q)
    {
      HorseJumpsComplete(g, camp, from, q);
    }
  }

  /** One of the rook generator's four loops: scan along `d` until the edge or the first piece. */
  method RookScan(from: Point, d: Dir, camp: Side, board: ChessBoard, out0: seq<Point>, count0: nat)
    returns (out: seq<Point>, count: nat)
    requires board.Valid() && from.Valid()
    ensures out == out0 + RookRay(board.Contents, camp, from, d)
    ensures count == count0 + |out| - |out0|
  {
    ghost var g := board.Contents;
    out, count := out0, count0;
    var raw := Next(from, d);
    ghost var cur := from;
    while raw.Some?
      invariant cur.Valid() && raw == Next(cur, d)
      invariant out + RookRay(g, camp, cur, d) == out0 + RookRay(g, camp, from, d)
      invariant count == count0 + |out| - |out0|
      decreases Remaining(cur, d)
    {
      var next := raw.value;
      var chess := board.Get(next);
      if chess.content.None? {
        out, count := out + [next], count + 1;
      } else {
        if !chess.SameSide(camp) {
          out, count := out + [next], count + 1;
        }
        break;
      }
      raw := Next(next, d);
      cur := next;
    }
  }

  /** Rook: along each direction, empty squares up to the first piece, which is included when it is an enemy. */
  method RookSteps(from: Point, camp: Side, board: ChessBoard, result: seq<Point>) returns (out: seq<Point>, count: nat)
    requires board.Valid() && from.Valid()
    ensures |out| >= |result| && out[..|result|] == result
    ensures count == |out| - |result|
    ensures forall q: Point :: q in out[|result|..] <==> RookTarget(board.Contents, camp, from, q)
  {
    ghost var g := board.Contents;
    out, count := RookScan(from, Left, camp, board, result, 0);
    out, count := RookScan(from, Right, camp, board, out, count);
    out, count := RookScan(from, Up, camp, board, out, count);
    out, count := RookScan(from, Down, camp, board, out, count);
    AppendedFour(result, RookRay(g, camp, from, Left), RookRay(g, camp, from, Right),
                 RookRay(g, camp, from, Up), RookRay(g, camp, from, Down));
    forall q: Point
      ensures q in out[|result|..] <==> RookTarget(g, camp, from, q)
    {
      RookRaysComplete(g, camp, from, q);
    }
  }

  /**
   * One of the cannon generator's four loops: scan along `d`, taking empty
   * squares until the screen, then the next piece past it if it is an enemy.
   */
  method CannonScan(from: Point, d: Dir, camp: Side, board: ChessBoard, out0: seq<Point>, count0: nat)
    returns (out: seq<Point>, count: nat)
    requires board.Valid() && from.Valid()
    ensures out == out0 + CannonRay(board.Contents, camp, from, d, false)
    ensures count == count0 + |out| - |out0|
  {
    ghost var g := board.Contents;
    out, count := out0, count0;
    var raw := Next(from, d);
    var meet := false;
    ghost var cur := from;
    while raw.Some?
      invariant cur.Valid() && raw == Next(cur, d)
      invariant out + CannonRay(g, camp, cur, d, meet) == out0 + CannonRay(g, camp, from, d, false)
      invariant count == count0 + |out| - |out0|
      decreases Remaining(cur, d)
    {
      var next := raw.value;
      var chess := board.Get(next);
      if chess.content.None? {
        if !meet {
          out, count := out + [next], count + 1;
        }
      } else {
        if meet {
          if !chess.SameSide(camp) {
            out, count := out + [next], count + 1;
          }
          break;
        } else {
          meet := true;
        }
      }
      raw := Next(next, d);
      cur := next;
    }
  }

  /** Cannon: moves like a rook onto empty squares, and captures by jumping exactly one screen. */
  method CannonSteps(from: Point, camp: Side, board: ChessBoard, result: seq<Point>) returns (out: seq<Point>, count: nat)
    requires board.Valid() && from.Valid()
    ensures |out| >= |result| && out[..|result|] == result
    ensures count == |out| - |result|
    ensures forall q: Point :: q in out[|result|..] <==> CannonTarget(board.Contents, camp, from, q)
  {
    ghost var g := board.Contents;
    out, count := CannonScan(from, Left, camp, board, result, 0);
    out, count := CannonScan(from, Right, camp, board, out, count);
    out, count := CannonScan(from, Up, camp, board, out, count);
    out, count := CannonScan(from, Down, camp, board, out, count);
    AppendedFour(result, CannonRay(g, camp, from, Left, false), CannonRay(g, camp, from, Right, false),
                 CannonRay(g, camp, from, Up, false), CannonRay(g, camp, from, Down, false));
    forall q: Point
      ensures q in out[|result|..] <==> CannonTarget(g, camp, from, q)
    {
      CannonRaysComplete(g, camp, from, q);
    }
  }

  /** One quarter of the elephant generator: when the diagonal neighbour along `d` is empty, try the square beyond it. */
  method ElephantJumpOver(from: Point, d: Diag, camp: Side, board: ChessBoard, out0: seq<Point>, count0: nat)
    returns (out: seq<Point>, count: nat)
    requires board.Valid() && from.Valid()
    ensures out == out0 + ElephantJump(board.Contents, camp, from, d)
    ensures count == count0 + |out| - |out0|
  {
    out, count := out0, count0;
    var eye := DiagNext(from, d);
    if eye.Some? && board.Get(eye.value).content.None? {
      var far := DiagNext(eye.value, d);
      if far.Some? && !board.Get(far.value).SameSide(camp) {
        out, count := out + [far.value], count + 1;
      }
    }
  }

  /** Elephant: two squares diagonally over an empty eye; the river does not stop it. */
  method ElephantSteps(from: Point, camp: Side, board: ChessBoard, result: seq<Point>) returns (out: seq<Point>, count: nat)
    requires board.Valid() && from.Valid()
    ensures |out| >= |result| && out[..|result|] == result
    ensures count == |out| - |result|
    ensures forall q: Point :: q in out[|result|..] <==> ElephantTarget(board.Contents, camp, from, q)
  {
    ghost var g := board.Contents;
    out, count := ElephantJumpOver(from, LeftUp, camp, board, result, 0);
    out, count := ElephantJumpOver(from, RightUp, camp, board, out, count);
    out, count := ElephantJumpOver(from, LeftDown, camp, board, out, count);
    out, count := ElephantJumpOver(from, RightDown, camp, board, out, count);
    AppendedFour(result, ElephantJump(g, camp, from, LeftUp), ElephantJump(g, camp, from, RightUp),
                 ElephantJump(g, camp, from, LeftDown), ElephantJump(g, camp, from, RightDown));
    forall q: Point
      ensures q in out[|result|..] <==> ElephantTarget(g, camp, from, q)
    {
      ElephantJumpsComplete(g, camp, from, q);
    }
  }

  /** One quarter of the guard generator: the diagonal neighbour along `d`. */
  method GuardStepTo(from: Point, d: Diag, camp: Side, board: ChessBoard, out0: seq<Point>, count0: nat)
    returns (out: seq<Point>, count: nat)
    requires board.Valid() && from.Valid()
    ensures out == out0 + GuardStep(board.Contents, camp, from, d)
    ensures count == count0 + |out| - |out0|
  {
    out, count := out0, count0;
    var kingPos := PalaceCentre(camp);
    var next := DiagNext(from, d);
    if next.Some? && !board.Get(next.value).SameSide(camp) && kingPos.Dis(next.value) <= 2 {
      out, count := out + [next.value], count + 1;
    }
  }

  /** Guard: one square diagonally, staying within distance 2 of the palace centre. */
  method GuardSteps(from: Point, camp: Side, board: ChessBoard, result: seq<Point>) returns (out: seq<Point>, count: nat)
    requires board.Valid() && from.Valid()
    ensures |out| >= |result| && out[..|result|] == result
    ensures count == |out| - |result|
    ensures forall q: Point :: q in out[|result|..] <==> GuardTarget(board.Contents, camp, from, q)
  {
    ghost var g := board.Contents;
    out, count := GuardStepTo(from, LeftUp, camp, board, result, 0);
    out, count := GuardStepTo(from, RightUp, camp, board, out, count);
    out, count := GuardStepTo(from, LeftDown, camp, board, out, count);
    out, count := GuardStepTo(from, RightDown, camp, board, out, count);
    AppendedFour(result, GuardStep(g, camp, from, LeftUp), GuardStep(g, camp, from, RightUp),
                 GuardStep(g, camp, from, LeftDown), GuardStep(g, camp, from, RightDown));
    forall q: Point
      ensures q in out[|result|..] <==> GuardTarget(g, camp, from, q)
    {
      GuardStepsComplete(g, camp, from, q);
    }
  }

  /** One of the king's four step checks: the orthogonal neighbour along `d`. */
  method KingStepTo(from: Point, d: Dir, camp: Side, board: ChessBoard, out0: seq<Point>, count0: nat)
    returns (out: seq<Point>, count: nat)
    requires board.Valid() && from.Valid()
    ensures out == out0 + KingStep(board.Contents, camp, from, d)
    ensures count == count0 + |out| - |out0|
  {
    out, count := out0, count0;
    var kingPos := PalaceCentre(camp);
    var next := Next(from, d);
    if next.Some? && !board.Get(next.value).SameSide(camp) && next.value.SpecialArea() && kingPos.Dis(next.value) <= 2 {
      out, count := out + [next.value], count + 1;
    }
  }

  /** The king's facing scan: along its column towards the other side, up to the first piece, taken only if it is a king. */
  method FlyingScan(from: Point, camp: Side, board: ChessBoard, out0: seq<Point>, count0: nat)
    returns (out: seq<Point>, count: nat)
    requires board.Valid() && from.Valid()
    ensures out == out0 + FlyingRay(board.Contents, from, FacingDir(camp))
    ensures count == count0 + |out| - |out0|
  {
    ghost var g := board.Contents;
    out, count := out0, count0;
    var nxt := FacingDir(camp);
    var pos := from;
    while Next(pos, nxt).Some?
      invariant pos.Valid()
      invariant out + FlyingRay(g, pos, nxt) == out0 + FlyingRay(g, from, nxt)
      invariant count == count0 + |out| - |out0|
      decreases Remaining(pos, nxt)
    {
      var next := Next(pos, nxt).value;
      var chess := board.Get(next);
      if chess.content.Some? {
        if chess.content.value.0 == King {
          out, count := out + [next], count + 1;
        }
        break;
      }
      pos := next;
    }
  }

  /**
   * King: one orthogonal step inside the palace test, then a scan along its
   * column towards the other side, taking the first piece met if it is a king.
   */
  method KingSteps(from: Point, camp: Side, board: ChessBoard, result: seq<Point>) returns (out: seq<Point>, count: nat)
    requires board.Valid() && from.Valid()
    ensures |out| >= |result| && out[..|result|] == result
    ensures count == |out| - |result|
    ensures forall q: Point :: q in out[|result|..] <==> KingTarget(board.Contents, camp, from, q)
  {
    ghost var g := board.Contents;
    out, count := KingStepTo(from, Left, camp, board, result, 0);
    out, count := KingStepTo(from, Right, camp, board, out, count);
    out, count := KingStepTo(from, Up, camp, board, out, count);
    out, count := KingStepTo(from, Down, camp, board, out, count);
    out, count := FlyingScan(from, camp, board, out, count);
    AppendedFive(result, KingStep(g, camp, from, Left), KingStep(g, camp, from, Right),
                 KingStep(g, camp, from, Up), KingStep(g, camp, from, Down), FlyingRay(g, from, FacingDir(camp)));
    forall q: Point
      ensures q in out[|result|..] <==> KingTarget(g, camp, from, q)
    {
      KingStepsComplete(g, camp, from, q);
    }
  }

  /** Pawn: one step forward, and once across the river one step left or right. */
  method PawnSteps(from: Point, camp: Side, board: ChessBoard, result: seq<Point>) returns (out: seq<Point>, count: nat)
    requires board.Valid() && from.Valid()
    ensures |out| >= |result| && out[..|result|] == result
    ensures count == |out| - |result|
    ensures forall q: Point :: q in out[|result|..] <==> PawnTarget(board.Contents, camp, from, q)
  {
    ghost var g := board.Contents;
    out, count := result, 0;
    var rawUp := PawnForward(camp, from);
    if rawUp.Some? && !board.Get(rawUp.value).SameSide(camp) {
      out, count := out + [rawUp.value], count + 1;
    }
    ghost var forward := out;
    var leftRightSupport := PawnCrossed(camp, from);
    if leftRightSupport {
      var rawLeft := from.Left();
      if rawLeft.Some? && !board.Get(rawLeft.value).SameSide(camp) {
        out, count := out + [rawLeft.value], count + 1;
      }
      var rawRight := from.Right();
      if rawRight.Some? && !board.Get(rawRight.value).SameSide(camp) {
        out, count := out + [rawRight.value], count + 1;
      }
    }
    assert forward == result + Landing(g, camp, PawnForward(camp, from));
    assert out[|result|..] == PawnMoves(g, camp, from);
    forall q: Point
      ensures q in out[|result|..] <==> PawnTarget(g, camp, from, q)
    {
      PawnMovesComplete(g, camp, from, q);
    }
  }
}
