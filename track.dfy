/**
 * The move recorder: a board together with the history of the moves made
 * on it. A move is first attempted, which checks it against the piece's
 * destination generator and yields a pending transaction, and is then
 * committed, which records it and updates the board.
 */
module Track {
  import opened Wrappers
  import opened Points
  import opened Chess
  import opened TrackSteps

  /** One recorded move: origin, destination and whatever stood on the destination. */
  datatype Step = Step(from: Point, to: Point, eaten: ChessPiece)

  /** `q` is a legal destination for whatever stands at `from`; an empty square has none. */
  ghost predicate Destination(g: Grid, from: Point, q: Point)
    requires WellFormed(g) && from.Valid()
  {
    match At(g, from).content
    case None => false
    case Some((kind, side)) =>
      match kind
      case King => KingTarget(g, side, from, q)
      case Guard => GuardTarget(g, side, from, q)
      case Elephant => ElephantTarget(g, side, from, q)
      case Horse => HorseTarget(g, side, from, q)
      case Rook => RookTarget(g, side, from, q)
      case Cannon => CannonTarget(g, side, from, q)
      case Pawn => PawnTarget(g, side, from, q)
  }

  /** The board after moving the piece at `from` onto `to` and emptying `from`. */
  function Moved(g: Grid, from: Point, to: Point): (r: Grid)
    requires WellFormed(g) && from.Valid() && to.Valid()
    ensures WellFormed(r)
  {
    Update(Update(g, to, At(g, from)), from, ChessPiece(None))
  }

  class BoardTrack {
    const inner: ChessBoard
    var steps: seq<Step>

    ghost predicate Valid()
      reads this, inner, inner.cells
    {
      inner.Valid()
    }

    /** A fresh game: the opening layout and an empty history. */
    constructor ()
      ensures Valid() && fresh(inner) && fresh(inner.cells)
      ensures inner.Contents == Opening() && steps == []
    {
      inner := new ChessBoard();
      steps := [];
    }

    /**
     * Appends the destinations of the piece at `from` to `result` and returns
     * how many it appended; an empty square appends nothing and returns 0.
     */
    method GetSteps(from: Point, result: seq<Point>) returns (out: seq<Point>, count: nat)
      requires Valid() && from.Valid()
      ensures |out| >= |result| && out[..|result|] == result
      ensures count == |out| - |result|
      ensures forall q: Point :: q in out[|result|..] <==> Destination(inner.Contents, from, q)
      ensures At(inner.Contents, from).IsEmpty() ==> out == result && count == 0
    {
      var piece := inner.Get(from);
      if piece.content.None? {
        return result, 0;
      }
      var (pieceType, side) := piece.content.value;
      match pieceType
      case King => out, count := KingSteps(from, side, inner, result);
      case Guard => out, count := GuardSteps(from, side, inner, result);
      case Elephant => out, count := ElephantSteps(from, side, inner, result);
      case Horse => out, count := HorseSteps(from, side, inner, result);
      case Rook => out, count := RookSteps(from, side, inner, result);
      case Cannon => out, count := CannonSteps(from, side, inner, result);
      case Pawn => out, count := PawnSteps(from, side, inner, result);
    }

    /**
     * Checks `to` against the destinations of the piece at `from`. A legal
     * move yields a pending transaction recording what stands on `to`; the
     * board and the history are left as they are until it is committed.
     */
    method AttemptStep(from: Point, to: Point) returns (r: Option<StepTransaction>)
      requires Valid() && from.Valid() && to.Valid()
      ensures r.Some? <==> Destination(inner.Contents, from, to)
      ensures r.Some? ==> && fresh(r.value) && r.value.track == this
                          && r.value.step == Step(from, to, At(inner.Contents, to))
    {
      var candidates, _ := GetSteps(from, []);
      var i := 0;
      while i < |candidates|
        invariant 0 <= i <= |candidates|
        invariant forall k :: 0 <= k < i ==> candidates[k] != to
      {
        if candidates[i] == to {
          var eaten := inner.Get(to);
          var transaction := new StepTransaction(this, Step(from, to, eaten));
          return Some(transaction);
        }
        i := i + 1;
      }
      return None;
    }
  }

  /** A move that has been checked but not yet applied. */
  class StepTransaction {
    const track: BoardTrack
    const step: Step

    constructor (track: BoardTrack, step: Step)
      ensures this.track == track && this.step == step
    {
      this.track := track;
      this.step := step;
    }

    /** Records the step in the history, moves the piece onto `to` and empties `from`. */
    method Commit()
      requires track.Valid() && step.from.Valid() && step.to.Valid()
      modifies track, track.inner, track.inner.cells
      ensures track.Valid()
      ensures track.steps == old(track.steps) + [step]
      ensures track.inner.Contents == Moved(old(track.inner.Contents), step.from, step.to)
    {
      var startStep := step.from;
      var endStep := step.to;
      track.steps := track.steps + [step];
      var moving := track.inner.Get(startStep);
      track.inner.Set(endStep, moving);
      track.inner.Set(startStep, ChessPiece(None));
    }
  }

  /** No piece may stay where it is: a destination is never the origin. */
  lemma DestinationNotOrigin(g: Grid, from: Point, q: Point)
    requires WellFormed(g) && from.Valid()
    ensures Destination(g, from, q) ==> q != from
  {
  }

  /** Every destination other than a king's flying capture is empty or holds an enemy piece. */
  lemma NoOwnCapture(g: Grid, from: Point, q: Point)
    requires WellFormed(g) && from.Valid()
    requires Destination(g, from, q)
    requires !(At(g, from).content.value.0 == King && FlyingTarget(g, At(g, from).content.value.1, from, q))
    ensures !At(g, q).SameSide(At(g, from).content.value.1)
  {
  }

  /** A committed move: the mover stands on `to`, `from` is empty, every other square is as before. */
  lemma MovedSpec(g: Grid, from: Point, to: Point, q: Point)
    requires WellFormed(g) && from.Valid() && to.Valid() && from != to && q.Valid()
    ensures At(Moved(g, from, to), to) == At(g, from)
    ensures At(Moved(g, from, to), from).IsEmpty()
    ensures q != from && q != to ==> At(Moved(g, from, to), q) == At(g, q)
  {
  }

  /**
   * The pawn direction against the opening layout: each side's pawn steps
   * towards its own back rank (Red's from (0, 3) to (0, 2), Black's from
   * (0, 6) to (0, 7)) and is never offered the square towards the river.
   */
  lemma OpeningPawnDirection()
    ensures Destination(Opening(), Point(0, 3), Point(0, 2))
    ensures !Destination(Opening(), Point(0, 3), Point(0, 4))
    ensures Destination(Opening(), Point(0, 6), Point(0, 7))
    ensures !Destination(Opening(), Point(0, 6), Point(0, 5))
  {
  }
}
