/**
 * Piece kinds, camps and their display characters, as used by the
 * move-check predicates (module ChessRule).
 */
module Pieces {

  datatype PieceType = Pawn | Rook | Knight | Bishop | Guard | King | Cannon | Empty

  datatype Camp = Red | Black

  /** A piece that is on the board: its kind and its camp. */
  datatype PieceExist = PieceExist(kind: PieceType, camp: Camp) {

    /** The character drawn for the piece; the two camps use different characters. */
    function Name(): (c: char)
      ensures c == ' ' <==> kind == Empty
      ensures kind == King ==> c == (if camp == Red then '帅' else '将')
      ensures kind == Pawn ==> c == (if camp == Red then '兵' else '卒')
    {
      match kind
      case Pawn => (match camp case Red => '兵' case Black => '卒')
      case Rook => (match camp case Red => '车' case Black => '車')
      case Knight => (match camp case Red => '马' case Black => '馬')
      case Bishop => (match camp case Red => '相' case Black => '象')
      case Guard => (match camp case Red => '仕' case Black => '士')
      case King => (match camp case Red => '帅' case Black => '将')
      case Cannon => (match camp case Red => '炮' case Black => '砲')
      case Empty => ' '
    }
  }

  /** A board cell: a piece, or nothing. */
  datatype Piece = Exist(piece: PieceExist) | None

  /** The placeholder kind is drawn as a blank whatever its camp. */
  lemma EmptyNameIsBlank(c: Camp)
    ensures PieceExist(Empty, c).Name() == ' '
  {
  }

  /** For every real kind, Red and Black are drawn differently. */
  lemma CampsDrawnDifferently(k: PieceType)
    requires k != Empty
    ensures PieceExist(k, Red).Name() != PieceExist(k, Black).Name()
  {
  }

  /** Over the real kinds the character determines the kind and the camp. */
  lemma NameInjective(a: PieceExist, b: PieceExist)
    requires a.kind != Empty && b.kind != Empty
    requires a.Name() == b.Name()
    ensures a == b
  {
  }
}
