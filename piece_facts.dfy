/** Facts common to every kind of piece, through ChessPiece.pieceMoves. */
module PieceFacts {
  import opened ChessValues
  import opened Boards
  import opened MoveRules
  import opened RayFacts
  import opened SliderFacts
  import opened JumpFacts
  import opened PawnFacts

  /** Every generated move starts on the given square, ends on another
      on-board square, and never lands on a piece of the mover's colour. */
  lemma PieceMovesShape(kind: PieceType, g: Grid, p: Position, m: Move)
    requires IsOnBoard(p) && m in PieceMoves(kind, g, p)
    ensures m.startPosition == p && IsOnBoard(m.endPosition) && m.endPosition != p
    ensures Landable(g, p, m.endPosition)
  {
    match kind
    case Rook =>
      RookMoveGeometry(g, p, m);
      SliderMoveShape(g, p, RookLines, m);
    case Bishop =>
      BishopMoveGeometry(g, p, m);
      SliderMoveShape(g, p, BishopDiagonals, m);
    case Queen =>
      QueenMoveGeometry(g, p, m);
      SliderMoveShape(g, p, QueenDirections, m);
    case Knight =>
      KnightMovesMembers(g, p, m);
    case King =>
      KingMovesMembers(g, p, m);
    case Pawn =>
      PawnMoveShape(g, p, true, m);
  }
}
