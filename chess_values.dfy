/** The immutable values of the rules engine: colours, piece kinds, pieces,
    squares and moves (ChessGame.TeamColor, ChessPiece, ChessPosition, ChessMove). */
module ChessValues {
  import opened Outcomes

  datatype TeamColor = White | Black

  /** The other side; the turn flips to it after every move. */
  function Opponent(c: TeamColor): (o: TeamColor)
    ensures o != c
  {
    if c == White then Black else White
  }

  datatype PieceType = King | Queen | Bishop | Knight | Rook | Pawn

  /** A piece has no identity beyond its colour and its kind. */
  datatype Piece = Piece(teamColor: TeamColor, pieceType: PieceType)
  {
    /** ChessPiece.equals */
    predicate Equals(other: Piece)
      ensures Equals(other) <==> teamColor == other.teamColor && pieceType == other.pieceType
    {
      this == other
    }
  }

  /** A square; the constructor accepts any integers, so callers keep rows and
      columns in 1..8 themselves (see IsOnBoard). */
  datatype Position = Position(row: int, column: int)
  {
    /** ChessPosition.equals */
    predicate Equals(other: Position)
      ensures Equals(other) <==> row == other.row && column == other.column
    {
      this == other
    }
  }

  /** moveCalculator.onBoard: both coordinates within 1..8. */
  predicate OnBoard(row: int, col: int)
  {
    1 <= row <= 8 && 1 <= col <= 8
  }

  predicate IsOnBoard(p: Position)
  {
    OnBoard(p.row, p.column)
  }

  /** A move; a `None` promotion is Java's `null`, meaning "no promotion". */
  datatype Move = Move(startPosition: Position, endPosition: Position, promotionPiece: Option<PieceType>)
  {
    /** ChessMove.equals: structural, with `null` equal only to `null`. */
    predicate Equals(other: Move)
      ensures Equals(other) <==>
        && startPosition.Equals(other.startPosition)
        && endPosition.Equals(other.endPosition)
        && (promotionPiece.None? <==> other.promotionPiece.None?)
        && (promotionPiece.Some? ==> promotionPiece.value == other.promotionPiece.value)
    {
      this == other
    }
  }
}
