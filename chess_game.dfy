/** ChessGame: a board and the side to move. Moves are filtered by playing
    them on a copy of the board; makeMove applies a legal move and passes
    the turn. */
module Game {
  import opened Outcomes
  import opened ChessValues
  import opened Boards
  import opened MoveRules
  import opened MoveCalculators
  import opened PieceFacts
  import opened GameRules

  /** The public check queries are not implemented: they always fail. */
  datatype QueryError = NotImplemented

  class ChessGame {
    var board: ChessBoard
    var currentTurn: TeamColor

    ghost predicate Valid()
      reads this, board, board.boardArray
    {
      board.Valid()
    }

    /** A new game: the opening position, white to move. */
    constructor()
      ensures Valid() && fresh(board) && fresh(board.boardArray)
      ensures board.Squares == InitialGrid && currentTurn == White
    {
      var b := new ChessBoard();
      b.ResetBoard();
      board := b;
      currentTurn := White;
    }

    method GetTeamTurn() returns (team: TeamColor)
      ensures team == currentTurn
    {
      team := currentTurn;
    }

    method SetTeamTurn(team: TeamColor)
      modifies this
      ensures currentTurn == team && board == old(board)
    {
      currentTurn := team;
    }

    method GetBoard() returns (b: ChessBoard)
      ensures b == board
    {
      b := board;
    }

    method SetBoard(b: ChessBoard)
      requires b.Valid()
      modifies this
      ensures Valid()
      ensures board == b && currentTurn == old(currentTurn)
    {
      board := b;
    }

    /** copyBoard: a fresh board holding the same piece on every square. */
    static method CopyBoard(original: ChessBoard) returns (clone: ChessBoard)
      requires original.Valid()
      ensures fresh(clone) && fresh(clone.boardArray) && clone.Valid()
      ensures clone.Squares == original.Squares
    {
      clone := new ChessBoard();
      for r := 1 to 9
        invariant clone.Valid() && fresh(clone) && fresh(clone.boardArray)
        invariant forall p :: IsOnBoard(p) ==>
                    At(clone.Squares, p) == if p.row < r then At(original.Squares, p) else None
      {
        for c := 1 to 9
          invariant clone.Valid() && fresh(clone) && fresh(clone.boardArray)
          invariant forall p :: IsOnBoard(p) ==>
                      At(clone.Squares, p) ==
                      if p.row < r || (p.row == r && p.column < c) then At(original.Squares, p) else None
        {
          var pos := Position(r, c);
          var piece := original.GetPiece(pos);
          if piece.Some? {
            var copyPiece := Piece(piece.value.teamColor, piece.value.pieceType);
            clone.AddPiece(pos, Some(copyPiece));
          }
        }
      }
      SameCells(clone.Squares, original.Squares);
    }

    /** findKingPosition: the first king of `color` in row-major order. */
    static method FindKingPosition(color: TeamColor, theBoard: ChessBoard) returns (pos: Option<Position>)
      requires theBoard.Valid()
      ensures pos == FindKing(theBoard.Squares, color)
    {
      for r := 1 to 9
        invariant FindKingFrom(theBoard.Squares, color, r, 1) == FindKing(theBoard.Squares, color)
      {
        for c := 1 to 9
          invariant FindKingFrom(theBoard.Squares, color, r, c) == FindKing(theBoard.Squares, color)
        {
          var piece := theBoard.GetPiece(Position(r, c));
          if piece.Some? && piece.value.teamColor == color && piece.value.pieceType == King {
            return Some(Position(r, c));
          }
        }
      }
      return None;
    }

    /** The inner loop of underAttack: does some move end on `kingPos`? */
    static method AnyMoveEndsOn(enemyMoves: seq<Move>, kingPos: Position) returns (hit: bool)
      ensures hit == HitsSquare(enemyMoves, kingPos)
    {
      for i := 0 to |enemyMoves|
        invariant forall j :: 0 <= j < i ==> enemyMoves[j].endPosition != kingPos
      {
        if enemyMoves[i].endPosition.Equals(kingPos) {
          return true;
        }
      }
      return false;
    }

    /** underAttack: some piece not of `kingColor` has a generated move ending
        on `kingPos`. */
    static method UnderAttackOn(kingPos: Position, kingColor: TeamColor, theBoard: ChessBoard) returns (attacked: bool)
      requires theBoard.Valid()
      ensures attacked == UnderAttack(theBoard.Squares, kingPos, kingColor)
    {
      AttackScanIsUnderAttack(theBoard.Squares, kingPos, kingColor);
      for r := 1 to 9
        invariant AttackScanFrom(theBoard.Squares, kingPos, kingColor, r, 1)
               == AttackScanFrom(theBoard.Squares, kingPos, kingColor, 1, 1)
      {
        for c := 1 to 9
          invariant AttackScanFrom(theBoard.Squares, kingPos, kingColor, r, c)
                 == AttackScanFrom(theBoard.Squares, kingPos, kingColor, 1, 1)
        {
          var enemyPos := Position(r, c);
          var hit := EnemyHits(enemyPos, kingPos, kingColor, theBoard);
          if hit {
            return true;
          }
        }
      }
      return false;
    }

    /** One square of underAttack's scan: an enemy piece stands on `enemyPos`
        and one of its moves ends on `kingPos`. */
    static method EnemyHits(enemyPos: Position, kingPos: Position, kingColor: TeamColor, theBoard: ChessBoard)
      returns (hit: bool)
      requires theBoard.Valid() && IsOnBoard(enemyPos)
      ensures hit == AttacksFrom(theBoard.Squares, enemyPos, kingPos, kingColor)
    {
      var enemyPiece := theBoard.GetPiece(enemyPos);
      if enemyPiece.Some? && enemyPiece.value.teamColor != kingColor {
        var enemyMoves := PieceMovesOf(enemyPiece.value, theBoard, enemyPos);
        hit := AnyMoveEndsOn(enemyMoves, kingPos);
      } else {
        hit := false;
      }
    }

    /** isInCheckOnBoard. */
    static method IsInCheckOnBoard(color: TeamColor, tempBoard: ChessBoard) returns (inCheck: bool)
      requires tempBoard.Valid()
      ensures inCheck == InCheckOnBoard(tempBoard.Squares, color)
    {
      var kingSpot := FindKingPosition(color, tempBoard);
      if kingSpot.None? {
        return false;
      }
      inCheck := UnderAttackOn(kingSpot.value, color, tempBoard);
    }

    /** causesOwnKingCheck: plays the move on a copy of the board and asks
        whether the mover's king is then attacked; the live board is only
        read. */
    method CausesOwnKingCheck(move: Move) returns (exposes: bool)
      requires Valid() && IsOnBoard(move.startPosition) && IsOnBoard(move.endPosition)
      ensures exposes == CausesSelfCheck(board.Squares, move)
    {
      var mover := board.GetPiece(move.startPosition);
      if mover.None? {
        return false;
      }
      var moverColor := mover.value.teamColor;
      var temp := CopyBoard(board);
      var tempPiece := temp.GetPiece(move.startPosition);
      temp.AddPiece(move.startPosition, None);
      if move.promotionPiece.Some? {
        tempPiece := Some(Piece(moverColor, move.promotionPiece.value));
      }
      temp.AddPiece(move.endPosition, tempPiece);
      exposes := IsInCheckOnBoard(moverColor, temp);
    }

    /** validMoves: None for an empty square, otherwise the generated moves
        that do not expose the mover's king, in generation order. */
    method ValidMoves(startPosition: Position) returns (moves: Option<seq<Move>>)
      requires Valid() && IsOnBoard(startPosition)
      ensures moves == LegalMoves(board.Squares, startPosition)
      ensures moves.None? <==> At(board.Squares, startPosition).None?
    {
      var piece := board.GetPiece(startPosition);
      if piece.None? {
        return None;
      }
      var rawMoves := PieceMovesOf(piece.value, board, startPosition);
      PieceMovesOnBoard(piece.value.pieceType, board.Squares, startPosition);
      var legalMoves := [];
      for i := 0 to |rawMoves|
        invariant legalMoves == SafeMoves(board.Squares, rawMoves[..i])
      {
        assert rawMoves[..i + 1][..i] == rawMoves[..i];
        var exposes := CausesOwnKingCheck(rawMoves[i]);
        if !exposes {
          legalMoves := legalMoves + [rawMoves[i]];
        }
      }
      assert rawMoves[..|rawMoves|] == rawMoves;
      return Some(legalMoves);
    }

    /** executeBoardMove: clear the start square, then put the mover (or its
        promotion) on the end square. */
    method ExecuteBoardMove(move: Move)
      requires Valid() && IsOnBoard(move.startPosition) && IsOnBoard(move.endPosition)
      requires move.promotionPiece.Some? ==> At(board.Squares, move.startPosition).Some?
      modifies board, board.boardArray
      ensures Valid()
      ensures board.Squares == MovedGrid(old(board.Squares), move)
    {
      var movingPiece := board.GetPiece(move.startPosition);
      board.AddPiece(move.startPosition, None);
      if move.promotionPiece.Some? {
        movingPiece := Some(Piece(movingPiece.value.teamColor, move.promotionPiece.value));
      }
      board.AddPiece(move.endPosition, movingPiece);
    }

    /** makeMove: refuses a move from an empty square, a move of the side not
        to move, and a move not among the valid moves, changing nothing;
        otherwise plays it and passes the turn. */
    method MakeMove(move: Move) returns (outcome: Outcome<MoveError>)
      requires Valid() && IsOnBoard(move.startPosition)
      modifies this, board, board.boardArray
      ensures Valid() && board == old(board)
      ensures outcome == MoveCheck(old(board.Squares), old(currentTurn), move)
      ensures outcome.Fail? ==> board.Squares == old(board.Squares) && currentTurn == old(currentTurn)
      ensures outcome.Pass? ==>
                IsOnBoard(move.endPosition) &&
                board.Squares == MovedGrid(old(board.Squares), move) &&
                currentTurn == Opponent(old(currentTurn))
    {
      var startPiece := board.GetPiece(move.startPosition);
      if startPiece.None? {
        return Fail(NoPieceAtStart);
      }
      if startPiece.value.teamColor != currentTurn {
        return Fail(NotYourTurn(startPiece.value.teamColor));
      }
      var possibleMoves := ValidMoves(move.startPosition);
      if possibleMoves.None? || move !in possibleMoves.value {
        return Fail(IllegalMove);
      }
      LegalMoveLeavesKingSafe(board.Squares, move.startPosition, move);
      ExecuteBoardMove(move);
      currentTurn := if currentTurn == White then Black else White;
      return Pass;
    }

    /** isInCheck: not implemented. */
    method IsInCheck(teamColor: TeamColor) returns (r: Result<bool, QueryError>)
      ensures r == Failure(NotImplemented)
    {
      return Failure(NotImplemented);
    }

    /** isInCheckmate: not implemented. */
    method IsInCheckmate(teamColor: TeamColor) returns (r: Result<bool, QueryError>)
      ensures r == Failure(NotImplemented)
    {
      return Failure(NotImplemented);
    }

    /** isInStalemate: not implemented. */
    method IsInStalemate(teamColor: TeamColor) returns (r: Result<bool, QueryError>)
      ensures r == Failure(NotImplemented)
    {
      return Failure(NotImplemented);
    }
  }
}
