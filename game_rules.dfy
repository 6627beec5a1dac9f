/** The rules ChessGame applies on top of the move generators, as functions
    of the board's contents: where a king stands, whether it is attacked,
    what a move does to the board, and which generated moves are legal. */
module GameRules {
  import opened Outcomes
  import opened ChessValues
  import opened Boards
  import opened MoveRules
  import opened PieceFacts

  /** A king of `color` stands on `p`. */
  predicate KingAt(g: Grid, p: Position, color: TeamColor)
    requires IsOnBoard(p)
  {
    At(g, p) == Some(Piece(color, King))
  }

  /** `q` comes before `p` when scanning rows 1..8, and columns 1..8 within
      a row. */
  predicate RowMajorBefore(q: Position, p: Position)
  {
    q.row < p.row || (q.row == p.row && q.column < p.column)
  }

  /** The scan of findKingPosition, resumed at (r, c). */
  function FindKingFrom(g: Grid, color: TeamColor, r: int, c: int): Option<Position>
    requires 1 <= r <= 9 && 1 <= c <= 9
    decreases 9 - r, 9 - c
  {
    if r > 8 then None
    else if c > 8 then FindKingFrom(g, color, r + 1, 1)
    else if KingAt(g, Position(r, c), color) then Some(Position(r, c))
    else FindKingFrom(g, color, r, c + 1)
  }

  /** findKingPosition: the first king of `color` in row-major order. */
  function FindKing(g: Grid, color: TeamColor): Option<Position>
  {
    FindKingFrom(g, color, 1, 1)
  }

  lemma {:induction false} FindKingFromFirst(g: Grid, color: TeamColor, r: int, c: int)
    requires 1 <= r <= 9 && 1 <= c <= 9
    requires forall q :: IsOnBoard(q) && RowMajorBefore(q, Position(r, c)) ==> !KingAt(g, q, color)
    ensures FindKingFrom(g, color, r, c).None? ==> forall q :: IsOnBoard(q) ==> !KingAt(g, q, color)
    ensures FindKingFrom(g, color, r, c).Some? ==>
            var p := FindKingFrom(g, color, r, c).value;
            IsOnBoard(p) && KingAt(g, p, color) &&
            forall q :: IsOnBoard(q) && RowMajorBefore(q, p) ==> !KingAt(g, q, color)
    decreases 9 - r, 9 - c
  {
    if r <= 8 {
      if c > 8 {
        FindKingFromFirst(g, color, r + 1, 1);
      } else if !KingAt(g, Position(r, c), color) {
        FindKingFromFirst(g, color, r, c + 1);
      }
    }
  }

  /** FindKing finds nothing exactly when `color` has no king; otherwise it
      finds a king of `color`, and no such king stands earlier in row-major
      order. */
  lemma FindKingFirst(g: Grid, color: TeamColor)
    ensures FindKing(g, color).None? <==> forall q :: IsOnBoard(q) ==> !KingAt(g, q, color)
    ensures FindKing(g, color).Some? ==>
            IsOnBoard(FindKing(g, color).value) && KingAt(g, FindKing(g, color).value, color) &&
            forall q :: IsOnBoard(q) && RowMajorBefore(q, FindKing(g, color).value) ==> !KingAt(g, q, color)
  {
    FindKingFromFirst(g, color, 1, 1);
  }

  /** Some move in `moves` ends on `target`. */
  predicate HitsSquare(moves: seq<Move>, target: Position)
  {
    exists i :: 0 <= i < |moves| && moves[i].endPosition == target
  }

  /** The piece on `from` is an enemy of `kingColor` and one of its generated
      moves ends on `target`. */
  predicate AttacksFrom(g: Grid, from: Position, target: Position, kingColor: TeamColor)
    requires IsOnBoard(from)
  {
    At(g, from).Some? && At(g, from).value.teamColor != kingColor &&
    HitsSquare(PieceMoves(At(g, from).value.pieceType, g, from), target)
  }

  /** underAttack: some enemy piece attacks `target`. */
  ghost predicate UnderAttack(g: Grid, target: Position, kingColor: TeamColor)
  {
    exists p :: IsOnBoard(p) && AttacksFrom(g, p, target, kingColor)
  }

  /** The scan of underAttack, resumed at (r, c): an enemy piece on (r, c) or
      on a later square in row-major order attacks `target`. */
  function AttackScanFrom(g: Grid, target: Position, kingColor: TeamColor, r: int, c: int): bool
    requires r >= 1 && c >= 1
    decreases 9 - r, 9 - c
  {
    if r > 8 then false
    else if c > 8 then AttackScanFrom(g, target, kingColor, r + 1, 1)
    else AttacksFrom(g, Position(r, c), target, kingColor) || AttackScanFrom(g, target, kingColor, r, c + 1)
  }

  /** The resumed scan finds exactly the attackers at or after (r, c). */
  lemma {:induction false} AttackScanFromMeans(g: Grid, target: Position, kingColor: TeamColor, r: int, c: int)
    requires 1 <= r <= 9 && 1 <= c <= 9
    ensures AttackScanFrom(g, target, kingColor, r, c) <==>
            exists p :: IsOnBoard(p) && !RowMajorBefore(p, Position(r, c)) && AttacksFrom(g, p, target, kingColor)
    decreases 9 - r, 9 - c
  {
    if r > 8 {
      assert forall p :: IsOnBoard(p) ==> RowMajorBefore(p, Position(r, c));
    } else if c > 8 {
      AttackScanFromMeans(g, target, kingColor, r + 1, 1);
      assert forall p :: IsOnBoard(p) ==>
               (RowMajorBefore(p, Position(r, c)) <==> RowMajorBefore(p, Position(r + 1, 1)));
    } else {
      AttackScanFromMeans(g, target, kingColor, r, c + 1);
      var here := Position(r, c);
      assert forall p :: IsOnBoard(p) ==>
               (!RowMajorBefore(p, here) <==> p == here || !RowMajorBefore(p, Position(r, c + 1)));
      if AttacksFrom(g, here, target, kingColor) {
        assert IsOnBoard(here) && !RowMajorBefore(here, here);
      }
    }
  }

  /** The whole scan decides underAttack. */
  lemma AttackScanIsUnderAttack(g: Grid, target: Position, kingColor: TeamColor)
    ensures AttackScanFrom(g, target, kingColor, 1, 1) == UnderAttack(g, target, kingColor)
  {
    AttackScanFromMeans(g, target, kingColor, 1, 1);
    assert forall p :: IsOnBoard(p) ==> !RowMajorBefore(p, Position(1, 1));
  }

  /** isInCheckOnBoard: `color` has a king (the first in row-major order) and
      it is attacked. */
  ghost predicate InCheckOnBoard(g: Grid, color: TeamColor)
  {
    match FindKing(g, color)
    case None => false
    case Some(kingSpot) => UnderAttack(g, kingSpot, color)
  }

  /** The piece that arrives on the end square: the mover, or a piece of the
      mover's colour of the promotion type. */
  function ArrivingPiece(g: Grid, move: Move): Option<Piece>
    requires IsOnBoard(move.startPosition)
  {
    match At(g, move.startPosition)
    case None => None
    case Some(mover) =>
      if move.promotionPiece.Some? then Some(Piece(mover.teamColor, move.promotionPiece.value)) else Some(mover)
  }

  /** The board after `move`: the start square cleared, then the arriving
      piece placed on the end square (executeBoardMove, and the simulation
      in causesOwnKingCheck). */
  function MovedGrid(g: Grid, move: Move): Grid
    requires IsOnBoard(move.startPosition) && IsOnBoard(move.endPosition)
  {
    Place(Place(g, move.startPosition, None), move.endPosition, ArrivingPiece(g, move))
  }

  /** A move empties its start square, puts the mover (or its promotion, in
      the mover's colour) on its end square, and changes nothing else. */
  lemma MovedGridEffects(g: Grid, move: Move, p: Position)
    requires IsOnBoard(move.startPosition) && IsOnBoard(move.endPosition) && IsOnBoard(p)
    requires move.startPosition != move.endPosition && At(g, move.startPosition).Some?
    ensures var after := MovedGrid(g, move);
            var mover := At(g, move.startPosition).value;
            && At(after, move.startPosition) == None
            && At(after, move.endPosition).Some?
            && At(after, move.endPosition).value.teamColor == mover.teamColor
            && At(after, move.endPosition).value.pieceType ==
               (if move.promotionPiece.Some? then move.promotionPiece.value else mover.pieceType)
            && (p != move.startPosition && p != move.endPosition ==> At(after, p) == At(g, p))
  {
  }

  /** causesOwnKingCheck: after the move, the mover's own king is attacked. */
  ghost predicate CausesSelfCheck(g: Grid, move: Move)
    requires IsOnBoard(move.startPosition) && IsOnBoard(move.endPosition)
  {
    match At(g, move.startPosition)
    case None => false
    case Some(mover) => InCheckOnBoard(MovedGrid(g, move), mover.teamColor)
  }

  /** Every move in `moves` starts and ends on the board. */
  predicate OnBoardMoves(moves: seq<Move>)
  {
    forall i :: 0 <= i < |moves| ==> IsOnBoard(moves[i].startPosition) && IsOnBoard(moves[i].endPosition)
  }

  /** The loop of validMoves: the moves that do not expose the mover's king,
      in their original order. */
  ghost function SafeMoves(g: Grid, moves: seq<Move>): seq<Move>
    requires OnBoardMoves(moves)
  {
    if |moves| == 0 then []
    else
      var last := moves[|moves| - 1];
      SafeMoves(g, moves[..|moves| - 1]) + (if CausesSelfCheck(g, last) then [] else [last])
  }

  lemma {:induction false} SafeMovesMembers(g: Grid, moves: seq<Move>, m: Move)
    requires OnBoardMoves(moves)
    ensures m in SafeMoves(g, moves) <==>
            m in moves && IsOnBoard(m.startPosition) && IsOnBoard(m.endPosition) && !CausesSelfCheck(g, m)
    decreases |moves|
  {
    if |moves| > 0 {
      var init := moves[..|moves| - 1];
      SafeMovesMembers(g, init, m);
      assert moves == init + [moves[|moves| - 1]];
    }
  }

  /** All generated moves start and end on the board. */
  lemma PieceMovesOnBoard(kind: PieceType, g: Grid, p: Position)
    requires IsOnBoard(p)
    ensures OnBoardMoves(PieceMoves(kind, g, p))
  {
    var moves := PieceMoves(kind, g, p);
    forall i | 0 <= i < |moves|
      ensures IsOnBoard(moves[i].startPosition) && IsOnBoard(moves[i].endPosition)
    {
      PieceMovesShape(kind, g, p, moves[i]);
    }
  }

  /** validMoves: nothing when `p` is empty, otherwise the piece's generated
      moves that do not leave its own king attacked. */
  ghost function LegalMoves(g: Grid, p: Position): Option<seq<Move>>
    requires IsOnBoard(p)
  {
    match At(g, p)
    case None => None
    case Some(piece) =>
      PieceMovesOnBoard(piece.pieceType, g, p);
      Some(SafeMoves(g, PieceMoves(piece.pieceType, g, p)))
  }

  /** A move is legal exactly when the piece on its start square generates it
      and it does not leave that piece's king attacked. */
  lemma LegalMovesMembers(g: Grid, p: Position, m: Move)
    requires IsOnBoard(p) && At(g, p).Some?
    ensures m in LegalMoves(g, p).value <==>
            m in PieceMoves(At(g, p).value.pieceType, g, p) &&
            m.startPosition == p && IsOnBoard(m.endPosition) &&
            !InCheckOnBoard(MovedGrid(g, m), At(g, p).value.teamColor)
  {
    var kind := At(g, p).value.pieceType;
    PieceMovesOnBoard(kind, g, p);
    SafeMovesMembers(g, PieceMoves(kind, g, p), m);
    if m in PieceMoves(kind, g, p) {
      PieceMovesShape(kind, g, p, m);
    }
  }

  /** After a legal move the mover's king is not attacked, and the mover
      (or its promotion) stands on the end square. */
  lemma LegalMoveLeavesKingSafe(g: Grid, p: Position, m: Move)
    requires IsOnBoard(p) && At(g, p).Some? && m in LegalMoves(g, p).value
    ensures IsOnBoard(m.startPosition) && IsOnBoard(m.endPosition) && m.startPosition == p
    ensures !InCheckOnBoard(MovedGrid(g, m), At(g, p).value.teamColor)
    ensures At(MovedGrid(g, m), p) == None
    ensures At(MovedGrid(g, m), m.endPosition) == ArrivingPiece(g, m)
  {
    LegalMovesMembers(g, p, m);
    PieceMovesShape(At(g, p).value.pieceType, g, p, m);
  }

  /** Why makeMove refuses a move. */
  datatype MoveError = NoPieceAtStart | NotYourTurn(color: TeamColor) | IllegalMove

  /** The checks of makeMove, in order. */
  ghost function MoveCheck(g: Grid, turn: TeamColor, move: Move): Outcome<MoveError>
    requires IsOnBoard(move.startPosition)
  {
    match At(g, move.startPosition)
    case None => Fail(NoPieceAtStart)
    case Some(piece) =>
      if piece.teamColor != turn then Fail(NotYourTurn(piece.teamColor))
      else if move !in LegalMoves(g, move.startPosition).value then Fail(IllegalMove)
      else Pass
  }

  /** makeMove accepts a move exactly when the start holds a piece of the
      side to move, that piece generates the move, the move ends on the
      board, and once played it leaves the mover's king unattacked. */
  lemma MoveCheckPasses(g: Grid, turn: TeamColor, move: Move)
    requires IsOnBoard(move.startPosition)
    ensures MoveCheck(g, turn, move).Pass? <==>
            At(g, move.startPosition).Some? && At(g, move.startPosition).value.teamColor == turn &&
            move in PieceMoves(At(g, move.startPosition).value.pieceType, g, move.startPosition) &&
            IsOnBoard(move.endPosition) && !InCheckOnBoard(MovedGrid(g, move), turn)
  {
    if At(g, move.startPosition).Some? {
      LegalMovesMembers(g, move.startPosition, move);
    }
  }
}
