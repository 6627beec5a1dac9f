/** The move generators as the loops they are, reading a ChessBoard; each
    is proved to compute the corresponding function of MoveRules. None of
    them writes to the board. */
module MoveCalculators {
  import opened Outcomes
  import opened ChessValues
  import opened Boards
  import opened MoveRules

  /** moveCalculator.gatherMovesInDirection. */
  method GatherMovesInDirection(board: ChessBoard, origin: Position, dRow: int, dCol: int, keepGoing: bool)
    returns (movesFound: seq<Move>)
    requires board.Valid() && IsOnBoard(origin) && NonZero((dRow, dCol))
    ensures movesFound == Ray(board.Squares, origin, (dRow, dCol), keepGoing)
  {
    ghost var g := board.Squares;
    movesFound := [];
    var row := origin.row;
    var col := origin.column;
    RayPrefixStart(g, origin, (dRow, dCol), keepGoing);
    while true
      invariant RayPrefix(g, origin, (dRow, dCol), keepGoing, row + dRow, col + dCol, movesFound)
      decreases Room(row + dRow, dRow) + Room(col + dCol, dCol)
    {
      row := row + dRow;
      col := col + dCol;
      var found, goOn := LookAt(board, origin, row, col, keepGoing);
      RayPrefixStep(g, origin, dRow, dCol, keepGoing, row, col, movesFound, found, goOn);
      movesFound := movesFound + found;
      if !goOn {
        break;
      }
    }
  }

  /** The loop invariant of gatherMovesInDirection: the moves found so far,
      followed by the rest of the ray from (row, col) on, make up the whole
      ray. */
  ghost predicate RayPrefix(g: Grid, origin: Position, d: Direction, keepGoing: bool, row: int, col: int, found: seq<Move>)
    requires IsOnBoard(origin) && NonZero(d)
  {
    found + RayFrom(g, origin, row, col, d, keepGoing) == Ray(g, origin, d, keepGoing)
  }

  lemma RayPrefixStart(g: Grid, origin: Position, d: Direction, keepGoing: bool)
    requires IsOnBoard(origin) && NonZero(d)
    ensures RayPrefix(g, origin, d, keepGoing, origin.row + d.0, origin.column + d.1, [])
  {
    assert [] + Ray(g, origin, d, keepGoing) == Ray(g, origin, d, keepGoing);
  }

  /** One pass at (row, col) keeps the invariant while the walk goes on,
      leaves less room to the edge, and completes the ray when it stops. */
  lemma RayPrefixStep(g: Grid, origin: Position, dRow: int, dCol: int, keepGoing: bool, row: int, col: int,
                      before: seq<Move>, found: seq<Move>, goOn: bool)
    requires IsOnBoard(origin) && NonZero((dRow, dCol))
    requires RayPrefix(g, origin, (dRow, dCol), keepGoing, row, col, before)
    requires (found, goOn) == RayStep(g, origin, row, col, keepGoing)
    ensures goOn ==> RayPrefix(g, origin, (dRow, dCol), keepGoing, row + dRow, col + dCol, before + found)
    ensures goOn ==> Room(row + dRow, dRow) + Room(col + dCol, dCol) < Room(row, dRow) + Room(col, dCol)
    ensures !goOn ==> before + found == Ray(g, origin, (dRow, dCol), keepGoing)
  {
    var d := (dRow, dCol);
    if goOn {
      var rest := RayFrom(g, origin, row + dRow, col + dCol, d, keepGoing);
      assert before + (found + rest) == (before + found) + rest;
      RoomShrinks(row, col, d);
    }
  }

  /** One pass of gatherMovesInDirection's loop, at (row, col). */
  method LookAt(board: ChessBoard, origin: Position, row: int, col: int, keepGoing: bool)
    returns (found: seq<Move>, goOn: bool)
    requires board.Valid() && IsOnBoard(origin)
    ensures (found, goOn) == RayStep(board.Squares, origin, row, col, keepGoing)
  {
    found := [];
    goOn := false;
    if !OnBoard(row, col) {
      return;
    }
    var nextPos := Position(row, col);
    var nextMove := Move(origin, nextPos, None);
    if board.GetPiece(nextPos).Some? {
      if CanCapture(board.GetPiece(origin), board.GetPiece(nextPos)) {
        found := [nextMove];
      }
    } else {
      found := [nextMove];
      goOn := keepGoing;
    }
  }

  /** The loop of the rook, bishop and queen generators: one ray per table
      entry, appended in table order. */
  method GatherRays(board: ChessBoard, startPos: Position, directions: seq<Direction>)
    returns (moves: seq<Move>)
    requires board.Valid() && IsOnBoard(startPos) && AllNonZero(directions)
    ensures moves == RaysAlong(board.Squares, startPos, directions)
  {
    moves := [];
    for i := 0 to |directions|
      invariant moves == RaysAlong(board.Squares, startPos, directions[..i])
    {
      assert directions[..i + 1][..i] == directions[..i];
      var ray := GatherMovesInDirection(board, startPos, directions[i].0, directions[i].1, true);
      moves := moves + ray;
    }
    assert directions[..|directions|] == directions;
  }

  /** RookMoves.allPossibleMoves (and its copy rookMoves). */
  method RookPossibleMoves(board: ChessBoard, startPos: Position) returns (rookMoves: seq<Move>)
    requires board.Valid() && IsOnBoard(startPos)
    ensures rookMoves == RookMoves(board.Squares, startPos)
  {
    rookMoves := GatherRays(board, startPos, RookLines);
  }

  /** BishopMoves.allPossibleMoves (both copies). */
  method BishopPossibleMoves(board: ChessBoard, startPos: Position) returns (bishopMoves: seq<Move>)
    requires board.Valid() && IsOnBoard(startPos)
    ensures bishopMoves == BishopMoves(board.Squares, startPos)
  {
    bishopMoves := GatherRays(board, startPos, BishopDiagonals);
  }

  /** queenMoves.allPossibleMoves (and its copy QueenMoves). */
  method QueenPossibleMoves(board: ChessBoard, startPos: Position) returns (queenMoves: seq<Move>)
    requires board.Valid() && IsOnBoard(startPos)
    ensures queenMoves == QueenMoves(board.Squares, startPos)
  {
    queenMoves := GatherRays(board, startPos, QueenDirections);
  }

  /** The loop of the knight and king generators: each offset whose square is
      on the board and empty or capturable. */
  method GatherJumps(board: ChessBoard, startPos: Position, offsets: seq<Direction>)
    returns (moves: seq<Move>)
    requires board.Valid() && IsOnBoard(startPos)
    ensures moves == JumpMoves(board.Squares, startPos, offsets)
  {
    moves := [];
    for i := 0 to |offsets|
      invariant moves == JumpMoves(board.Squares, startPos, offsets[..i])
    {
      JumpsExtend(board.Squares, startPos, offsets, i);
      var row := startPos.row + offsets[i].0;
      var col := startPos.column + offsets[i].1;
      if OnBoard(row, col) {
        var potential := Position(row, col);
        if board.GetPiece(potential).None? || CanCapture(board.GetPiece(startPos), board.GetPiece(potential)) {
          moves := moves + [Move(startPos, potential, None)];
        }
      }
    }
    assert offsets[..|offsets|] == offsets;
  }

  /** One more offset of the table adds its jump. */
  lemma JumpsExtend(g: Grid, s: Position, offsets: seq<Direction>, i: int)
    requires IsOnBoard(s) && 0 <= i < |offsets|
    ensures JumpMoves(g, s, offsets[..i + 1]) == JumpMoves(g, s, offsets[..i]) + Jump(g, s, offsets[i])
  {
    assert offsets[..i + 1][..i] == offsets[..i];
  }

  /** KnightMoves.allPossibleMoves. */
  method KnightPossibleMoves(board: ChessBoard, startPos: Position) returns (knightMoves: seq<Move>)
    requires board.Valid() && IsOnBoard(startPos)
    ensures knightMoves == KnightMoves(board.Squares, startPos)
  {
    knightMoves := [];
    if board.GetPiece(startPos).None? {
      return;
    }
    knightMoves := GatherJumps(board, startPos, KnightJumps);
  }

  /** kingMoves.allPossibleMoves. */
  method KingPossibleMoves(board: ChessBoard, startPos: Position) returns (kingMoves: seq<Move>)
    requires board.Valid() && IsOnBoard(startPos)
    ensures kingMoves == KingMoves(board.Squares, startPos)
  {
    kingMoves := [];
    if board.GetPiece(startPos).None? {
      return;
    }
    kingMoves := GatherJumps(board, startPos, KingSteps);
  }

  /** The straight-ahead part of the pawn generators: one square if it is
      empty, then two from the start row if that square is empty too. */
  method GatherPawnAdvance(board: ChessBoard, startPos: Position, isWhite: bool, promote: bool)
    returns (moves: seq<Move>)
    requires board.Valid() && IsOnBoard(startPos)
    ensures moves == PawnAdvance(board.Squares, startPos, isWhite, promote)
  {
    moves := [];
    var step := if isWhite then 1 else -1;
    var row := startPos.row;
    var col := startPos.column;
    var oneForwardRow := row + step;
    if OnBoard(oneForwardRow, col) {
      var oneForward := Position(oneForwardRow, col);
      if board.GetPiece(oneForward).None? {
        moves := moves + PawnLanding(startPos, oneForward, isWhite, promote);
        if OnStartRow(row, isWhite) {
          var twoForwardRow := row + 2 * step;
          if OnBoard(twoForwardRow, col) {
            var twoForward := Position(twoForwardRow, col);
            if board.GetPiece(twoForward).None? {
              moves := moves + [Move(startPos, twoForward, None)];
            }
          }
        }
      }
    }
  }

  /** The body shared by the two pawn generators; `promote` selects the
      promoting one. */
  method GatherPawnMoves(board: ChessBoard, startPos: Position, promote: bool) returns (moves: seq<Move>)
    requires board.Valid() && IsOnBoard(startPos)
    ensures moves == PawnMovesWith(board.Squares, startPos, promote)
  {
    ghost var g := board.Squares;
    moves := [];
    var pawn := board.GetPiece(startPos);
    if pawn.None? {
      return;
    }
    var isWhite := pawn.value.teamColor == White;
    var step := if isWhite then 1 else -1;
    moves := GatherPawnAdvance(board, startPos, isWhite, promote);
    ghost var advance := moves;

    var diagonalOffsets := DiagonalOffsets(step);
    for i := 0 to |diagonalOffsets|
      invariant moves == advance + PawnCaptures(g, startPos, isWhite, promote, diagonalOffsets[..i])
    {
      var captures := GatherPawnCapture(board, startPos, isWhite, promote, diagonalOffsets[i]);
      CapturesExtend(g, startPos, isWhite, promote, diagonalOffsets, i, advance, moves, captures);
      moves := moves + captures;
    }
    PawnMovesSplit(g, startPos, promote, diagonalOffsets, advance, moves);
  }

  /** One pass of the diagonal loop appends the capture at the next offset. */
  lemma CapturesExtend(g: Grid, s: Position, isWhite: bool, promote: bool, offsets: seq<Direction>, i: int,
                       advance: seq<Move>, moves: seq<Move>, captures: seq<Move>)
    requires IsOnBoard(s) && 0 <= i < |offsets|
    requires moves == advance + PawnCaptures(g, s, isWhite, promote, offsets[..i])
    requires captures == PawnCapture(g, s, isWhite, promote, offsets[i])
    ensures moves + captures == advance + PawnCaptures(g, s, isWhite, promote, offsets[..i + 1])
  {
    assert offsets[..i + 1][..i] == offsets[..i];
  }

  /** After the diagonal loop the moves are those of PawnMovesWith. */
  lemma PawnMovesSplit(g: Grid, s: Position, promote: bool, offsets: seq<Direction>, advance: seq<Move>, moves: seq<Move>)
    requires IsOnBoard(s) && At(g, s).Some?
    requires advance == PawnAdvance(g, s, At(g, s).value.teamColor == White, promote)
    requires offsets == DiagonalOffsets(PawnStep(At(g, s).value.teamColor == White))
    requires moves == advance + PawnCaptures(g, s, At(g, s).value.teamColor == White, promote, offsets[..|offsets|])
    ensures moves == PawnMovesWith(g, s, promote)
  {
    assert offsets[..|offsets|] == offsets;
  }

  /** One pass of the pawn generators' diagonal loop: the capture, if any,
      on the square at `offset`. */
  method GatherPawnCapture(board: ChessBoard, startPos: Position, isWhite: bool, promote: bool, offset: Direction)
    returns (captures: seq<Move>)
    requires board.Valid() && IsOnBoard(startPos)
    ensures captures == PawnCapture(board.Squares, startPos, isWhite, promote, offset)
  {
    captures := [];
    var newRow := startPos.row + offset.0;
    var newCol := startPos.column + offset.1;
    if OnBoard(newRow, newCol) {
      var diagPos := Position(newRow, newCol);
      if CanCapture(board.GetPiece(startPos), board.GetPiece(diagPos)) {
        captures := PawnLanding(startPos, diagPos, isWhite, promote);
      }
    }
  }

  /** pawnMoves.allPossibleMoves: far-rank moves become four promotions. */
  method PawnPossibleMoves(board: ChessBoard, startPos: Position) returns (moves: seq<Move>)
    requires board.Valid() && IsOnBoard(startPos)
    ensures moves == PawnMoves(board.Squares, startPos)
  {
    moves := GatherPawnMoves(board, startPos, true);
  }

  /** PieceMovesCalculator/PawnMoves.allPossibleMoves: never promotes. */
  method PlainPawnPossibleMoves(board: ChessBoard, startPos: Position) returns (pawnMoves: seq<Move>)
    requires board.Valid() && IsOnBoard(startPos)
    ensures pawnMoves == PlainPawnMoves(board.Squares, startPos)
  {
    pawnMoves := GatherPawnMoves(board, startPos, false);
  }

  /** ChessPiece.pieceMoves: the generator for the piece's kind. */
  method PieceMovesOf(piece: Piece, board: ChessBoard, myPosition: Position) returns (moves: seq<Move>)
    requires board.Valid() && IsOnBoard(myPosition)
    ensures moves == PieceMoves(piece.pieceType, board.Squares, myPosition)
  {
    match piece.pieceType
    case Bishop => moves := BishopPossibleMoves(board, myPosition);
    case King => moves := KingPossibleMoves(board, myPosition);
    case Queen => moves := QueenPossibleMoves(board, myPosition);
    case Knight => moves := KnightPossibleMoves(board, myPosition);
    case Pawn => moves := PawnPossibleMoves(board, myPosition);
    case Rook => moves := RookPossibleMoves(board, myPosition);
  }
}
