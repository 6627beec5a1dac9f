/** Pseudo-legal move generation as functions of the board's contents: the
    shared helpers of moveCalculator, the sliding ray, and one generator per
    piece kind. The imperative generators in MoveCalculators are proved equal
    to these. */
module MoveRules {
  import opened Outcomes
  import opened ChessValues
  import opened Boards

  /** moveCalculator.occupied: a piece stands on `p`. */
  predicate Occupied(g: Grid, p: Position)
    requires IsOnBoard(p)
  {
    At(g, p).Some?
  }

  /** moveCalculator.canCapture, applied to the pieces on the two squares:
      both present and of different colours. */
  predicate CanCapture(fromPiece: Option<Piece>, toPiece: Option<Piece>)
  {
    fromPiece.Some? && toPiece.Some? && fromPiece.value.teamColor != toPiece.value.teamColor
  }

  /** A square a piece on `from` may land on without blocking considered:
      empty, or holding a capturable piece. */
  predicate Landable(g: Grid, from: Position, to: Position)
    requires IsOnBoard(from) && IsOnBoard(to)
  {
    !Occupied(g, to) || CanCapture(At(g, from), At(g, to))
  }

  function Abs(x: int): nat
  {
    if x < 0 then -x else x
  }

  /** A direction of travel (row step, column step). */
  type Direction = (int, int)

  predicate NonZero(d: Direction)
  {
    d.0 != 0 || d.1 != 0
  }

  /** How many more steps of size `d` coordinate `x` can take before leaving
      1..8; the termination measure of a ray. */
  function Room(x: int, d: int): nat
  {
    if d > 0 && x <= 8 then 9 - x
    else if d < 0 && x >= 1 then x
    else 0
  }

  /** The square `k` steps of `d` away from `o`. */
  function Along(o: Position, d: Direction, k: int): Position
  {
    Position(o.row + k * d.0, o.column + k * d.1)
  }

  /** One pass of gatherMovesInDirection's loop, looking at (row, col): the
      move it adds, if any, and whether the walk goes on past this square. */
  function RayStep(g: Grid, origin: Position, row: int, col: int, keepGoing: bool): (r: (seq<Move>, bool))
    requires IsOnBoard(origin)
    ensures r.1 ==> OnBoard(row, col)
  {
    if !OnBoard(row, col) then ([], false)
    else
      var nextPos := Position(row, col);
      var nextMove := Move(origin, nextPos, None);
      if Occupied(g, nextPos) then
        (if CanCapture(At(g, origin), At(g, nextPos)) then [nextMove] else [], false)
      else
        ([nextMove], keepGoing)
  }

  /** The rest of a ray from `origin` whose next square to look at is
      (row, col): the loop of gatherMovesInDirection from that point on. */
  function RayFrom(g: Grid, origin: Position, row: int, col: int, d: Direction, keepGoing: bool): seq<Move>
    requires IsOnBoard(origin) && NonZero(d)
    decreases Room(row, d.0) + Room(col, d.1)
  {
    var step := RayStep(g, origin, row, col, keepGoing);
    if step.1 then
      RoomShrinks(row, col, d);
      step.0 + RayFrom(g, origin, row + d.0, col + d.1, d, keepGoing)
    else step.0
  }

  /** A step from an on-board square leaves less room to the edge. */
  lemma RoomShrinks(row: int, col: int, d: Direction)
    requires OnBoard(row, col) && NonZero(d)
    ensures Room(row + d.0, d.0) + Room(col + d.1, d.1) < Room(row, d.0) + Room(col, d.1)
  {
  }

  /** moveCalculator.gatherMovesInDirection: walk from `origin` in direction `d`. */
  function Ray(g: Grid, origin: Position, d: Direction, keepGoing: bool): seq<Move>
    requires IsOnBoard(origin) && NonZero(d)
  {
    RayFrom(g, origin, origin.row + d.0, origin.column + d.1, d, keepGoing)
  }

  predicate AllNonZero(dirs: seq<Direction>)
  {
    forall i :: 0 <= i < |dirs| ==> NonZero(dirs[i])
  }

  /** The rays along `dirs`, concatenated in table order (the loop shared by
      the rook, bishop and queen generators). */
  function RaysAlong(g: Grid, s: Position, dirs: seq<Direction>): seq<Move>
    requires IsOnBoard(s) && AllNonZero(dirs)
  {
    if |dirs| == 0 then []
    else RaysAlong(g, s, dirs[..|dirs| - 1]) + Ray(g, s, dirs[|dirs| - 1], true)
  }

  const RookLines: seq<Direction> := [(1, 0), (-1, 0), (0, 1), (0, -1)]
  const BishopDiagonals: seq<Direction> := [(1, 1), (1, -1), (-1, 1), (-1, -1)]
  const QueenDirections: seq<Direction> := [(1, 0), (-1, 0), (0, 1), (0, -1), (1, 1), (1, -1), (-1, 1), (-1, -1)]

  function RookMoves(g: Grid, s: Position): seq<Move>
    requires IsOnBoard(s)
  {
    RaysAlong(g, s, RookLines)
  }

  function BishopMoves(g: Grid, s: Position): seq<Move>
    requires IsOnBoard(s)
  {
    RaysAlong(g, s, BishopDiagonals)
  }

  function QueenMoves(g: Grid, s: Position): seq<Move>
    requires IsOnBoard(s)
  {
    RaysAlong(g, s, QueenDirections)
  }

  /** One entry of a knight's or king's offset table: the target square, if it
      is on the board and empty or capturable. */
  function Jump(g: Grid, s: Position, offset: Direction): seq<Move>
    requires IsOnBoard(s)
  {
    var row := s.row + offset.0;
    var col := s.column + offset.1;
    if OnBoard(row, col) && Landable(g, s, Position(row, col)) then [Move(s, Position(row, col), None)]
    else []
  }

  /** The jumps of a whole offset table, in table order. */
  function JumpMoves(g: Grid, s: Position, offsets: seq<Direction>): seq<Move>
    requires IsOnBoard(s)
  {
    if |offsets| == 0 then []
    else JumpMoves(g, s, offsets[..|offsets| - 1]) + Jump(g, s, offsets[|offsets| - 1])
  }

  const KnightJumps: seq<Direction> := [(2, 1), (2, -1), (-2, 1), (-2, -1), (1, 2), (1, -2), (-1, 2), (-1, -2)]
  const KingSteps: seq<Direction> := [(1, 0), (-1, 0), (0, 1), (0, -1), (1, 1), (1, -1), (-1, 1), (-1, -1)]

  function KnightMoves(g: Grid, s: Position): seq<Move>
    requires IsOnBoard(s)
  {
    if At(g, s).None? then [] else JumpMoves(g, s, KnightJumps)
  }

  function KingMoves(g: Grid, s: Position): seq<Move>
    requires IsOnBoard(s)
  {
    if At(g, s).None? then [] else JumpMoves(g, s, KingSteps)
  }

  /** pawnMoves.isPromotionRank: row 8 for white, row 1 for black. */
  predicate IsPromotionRank(row: int, isWhitePawn: bool)
  {
    (isWhitePawn && row == 8) || (!isWhitePawn && row == 1)
  }

  /** pawnMoves.createPromotions: queen, bishop, knight, rook, in that order. */
  function Promotions(fromPos: Position, toPos: Position): seq<Move>
  {
    [Move(fromPos, toPos, Some(Queen)), Move(fromPos, toPos, Some(Bishop)),
     Move(fromPos, toPos, Some(Knight)), Move(fromPos, toPos, Some(Rook))]
  }

  /** The moves of a pawn landing on `to`: four promotions on the far rank
      when the generator promotes, otherwise one plain move. */
  function PawnLanding(s: Position, to: Position, isWhite: bool, promote: bool): seq<Move>
  {
    if promote && IsPromotionRank(to.row, isWhite) then Promotions(s, to) else [Move(s, to, None)]
  }

  function PawnStep(isWhite: bool): int
  {
    if isWhite then 1 else -1
  }

  /** Row 2 for white, row 7 for black. */
  predicate OnStartRow(row: int, isWhite: bool)
  {
    (isWhite && row == 2) || (!isWhite && row == 7)
  }

  /** The straight-ahead moves of a pawn (one square, then two from the start
      row), with far-rank promotion when `promote` holds. */
  function PawnAdvance(g: Grid, s: Position, isWhite: bool, promote: bool): seq<Move>
    requires IsOnBoard(s)
  {
    var step := PawnStep(isWhite);
    var oneRow := s.row + step;
    if OnBoard(oneRow, s.column) && !Occupied(g, Position(oneRow, s.column)) then
      var oneForward := Position(oneRow, s.column);
      PawnLanding(s, oneForward, isWhite, promote) +
      (if OnStartRow(s.row, isWhite) then
         var twoRow := s.row + 2 * step;
         if OnBoard(twoRow, s.column) && !Occupied(g, Position(twoRow, s.column))
         then [Move(s, Position(twoRow, s.column), None)] else []
       else [])
    else []
  }

  /** One diagonal of a pawn: a capture if canCapture holds there. */
  function PawnCapture(g: Grid, s: Position, isWhite: bool, promote: bool, offset: Direction): seq<Move>
    requires IsOnBoard(s)
  {
    var row := s.row + offset.0;
    var col := s.column + offset.1;
    if OnBoard(row, col) && CanCapture(At(g, s), At(g, Position(row, col))) then
      PawnLanding(s, Position(row, col), isWhite, promote)
    else []
  }

  /** The captures along a table of diagonal offsets, in table order. */
  function PawnCaptures(g: Grid, s: Position, isWhite: bool, promote: bool, offsets: seq<Direction>): seq<Move>
    requires IsOnBoard(s)
  {
    if |offsets| == 0 then []
    else PawnCaptures(g, s, isWhite, promote, offsets[..|offsets| - 1]) + PawnCapture(g, s, isWhite, promote, offsets[|offsets| - 1])
  }

  /** Left diagonal first, then right. */
  function DiagonalOffsets(step: int): seq<Direction>
  {
    [(step, -1), (step, 1)]
  }

  /** Both pawn generators; `promote` selects pawnMoves.java (true) or the
      PieceMovesCalculator/PawnMoves.java variant without promotion (false). */
  function PawnMovesWith(g: Grid, s: Position, promote: bool): seq<Move>
    requires IsOnBoard(s)
  {
    match At(g, s)
    case None => []
    case Some(pawn) =>
      var isWhite := pawn.teamColor == White;
      PawnAdvance(g, s, isWhite, promote) + PawnCaptures(g, s, isWhite, promote, DiagonalOffsets(PawnStep(isWhite)))
  }

  /** pawnMoves.allPossibleMoves: far-rank moves expand into four promotions. */
  function PawnMoves(g: Grid, s: Position): seq<Move>
    requires IsOnBoard(s)
  {
    PawnMovesWith(g, s, true)
  }

  /** PieceMovesCalculator/PawnMoves.allPossibleMoves: never promotes. */
  function PlainPawnMoves(g: Grid, s: Position): seq<Move>
    requires IsOnBoard(s)
  {
    PawnMovesWith(g, s, false)
  }

  /** ChessPiece.pieceMoves: dispatch on the piece kind alone. */
  function PieceMoves(kind: PieceType, g: Grid, p: Position): seq<Move>
    requires IsOnBoard(p)
  {
    match kind
    case Bishop => BishopMoves(g, p)
    case King => KingMoves(g, p)
    case Queen => QueenMoves(g, p)
    case Knight => KnightMoves(g, p)
    case Pawn => PawnMoves(g, p)
    case Rook => RookMoves(g, p)
  }
}
