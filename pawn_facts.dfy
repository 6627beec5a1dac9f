/** The two pawn generators: which squares a pawn moves to, and how far-rank
    moves expand into promotions. */
module PawnFacts {
  import opened Outcomes
  import opened ChessValues
  import opened Boards
  import opened MoveRules

  /** One square straight ahead, on the board and empty. */
  ghost predicate ForwardOne(g: Grid, s: Position, isWhite: bool, e: Position)
  {
    e == Position(s.row + PawnStep(isWhite), s.column) && IsOnBoard(e) && !Occupied(g, e)
  }

  /** Two squares straight ahead from the start row, both squares empty. */
  ghost predicate ForwardTwo(g: Grid, s: Position, isWhite: bool, e: Position)
  {
    OnStartRow(s.row, isWhite) &&
    ForwardOne(g, s, isWhite, Position(s.row + PawnStep(isWhite), s.column)) &&
    e == Position(s.row + 2 * PawnStep(isWhite), s.column) && IsOnBoard(e) && !Occupied(g, e)
  }

  /** One square diagonally ahead, holding an enemy piece. */
  ghost predicate DiagonalCapture(g: Grid, s: Position, isWhite: bool, e: Position)
    requires IsOnBoard(s)
  {
    e.row == s.row + PawnStep(isWhite) && Abs(e.column - s.column) == 1 &&
    IsOnBoard(e) && CanCapture(At(g, s), At(g, e))
  }

  /** The promotion a move may carry: one of queen, bishop, knight or rook
      on the far rank of a promoting generator, none otherwise. */
  predicate PromotionFits(m: Move, isWhite: bool, promote: bool)
  {
    if promote && IsPromotionRank(m.endPosition.row, isWhite)
    then m.promotionPiece in {Some(Queen), Some(Bishop), Some(Knight), Some(Rook)}
    else m.promotionPiece == None
  }

  /** The moves a pawn of the given colour on `s` has. */
  ghost predicate PawnTarget(g: Grid, s: Position, isWhite: bool, promote: bool, m: Move)
    requires IsOnBoard(s)
  {
    m.startPosition == s &&
    (((ForwardOne(g, s, isWhite, m.endPosition) || DiagonalCapture(g, s, isWhite, m.endPosition))
      && PromotionFits(m, isWhite, promote)) ||
     (ForwardTwo(g, s, isWhite, m.endPosition) && m.promotionPiece == None))
  }

  lemma LandingMembers(s: Position, to: Position, isWhite: bool, promote: bool, m: Move)
    ensures m in PawnLanding(s, to, isWhite, promote) <==>
            m.startPosition == s && m.endPosition == to && PromotionFits(m, isWhite, promote)
  {
    if promote && IsPromotionRank(to.row, isWhite) && m.startPosition == s && m.endPosition == to
       && PromotionFits(m, isWhite, promote)
    {
      assert m == Move(s, to, m.promotionPiece);
    }
  }

  /** The straight-ahead moves. */
  lemma AdvanceMembers(g: Grid, s: Position, isWhite: bool, promote: bool, m: Move)
    requires IsOnBoard(s)
    ensures m in PawnAdvance(g, s, isWhite, promote) <==>
            m.startPosition == s &&
            ((ForwardOne(g, s, isWhite, m.endPosition) && PromotionFits(m, isWhite, promote)) ||
             (ForwardTwo(g, s, isWhite, m.endPosition) && m.promotionPiece == None))
  {
    var step := PawnStep(isWhite);
    var one := Position(s.row + step, s.column);
    LandingMembers(s, one, isWhite, promote, m);
    if OnStartRow(s.row, isWhite) {
      assert !IsPromotionRank(s.row + 2 * step, isWhite);
    }
  }

  /** The diagonal captures, left then right. */
  lemma CaptureMembers(g: Grid, s: Position, isWhite: bool, promote: bool, m: Move)
    requires IsOnBoard(s)
    ensures m in PawnCaptures(g, s, isWhite, promote, DiagonalOffsets(PawnStep(isWhite))) <==>
            m.startPosition == s && DiagonalCapture(g, s, isWhite, m.endPosition) && PromotionFits(m, isWhite, promote)
  {
    var step := PawnStep(isWhite);
    TwoDiagonals(g, s, isWhite, promote, step);
    LandingMembers(s, Position(s.row + step, s.column - 1), isWhite, promote, m);
    LandingMembers(s, Position(s.row + step, s.column + 1), isWhite, promote, m);
  }

  /** A pawn's moves, for both generators: nothing without a piece on `s`;
      otherwise the empty square ahead, the two-square advance from the start
      row through an empty square onto an empty one, and the diagonal
      captures of enemy pieces; with promotion, far-rank moves carry exactly
      a queen, bishop, knight or rook and no plain move to the far rank
      exists; without it, no move carries a promotion. */
  lemma PawnMembers(g: Grid, s: Position, promote: bool, m: Move)
    requires IsOnBoard(s)
    ensures m in PawnMovesWith(g, s, promote) <==>
            At(g, s).Some? && PawnTarget(g, s, At(g, s).value.teamColor == White, promote, m)
  {
    if At(g, s).Some? {
      var isWhite := At(g, s).value.teamColor == White;
      AdvanceMembers(g, s, isWhite, promote, m);
      CaptureMembers(g, s, isWhite, promote, m);
    }
  }

  /** A pawn move starts on `s` and lands on another on-board square that
      is empty or holds an enemy piece. */
  lemma PawnMoveShape(g: Grid, s: Position, promote: bool, m: Move)
    requires IsOnBoard(s) && m in PawnMovesWith(g, s, promote)
    ensures m.startPosition == s && IsOnBoard(m.endPosition) && m.endPosition != s
    ensures Landable(g, s, m.endPosition)
  {
    PawnMembers(g, s, promote, m);
  }

  /** Every pawn destination is one or two rows ahead, in the pawn's
      direction of travel. */
  lemma PawnRows(g: Grid, s: Position, promote: bool, m: Move)
    requires IsOnBoard(s) && m in PawnMovesWith(g, s, promote)
    ensures At(g, s).Some?
    ensures var step := PawnStep(At(g, s).value.teamColor == White);
            m.endPosition.row == s.row + step || m.endPosition.row == s.row + 2 * step
  {
    PawnMembers(g, s, promote, m);
  }

  /** On the far rank the promoting pawn offers each of the four promotions
      and never a plain move. */
  lemma FarRankPromotions(g: Grid, s: Position, e: Position, k: Option<PieceType>)
    requires IsOnBoard(s) && At(g, s).Some?
    requires IsPromotionRank(e.row, At(g, s).value.teamColor == White)
    ensures Move(s, e, k) in PawnMoves(g, s) <==>
            k in {Some(Queen), Some(Bishop), Some(Knight), Some(Rook)} &&
            (ForwardOne(g, s, At(g, s).value.teamColor == White, e) ||
             DiagonalCapture(g, s, At(g, s).value.teamColor == White, e))
  {
    var isWhite := At(g, s).value.teamColor == White;
    PawnMembers(g, s, true, Move(s, e, k));
  }

  /** The variant without promotion never sets a promotion piece. */
  lemma PlainPawnNeverPromotes(g: Grid, s: Position, m: Move)
    requires IsOnBoard(s) && m in PlainPawnMoves(g, s)
    ensures m.promotionPiece == None
  {
    PawnMembers(g, s, false, m);
  }

  /** Off the far rank both generators offer the same moves. */
  lemma PawnVariantsAgreeOffFarRank(g: Grid, s: Position, m: Move)
    requires IsOnBoard(s) && At(g, s).Some?
    requires !IsPromotionRank(m.endPosition.row, At(g, s).value.teamColor == White)
    ensures m in PawnMoves(g, s) <==> m in PlainPawnMoves(g, s)
  {
    PawnMembers(g, s, true, m);
    PawnMembers(g, s, false, m);
  }

  /** No move occurs twice. */
  predicate Distinct(r: seq<Move>)
  {
    forall i, j :: 0 <= i < j < |r| ==> r[i] != r[j]
  }

  lemma DistinctAppend(a: seq<Move>, b: seq<Move>)
    requires Distinct(a) && Distinct(b)
    requires forall m :: m in a ==> m !in b
    ensures Distinct(a + b)
  {
    forall i, j | 0 <= i < j < |a + b|
      ensures (a + b)[i] != (a + b)[j]
    {
      if i < |a| && j >= |a| {
        assert (a + b)[i] in a && (a + b)[j] in b;
      }
    }
  }

  lemma LandingDistinct(s: Position, to: Position, isWhite: bool, promote: bool)
    ensures Distinct(PawnLanding(s, to, isWhite, promote))
  {
  }

  lemma AdvanceDistinct(g: Grid, s: Position, isWhite: bool, promote: bool)
    requires IsOnBoard(s)
    ensures Distinct(PawnAdvance(g, s, isWhite, promote))
  {
    var step := PawnStep(isWhite);
    var one := Position(s.row + step, s.column);
    if OnBoard(one.row, one.column) && !Occupied(g, one) {
      var two := Position(s.row + 2 * step, s.column);
      var twos := if OnStartRow(s.row, isWhite) && OnBoard(two.row, two.column) && !Occupied(g, two)
                  then [Move(s, two, None)] else [];
      var landing := PawnLanding(s, one, isWhite, promote);
      assert PawnAdvance(g, s, isWhite, promote) == landing + twos;
      forall m | m in landing
        ensures m !in twos
      {
        LandingMembers(s, one, isWhite, promote, m);
      }
      LandingDistinct(s, one, isWhite, promote);
      DistinctAppend(landing, twos);
    }
  }

  /** The diagonal table has two entries: left capture, then right. */
  lemma TwoDiagonals(g: Grid, s: Position, isWhite: bool, promote: bool, step: int)
    requires IsOnBoard(s)
    ensures PawnCaptures(g, s, isWhite, promote, DiagonalOffsets(step)) ==
            PawnCapture(g, s, isWhite, promote, (step, -1)) + PawnCapture(g, s, isWhite, promote, (step, 1))
  {
    var offsets := DiagonalOffsets(step);
    assert offsets[..1][..0] == [] && offsets[..1][0] == (step, -1) && offsets[1] == (step, 1);
    assert PawnCaptures(g, s, isWhite, promote, offsets[..1]) == PawnCapture(g, s, isWhite, promote, (step, -1));
  }

  /** A capture at `offset` lands on the square at that offset. */
  lemma CaptureLandsAt(g: Grid, s: Position, isWhite: bool, promote: bool, offset: Direction, m: Move)
    requires IsOnBoard(s) && m in PawnCapture(g, s, isWhite, promote, offset)
    ensures m.endPosition == Position(s.row + offset.0, s.column + offset.1)
  {
    LandingMembers(s, Position(s.row + offset.0, s.column + offset.1), isWhite, promote, m);
  }

  lemma CapturesDistinct(g: Grid, s: Position, isWhite: bool, promote: bool)
    requires IsOnBoard(s)
    ensures Distinct(PawnCaptures(g, s, isWhite, promote, DiagonalOffsets(PawnStep(isWhite))))
  {
    var step := PawnStep(isWhite);
    TwoDiagonals(g, s, isWhite, promote, step);
    var capL := PawnCapture(g, s, isWhite, promote, (step, -1));
    var capR := PawnCapture(g, s, isWhite, promote, (step, 1));
    forall m | m in capL
      ensures m !in capR
    {
      CaptureLandsAt(g, s, isWhite, promote, (step, -1), m);
      if m in capR {
        CaptureLandsAt(g, s, isWhite, promote, (step, 1), m);
      }
    }
    LandingDistinct(s, Position(s.row + step, s.column - 1), isWhite, promote);
    LandingDistinct(s, Position(s.row + step, s.column + 1), isWhite, promote);
    DistinctAppend(capL, capR);
  }

  /** A pawn generator never lists a move twice, so each far-rank square a
      promoting pawn reaches appears as exactly four moves. */
  lemma PawnMovesDistinct(g: Grid, s: Position, promote: bool)
    requires IsOnBoard(s)
    ensures Distinct(PawnMovesWith(g, s, promote))
  {
    if At(g, s).Some? {
      var isWhite := At(g, s).value.teamColor == White;
      var adv := PawnAdvance(g, s, isWhite, promote);
      var caps := PawnCaptures(g, s, isWhite, promote, DiagonalOffsets(PawnStep(isWhite)));
      AdvanceDistinct(g, s, isWhite, promote);
      CapturesDistinct(g, s, isWhite, promote);
      forall m | m in adv
        ensures m !in caps
      {
        AdvanceMembers(g, s, isWhite, promote, m);
        CaptureMembers(g, s, isWhite, promote, m);
      }
      DistinctAppend(adv, caps);
    }
  }
}
