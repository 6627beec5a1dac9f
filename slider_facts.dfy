/** The rook, bishop and queen generators: their ray order, which squares
    they reach, the geometry of their moves and their counts on an otherwise
    empty board. */
module SliderFacts {
  import opened Outcomes
  import opened ChessValues
  import opened Boards
  import opened MoveRules
  import opened RayFacts

  /** `m` is on the ray of one of the directions in `dirs`. */
  ghost predicate OnSomeRay(g: Grid, s: Position, dirs: seq<Direction>, m: Move)
    requires IsOnBoard(s) && AllNonZero(dirs)
  {
    exists i :: 0 <= i < |dirs| && m in Ray(g, s, dirs[i], true)
  }

  /** The rays along `dirs` hold exactly the moves of each ray. */
  lemma {:induction false} RaysAlongMembers(g: Grid, s: Position, dirs: seq<Direction>, m: Move)
    requires IsOnBoard(s) && AllNonZero(dirs)
    ensures m in RaysAlong(g, s, dirs) <==> OnSomeRay(g, s, dirs, m)
    decreases |dirs|
  {
    if |dirs| > 0 {
      var init := dirs[..|dirs| - 1];
      RaysAlongMembers(g, s, init, m);
      if m in RaysAlong(g, s, init) {
        var i :| 0 <= i < |init| && m in Ray(g, s, init[i], true);
        assert init[i] == dirs[i];
      }
      if OnSomeRay(g, s, dirs, m) {
        var i :| 0 <= i < |dirs| && m in Ray(g, s, dirs[i], true);
        if i < |dirs| - 1 {
          assert init[i] == dirs[i];
        }
      }
    }
  }

  /** Rays along a concatenated table are the concatenated rays. */
  lemma {:induction false} RaysAlongAppend(g: Grid, s: Position, a: seq<Direction>, b: seq<Direction>)
    requires IsOnBoard(s) && AllNonZero(a) && AllNonZero(b)
    ensures AllNonZero(a + b)
    ensures RaysAlong(g, s, a + b) == RaysAlong(g, s, a) + RaysAlong(g, s, b)
    decreases |b|
  {
    AllNonZeroAppend(a, b);
    if |b| == 0 {
      assert a + b == a;
    } else {
      var ab := a + b;
      var init := b[..|b| - 1];
      var last := b[|b| - 1];
      assert ab[..|ab| - 1] == a + init;
      assert ab[|ab| - 1] == last;
      AllNonZeroPrefix(b, |b| - 1);
      RaysAlongAppend(g, s, a, init);
      calc {
        RaysAlong(g, s, ab);
        RaysAlong(g, s, a + init) + Ray(g, s, last, true);
        (RaysAlong(g, s, a) + RaysAlong(g, s, init)) + Ray(g, s, last, true);
        RaysAlong(g, s, a) + (RaysAlong(g, s, init) + Ray(g, s, last, true));
      }
    }
  }

  lemma AllNonZeroAppend(a: seq<Direction>, b: seq<Direction>)
    requires AllNonZero(a) && AllNonZero(b)
    ensures AllNonZero(a + b)
  {
    forall i | 0 <= i < |a + b|
      ensures NonZero((a + b)[i])
    {
      if i >= |a| {
        assert (a + b)[i] == b[i - |a|];
      }
    }
  }

  lemma AllNonZeroPrefix(a: seq<Direction>, n: nat)
    requires AllNonZero(a) && n <= |a|
    ensures AllNonZero(a[..n])
  {
  }

  /** Every move of the rays along `dirs` starts at `s`, has no promotion,
      and lands on the board on an empty square or one holding an enemy of
      the piece on `s`, never beyond the first occupied square of its ray. */
  lemma SliderMoveShape(g: Grid, s: Position, dirs: seq<Direction>, m: Move)
    requires IsOnBoard(s) && AllNonZero(dirs) && m in RaysAlong(g, s, dirs)
    ensures m.startPosition == s && m.promotionPiece == None
    ensures IsOnBoard(m.endPosition) && Landable(g, s, m.endPosition)
    ensures exists i :: 0 <= i < |dirs| && Reaches(g, s, dirs[i], m.endPosition)
  {
    RaysAlongMembers(g, s, dirs, m);
    var i :| 0 <= i < |dirs| && m in Ray(g, s, dirs[i], true);
    RayMembers(g, s, dirs[i], m);
    var k :| k >= 1 && m.endPosition == Along(s, dirs[i], k) && IsOnBoard(m.endPosition)
             && Landable(g, s, m.endPosition) && ClearUpTo(g, s, dirs[i], k);
  }

  /** The moves of the rays along `dirs` are exactly the squares `s` reaches
      along one of them. */
  lemma SliderMembers(g: Grid, s: Position, dirs: seq<Direction>, m: Move)
    requires IsOnBoard(s) && AllNonZero(dirs)
    ensures m in RaysAlong(g, s, dirs) <==>
            m.startPosition == s && m.promotionPiece == None &&
            exists i :: 0 <= i < |dirs| && Reaches(g, s, dirs[i], m.endPosition)
  {
    RaysAlongMembers(g, s, dirs, m);
    if m.startPosition == s && m.promotionPiece == None &&
       exists i :: 0 <= i < |dirs| && Reaches(g, s, dirs[i], m.endPosition)
    {
      var i :| 0 <= i < |dirs| && Reaches(g, s, dirs[i], m.endPosition);
      RayMembers(g, s, dirs[i], m);
    }
    if m in RaysAlong(g, s, dirs) {
      SliderMoveShape(g, s, dirs, m);
    }
  }

  /** RookMoves is the (1,0), (-1,0), (0,1), (0,-1) rays, in that order. */
  lemma RookRayOrder(g: Grid, s: Position)
    requires IsOnBoard(s)
    ensures RookMoves(g, s) ==
            Ray(g, s, (1, 0), true) + Ray(g, s, (-1, 0), true) + Ray(g, s, (0, 1), true) + Ray(g, s, (0, -1), true)
  {
    ThreeRays(g, s, RookLines);
  }

  /** BishopMoves is the (1,1), (1,-1), (-1,1), (-1,-1) rays, in that order. */
  lemma BishopRayOrder(g: Grid, s: Position)
    requires IsOnBoard(s)
    ensures BishopMoves(g, s) ==
            Ray(g, s, (1, 1), true) + Ray(g, s, (1, -1), true) + Ray(g, s, (-1, 1), true) + Ray(g, s, (-1, -1), true)
  {
    ThreeRays(g, s, BishopDiagonals);
  }

  /** Unrolls RaysAlong over a four-entry table. */
  lemma ThreeRays(g: Grid, s: Position, dirs: seq<Direction>)
    requires IsOnBoard(s) && AllNonZero(dirs) && |dirs| == 4
    ensures RaysAlong(g, s, dirs) ==
            Ray(g, s, dirs[0], true) + Ray(g, s, dirs[1], true) + Ray(g, s, dirs[2], true) + Ray(g, s, dirs[3], true)
  {
    var d3, d2, d1 := dirs[..3], dirs[..2], dirs[..1];
    assert d3[..2] == d2 && d2[..1] == d1 && d1[..0] == [];
    assert RaysAlong(g, s, d1) == Ray(g, s, dirs[0], true);
    assert RaysAlong(g, s, d2) == RaysAlong(g, s, d1) + Ray(g, s, dirs[1], true);
    assert RaysAlong(g, s, d3) == RaysAlong(g, s, d2) + Ray(g, s, dirs[2], true);
  }

  /** QueenMoves is the four orthogonal rays followed by the four diagonal
      ones: the rook's moves followed by the bishop's. */
  lemma QueenIsRookThenBishop(g: Grid, s: Position)
    requires IsOnBoard(s)
    ensures QueenMoves(g, s) == RookMoves(g, s) + BishopMoves(g, s)
  {
    assert QueenDirections == RookLines + BishopDiagonals;
    RaysAlongAppend(g, s, RookLines, BishopDiagonals);
  }

  /** A rook move shares exactly one of row and column with its start: it
      stays on a line through the start and never lands on the start. */
  lemma RookMoveGeometry(g: Grid, s: Position, m: Move)
    requires IsOnBoard(s) && m in RookMoves(g, s)
    ensures m.startPosition == s && m.promotionPiece == None
    ensures (m.endPosition.row == s.row) != (m.endPosition.column == s.column)
  {
    SliderMoveShape(g, s, RookLines, m);
    var i :| 0 <= i < |RookLines| && Reaches(g, s, RookLines[i], m.endPosition);
    var d := RookLines[i];
    var k :| k >= 1 && m.endPosition == Along(s, d, k) && IsOnBoard(m.endPosition)
             && Landable(g, s, m.endPosition) && ClearUpTo(g, s, d, k);
    assert -1 <= d.0 <= 1 && -1 <= d.1 <= 1 && (d.0 == 0) != (d.1 == 0);
    UnitStep(d.0, k);
    UnitStep(d.1, k);
  }

  /** A bishop move changes row and column by the same non-zero amount. */
  lemma BishopMoveGeometry(g: Grid, s: Position, m: Move)
    requires IsOnBoard(s) && m in BishopMoves(g, s)
    ensures m.startPosition == s && m.promotionPiece == None
    ensures Abs(m.endPosition.row - s.row) == Abs(m.endPosition.column - s.column) > 0
  {
    SliderMoveShape(g, s, BishopDiagonals, m);
    var i :| 0 <= i < |BishopDiagonals| && Reaches(g, s, BishopDiagonals[i], m.endPosition);
    var d := BishopDiagonals[i];
    var k :| k >= 1 && m.endPosition == Along(s, d, k) && IsOnBoard(m.endPosition)
             && Landable(g, s, m.endPosition) && ClearUpTo(g, s, d, k);
    assert (d.0 == 1 || d.0 == -1) && (d.1 == 1 || d.1 == -1);
    UnitStep(d.0, k);
    UnitStep(d.1, k);
  }

  /** k steps of a unit component move k, -k or not at all. */
  lemma UnitStep(x: int, k: int)
    requires -1 <= x <= 1
    ensures k * x == (if x == 0 then 0 else if x == 1 then k else -k)
  {
  }

  /** A queen move is a rook move or a bishop move: on a line or diagonal
      through the start, and not the start. */
  lemma QueenMoveGeometry(g: Grid, s: Position, m: Move)
    requires IsOnBoard(s) && m in QueenMoves(g, s)
    ensures m.startPosition == s && m.promotionPiece == None
    ensures (m.endPosition.row == s.row) != (m.endPosition.column == s.column) ||
            Abs(m.endPosition.row - s.row) == Abs(m.endPosition.column - s.column) > 0
  {
    QueenIsRookThenBishop(g, s);
    if m in RookMoves(g, s) {
      RookMoveGeometry(g, s, m);
    } else {
      BishopMoveGeometry(g, s, m);
    }
  }


  lemma {:induction false} ReachUp(row: int, col: int)
    requires 1 <= row <= 9 && 1 <= col <= 8
    ensures Reach(row, col, (1, 0)) == 9 - row
    decreases 9 - row
  {
    if row <= 8 {
      ReachUp(row + 1, col);
    }
  }

  lemma {:induction false} ReachDown(row: int, col: int)
    requires 0 <= row <= 8 && 1 <= col <= 8
    ensures Reach(row, col, (-1, 0)) == row
    decreases row
  {
    if row >= 1 {
      ReachDown(row - 1, col);
    }
  }

  lemma {:induction false} ReachRight(row: int, col: int)
    requires 1 <= row <= 8 && 1 <= col <= 9
    ensures Reach(row, col, (0, 1)) == 9 - col
    decreases 9 - col
  {
    if col <= 8 {
      ReachRight(row, col + 1);
    }
  }

  lemma {:induction false} ReachLeft(row: int, col: int)
    requires 1 <= row <= 8 && 0 <= col <= 8
    ensures Reach(row, col, (0, -1)) == col
    decreases col
  {
    if col >= 1 {
      ReachLeft(row, col - 1);
    }
  }

  /** A rook alone on the board has 14 moves from any square. */
  lemma RookOnEmptyBoard(g: Grid, s: Position)
    requires IsOnBoard(s) && AloneOnBoard(g, s)
    ensures |RookMoves(g, s)| == 14
  {
    RookRayOrder(g, s);
    LineLength(g, s, (1, 0));
    LineLength(g, s, (-1, 0));
    LineLength(g, s, (0, 1));
    LineLength(g, s, (0, -1));
  }

  /** A rook ray on an otherwise empty board runs to the edge it heads for. */
  lemma LineLength(g: Grid, s: Position, d: Direction)
    requires IsOnBoard(s) && AloneOnBoard(g, s) && d in RookLines
    ensures |Ray(g, s, d, true)| ==
            if d == (1, 0) then 8 - s.row else if d == (-1, 0) then s.row - 1
            else if d == (0, 1) then 8 - s.column else s.column - 1
  {
    RayOnEmptyBoard(g, s, d);
    if d == (1, 0) {
      ReachUp(s.row + 1, s.column);
    } else if d == (-1, 0) {
      ReachDown(s.row - 1, s.column);
    } else if d == (0, 1) {
      ReachRight(s.row, s.column + 1);
    } else {
      ReachLeft(s.row, s.column - 1);
    }
  }

  /** A bishop alone on the board has 13 moves from (4,4). */
  lemma BishopOnEmptyBoard(g: Grid)
    requires AloneOnBoard(g, Position(4, 4))
    ensures |BishopMoves(g, Position(4, 4))| == 13
  {
    var s := Position(4, 4);
    BishopRayOrder(g, s);
    DiagonalFromCentre(g, (1, 1));
    DiagonalFromCentre(g, (1, -1));
    DiagonalFromCentre(g, (-1, 1));
    DiagonalFromCentre(g, (-1, -1));
  }

  /** From (4,4) on an otherwise empty board the up-right diagonal has four
      squares and the other three diagonals three each. */
  lemma DiagonalFromCentre(g: Grid, d: Direction)
    requires AloneOnBoard(g, Position(4, 4)) && d in BishopDiagonals
    ensures |Ray(g, Position(4, 4), d, true)| == if d == (1, 1) then 4 else 3
  {
    RayOnEmptyBoard(g, Position(4, 4), d);
    if d == (1, 1) {
      assert Reach(5, 5, d) == 4;
    } else if d == (1, -1) {
      assert Reach(5, 3, d) == 3;
    } else if d == (-1, 1) {
      assert Reach(3, 5, d) == 3;
    } else {
      assert Reach(3, 3, d) == 3;
    }
  }

  /** A queen alone on the board has 27 moves from (4,4). */
  lemma QueenOnEmptyBoard(g: Grid)
    requires AloneOnBoard(g, Position(4, 4))
    ensures |QueenMoves(g, Position(4, 4))| == 27
  {
    QueenIsRookThenBishop(g, Position(4, 4));
    RookOnEmptyBoard(g, Position(4, 4));
    BishopOnEmptyBoard(g);
  }
}
