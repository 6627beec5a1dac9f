/** The knight and king generators: fixed offset tables, no blocking. */
module JumpFacts {
  import opened Outcomes
  import opened ChessValues
  import opened Boards
  import opened MoveRules


  /** `e` is `s` shifted by one of the entries of `offsets`. */
  ghost predicate InTable(s: Position, offsets: seq<Direction>, e: Position)
  {
    exists i :: 0 <= i < |offsets| && e == Position(s.row + offsets[i].0, s.column + offsets[i].1)
  }

  /** One jump: the square at `offset`, if on the board and landable. */
  lemma JumpMembers(g: Grid, s: Position, offset: Direction, m: Move)
    requires IsOnBoard(s)
    ensures m in Jump(g, s, offset) <==>
            m.startPosition == s && m.promotionPiece == None && IsOnBoard(m.endPosition) &&
            Landable(g, s, m.endPosition) && m.endPosition == Position(s.row + offset.0, s.column + offset.1)
  {
  }

  /** The jumps of a table are exactly the on-board, empty-or-capturable
      squares at one of its offsets, as moves from `s` without promotion. */
  lemma {:induction false} JumpMovesMembers(g: Grid, s: Position, offsets: seq<Direction>, m: Move)
    requires IsOnBoard(s)
    ensures m in JumpMoves(g, s, offsets) <==>
            m.startPosition == s && m.promotionPiece == None && IsOnBoard(m.endPosition) &&
            Landable(g, s, m.endPosition) && InTable(s, offsets, m.endPosition)
    decreases |offsets|
  {
    if |offsets| > 0 {
      var n := |offsets| - 1;
      var init := offsets[..n];
      var last := offsets[n];
      assert JumpMoves(g, s, offsets) == JumpMoves(g, s, init) + Jump(g, s, last);
      JumpMovesMembers(g, s, init, m);
      JumpMembers(g, s, last, m);
      InTableExtend(s, offsets, m.endPosition);
    }
  }

  /** A table's squares are those of all but its last entry, and the last's. */
  lemma InTableExtend(s: Position, offsets: seq<Direction>, e: Position)
    requires |offsets| > 0
    ensures InTable(s, offsets, e) <==>
            InTable(s, offsets[..|offsets| - 1], e) ||
            e == Position(s.row + offsets[|offsets| - 1].0, s.column + offsets[|offsets| - 1].1)
  {
    var n := |offsets| - 1;
    var init := offsets[..n];
    if InTable(s, init, e) {
      var i :| 0 <= i < |init| && e == Position(s.row + init[i].0, s.column + init[i].1);
      assert init[i] == offsets[i];
    }
    if InTable(s, offsets, e) {
      var i :| 0 <= i < |offsets| && e == Position(s.row + offsets[i].0, s.column + offsets[i].1);
      if i < n {
        assert init[i] == offsets[i];
      }
    }
  }

  /** A table of n offsets yields at most n moves. */
  lemma {:induction false} JumpMovesCount(g: Grid, s: Position, offsets: seq<Direction>)
    requires IsOnBoard(s)
    ensures |JumpMoves(g, s, offsets)| <= |offsets|
    decreases |offsets|
  {
    if |offsets| > 0 {
      JumpMovesCount(g, s, offsets[..|offsets| - 1]);
    }
  }

  /** (±2,±1) or (±1,±2). */
  predicate KnightOffset(dRow: int, dCol: int)
  {
    (Abs(dRow) == 2 && Abs(dCol) == 1) || (Abs(dRow) == 1 && Abs(dCol) == 2)
  }

  /** At most one square in each coordinate, and not zero in both. */
  predicate KingOffset(dRow: int, dCol: int)
  {
    Abs(dRow) <= 1 && Abs(dCol) <= 1 && (dRow != 0 || dCol != 0)
  }

  lemma KnightTable(s: Position, e: Position)
    ensures InTable(s, KnightJumps, e) <==> KnightOffset(e.row - s.row, e.column - s.column)
  {
    var dr, dc := e.row - s.row, e.column - s.column;
    if KnightOffset(dr, dc) {
      var i := if dr == 2 && dc == 1 then 0 else if dr == 2 then 1
               else if dr == -2 && dc == 1 then 2 else if dr == -2 then 3
               else if dr == 1 && dc == 2 then 4 else if dr == 1 then 5
               else if dc == 2 then 6 else 7;
      assert e == Position(s.row + KnightJumps[i].0, s.column + KnightJumps[i].1);
    }
  }

  lemma KingTable(s: Position, e: Position)
    ensures InTable(s, KingSteps, e) <==> KingOffset(e.row - s.row, e.column - s.column)
  {
    var dr, dc := e.row - s.row, e.column - s.column;
    if KingOffset(dr, dc) {
      var i := if dr == 1 && dc == 0 then 0 else if dr == -1 && dc == 0 then 1
               else if dr == 0 && dc == 1 then 2 else if dr == 0 then 3
               else if dr == 1 && dc == 1 then 4 else if dr == 1 then 5
               else if dc == 1 then 6 else 7;
      assert e == Position(s.row + KingSteps[i].0, s.column + KingSteps[i].1);
    }
  }

  /** Knight moves: nothing without a piece on `s`; otherwise exactly the
      on-board (±2,±1)/(±1,±2) squares that are empty or hold an enemy. */
  lemma KnightMovesMembers(g: Grid, s: Position, m: Move)
    requires IsOnBoard(s)
    ensures m in KnightMoves(g, s) <==>
            At(g, s).Some? && m.startPosition == s && m.promotionPiece == None &&
            IsOnBoard(m.endPosition) && Landable(g, s, m.endPosition) &&
            KnightOffset(m.endPosition.row - s.row, m.endPosition.column - s.column)
  {
    JumpMovesMembers(g, s, KnightJumps, m);
    KnightTable(s, m.endPosition);
  }

  /** King moves: nothing without a piece on `s`; otherwise exactly the
      on-board neighbouring squares that are empty or hold an enemy. */
  lemma KingMovesMembers(g: Grid, s: Position, m: Move)
    requires IsOnBoard(s)
    ensures m in KingMoves(g, s) <==>
            At(g, s).Some? && m.startPosition == s && m.promotionPiece == None &&
            IsOnBoard(m.endPosition) && Landable(g, s, m.endPosition) &&
            KingOffset(m.endPosition.row - s.row, m.endPosition.column - s.column)
  {
    JumpMovesMembers(g, s, KingSteps, m);
    KingTable(s, m.endPosition);
  }

  lemma KnightMovesAtMostEight(g: Grid, s: Position)
    requires IsOnBoard(s)
    ensures |KnightMoves(g, s)| <= 8
    ensures At(g, s).None? ==> KnightMoves(g, s) == []
  {
    JumpMovesCount(g, s, KnightJumps);
  }

  lemma KingMovesAtMostEight(g: Grid, s: Position)
    requires IsOnBoard(s)
    ensures |KingMoves(g, s)| <= 8
    ensures At(g, s).None? ==> KingMoves(g, s) == []
  {
    JumpMovesCount(g, s, KingSteps);
  }
}
