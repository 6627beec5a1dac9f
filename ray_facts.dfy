/** What gatherMovesInDirection computes: a ray is the run of squares
    origin + k*d, k = 1, 2, ..., up to the edge or the first occupied square,
    which it includes only when it holds an enemy piece. */
module RayFacts {
  import opened Outcomes
  import opened ChessValues
  import opened Boards
  import opened MoveRules

  /** Every square strictly between the origin and step `k` of the ray is on
      the board and empty. */
  ghost predicate ClearUpTo(g: Grid, o: Position, d: Direction, k: int)
  {
    forall j :: 1 <= j < k ==> IsOnBoard(Along(o, d, j)) && !Occupied(g, Along(o, d, j))
  }

  /** A sliding piece on `o` reaches `e` along `d`: `e` is some step k >= 1
      along the ray, every square before it is empty, and `e` itself is empty
      or holds an enemy piece. */
  ghost predicate Reaches(g: Grid, o: Position, d: Direction, e: Position)
    requires IsOnBoard(o)
  {
    exists k :: k >= 1 && e == Along(o, d, k) && IsOnBoard(e) && Landable(g, o, e) && ClearUpTo(g, o, d, k)
  }

  /** The i-th move of `r` lands on step k + i along `d`. */
  ghost predicate ConsecutiveSteps(r: seq<Move>, o: Position, d: Direction, k: int)
  {
    forall i :: 0 <= i < |r| ==> r[i].endPosition == Along(o, d, k + i)
  }

  /** Every move of `r` lands on the board on an empty or capturable square,
      and every one but the last on an empty square. */
  ghost predicate StopsAtFirstPiece(g: Grid, o: Position, r: seq<Move>)
    requires IsOnBoard(o)
  {
    forall i :: 0 <= i < |r| ==>
      IsOnBoard(r[i].endPosition) && Landable(g, o, r[i].endPosition) &&
      (i < |r| - 1 ==> !Occupied(g, r[i].endPosition))
  }

  /** Step k + 1 of a ray is one step of `d` past step k. */
  lemma AlongNext(o: Position, d: Direction, k: int)
    ensures Along(o, d, k + 1) == Position(Along(o, d, k).row + d.0, Along(o, d, k).column + d.1)
  {
    assert (k + 1) * d.0 == k * d.0 + d.0;
    assert (k + 1) * d.1 == k * d.1 + d.1;
  }

  /** One pass of the walk: the square looked at, then the rest of the ray
      when the walk goes on past it. */
  lemma RayFromUnfold(g: Grid, o: Position, row: int, col: int, d: Direction, keepGoing: bool)
    requires IsOnBoard(o) && NonZero(d)
    ensures RayStep(g, o, row, col, keepGoing).1 ==>
            RayFrom(g, o, row, col, d, keepGoing) ==
            [Move(o, Position(row, col), None)] + RayFrom(g, o, row + d.0, col + d.1, d, keepGoing)
    ensures !RayStep(g, o, row, col, keepGoing).1 ==>
            RayFrom(g, o, row, col, d, keepGoing) == RayStep(g, o, row, col, keepGoing).0
  {
  }

  /** Every move of a ray starts at the origin, carries no promotion and
      lands on the board; a walk that stops after one square adds at most
      one move. */
  lemma {:induction false} RayFromShape(g: Grid, o: Position, row: int, col: int, d: Direction, keepGoing: bool)
    requires IsOnBoard(o) && NonZero(d)
    ensures forall m :: m in RayFrom(g, o, row, col, d, keepGoing) ==>
              m.startPosition == o && m.promotionPiece == None && IsOnBoard(m.endPosition)
    ensures !keepGoing ==> |RayFrom(g, o, row, col, d, keepGoing)| <= 1
    decreases Room(row, d.0) + Room(col, d.1)
  {
    RayFromUnfold(g, o, row, col, d, keepGoing);
    if RayStep(g, o, row, col, keepGoing).1 {
      RoomShrinks(row, col, d);
      RayFromShape(g, o, row + d.0, col + d.1, d, keepGoing);
    }
  }

  lemma ConsecutiveCons(m: Move, rest: seq<Move>, o: Position, d: Direction, k: int)
    requires m.endPosition == Along(o, d, k) && ConsecutiveSteps(rest, o, d, k + 1)
    ensures ConsecutiveSteps([m] + rest, o, d, k)
  {
    var r := [m] + rest;
    forall i | 0 <= i < |r|
      ensures r[i].endPosition == Along(o, d, k + i)
    {
      if i > 0 {
        assert r[i] == rest[i - 1];
        assert k + 1 + (i - 1) == k + i;
      }
    }
  }

  /** The i-th move of the rest of a ray whose next square, (row, col), is
      step k lands on step k + i. */
  lemma {:induction false} RayFromSteps(g: Grid, o: Position, d: Direction, row: int, col: int, k: int, keepGoing: bool)
    requires IsOnBoard(o) && NonZero(d) && Along(o, d, k) == Position(row, col)
    ensures ConsecutiveSteps(RayFrom(g, o, row, col, d, keepGoing), o, d, k)
    decreases Room(row, d.0) + Room(col, d.1)
  {
    RayFromUnfold(g, o, row, col, d, keepGoing);
    if RayStep(g, o, row, col, keepGoing).1 {
      RoomShrinks(row, col, d);
      AlongNext(o, d, k);
      RayFromSteps(g, o, d, row + d.0, col + d.1, k + 1, keepGoing);
      ConsecutiveCons(Move(o, Position(row, col), None), RayFrom(g, o, row + d.0, col + d.1, d, keepGoing), o, d, k);
    }
  }

  /** Destinations are origin + k*d for k = 1, 2, ... consecutively. */
  lemma RaySteps(g: Grid, o: Position, d: Direction, keepGoing: bool)
    requires IsOnBoard(o) && NonZero(d)
    ensures ConsecutiveSteps(Ray(g, o, d, keepGoing), o, d, 1)
  {
    assert Along(o, d, 1) == Position(o.row + d.0, o.column + d.1);
    RayFromSteps(g, o, d, o.row + d.0, o.column + d.1, 1, keepGoing);
  }

  /** Every square of the ray but the last is empty, and every square is empty
      or holds an enemy of the piece on the origin: a friendly square is never
      included. */
  lemma {:induction false} RayFromBlocking(g: Grid, o: Position, row: int, col: int, d: Direction, keepGoing: bool)
    requires IsOnBoard(o) && NonZero(d)
    ensures StopsAtFirstPiece(g, o, RayFrom(g, o, row, col, d, keepGoing))
    decreases Room(row, d.0) + Room(col, d.1)
  {
    RayFromUnfold(g, o, row, col, d, keepGoing);
    if RayStep(g, o, row, col, keepGoing).1 {
      RoomShrinks(row, col, d);
      RayFromBlocking(g, o, row + d.0, col + d.1, d, keepGoing);
      StopsCons(g, o, Move(o, Position(row, col), None), RayFrom(g, o, row + d.0, col + d.1, d, keepGoing));
    }
  }

  lemma StopsCons(g: Grid, o: Position, m: Move, rest: seq<Move>)
    requires IsOnBoard(o) && IsOnBoard(m.endPosition) && !Occupied(g, m.endPosition)
    requires StopsAtFirstPiece(g, o, rest)
    ensures StopsAtFirstPiece(g, o, [m] + rest)
  {
    var r := [m] + rest;
    forall i | 1 <= i < |r|
      ensures r[i] == rest[i - 1]
    {
    }
  }

  /** Completeness: a square reached through empty squares from step k0,
      whose square is (row, col), is on the rest of the ray from there. */
  lemma {:induction false} RayFromReaches(g: Grid, o: Position, d: Direction, row: int, col: int, k0: int, k: int)
    requires IsOnBoard(o) && NonZero(d) && 1 <= k0 <= k && Along(o, d, k0) == Position(row, col)
    requires forall j :: k0 <= j < k ==> IsOnBoard(Along(o, d, j)) && !Occupied(g, Along(o, d, j))
    requires IsOnBoard(Along(o, d, k)) && Landable(g, o, Along(o, d, k))
    ensures Move(o, Along(o, d, k), None) in RayFrom(g, o, row, col, d, true)
    decreases k - k0
  {
    var step := RayStep(g, o, row, col, true);
    if k0 < k {
      assert step.1;
      RoomShrinks(row, col, d);
      AlongNext(o, d, k0);
      RayFromReaches(g, o, d, row + d.0, col + d.1, k0 + 1, k);
    } else {
      assert step.0 == [Move(o, Along(o, d, k), None)];
    }
  }

  /** A ray, as a set of moves, is exactly the squares the origin reaches
      along its direction: moves from the origin, without promotion. */
  lemma RayMembers(g: Grid, o: Position, d: Direction, m: Move)
    requires IsOnBoard(o) && NonZero(d)
    ensures m in Ray(g, o, d, true) <==>
            m.startPosition == o && m.promotionPiece == None && Reaches(g, o, d, m.endPosition)
  {
    if m in Ray(g, o, d, true) {
      RayMemberReaches(g, o, d, m);
    }
    if m.startPosition == o && m.promotionPiece == None && Reaches(g, o, d, m.endPosition) {
      var k :| k >= 1 && m.endPosition == Along(o, d, k) && IsOnBoard(m.endPosition)
               && Landable(g, o, m.endPosition) && ClearUpTo(g, o, d, k);
      assert Along(o, d, 1) == Position(o.row + d.0, o.column + d.1);
      RayFromReaches(g, o, d, o.row + d.0, o.column + d.1, 1, k);
      assert m == Move(o, Along(o, d, k), None);
    }
  }

  /** Soundness: every move of a ray reaches its square. */
  lemma RayMemberReaches(g: Grid, o: Position, d: Direction, m: Move)
    requires IsOnBoard(o) && NonZero(d) && m in Ray(g, o, d, true)
    ensures m.startPosition == o && m.promotionPiece == None && Reaches(g, o, d, m.endPosition)
  {
    var r := Ray(g, o, d, true);
    RayFromShape(g, o, o.row + d.0, o.column + d.1, d, true);
    var i :| 0 <= i < |r| && r[i] == m;
    RaySteps(g, o, d, true);
    RayStopsAtFirstPiece(g, o, d, true);
    ClearBefore(g, o, d, r, i);
    assert m.endPosition == Along(o, d, i + 1);
  }

  /** The squares before the i-th move of a ray are all empty. */
  lemma ClearBefore(g: Grid, o: Position, d: Direction, r: seq<Move>, i: int)
    requires IsOnBoard(o) && ConsecutiveSteps(r, o, d, 1) && StopsAtFirstPiece(g, o, r) && 0 <= i < |r|
    ensures ClearUpTo(g, o, d, i + 1)
  {
    forall j | 1 <= j < i + 1
      ensures IsOnBoard(Along(o, d, j)) && !Occupied(g, Along(o, d, j))
    {
      assert r[j - 1].endPosition == Along(o, d, 1 + (j - 1));
      assert 1 + (j - 1) == j;
    }
  }

  /** A ray contains no friendly square and nothing beyond the first occupied
      square: after an occupied square the ray has ended. */
  lemma RayStopsAtFirstPiece(g: Grid, o: Position, d: Direction, keepGoing: bool)
    requires IsOnBoard(o) && NonZero(d)
    ensures StopsAtFirstPiece(g, o, Ray(g, o, d, keepGoing))
  {
    RayFromBlocking(g, o, o.row + d.0, o.column + d.1, d, keepGoing);
  }

  /** The number of squares from (row, col) to the edge, stepping by `d`. */
  function Reach(row: int, col: int, d: Direction): nat
    requires NonZero(d)
    decreases Room(row, d.0) + Room(col, d.1)
  {
    if !OnBoard(row, col) then 0 else 1 + Reach(row + d.0, col + d.1, d)
  }

  /** The origin is the only piece on the board. */
  ghost predicate AloneOnBoard(g: Grid, o: Position)
  {
    forall p :: IsOnBoard(p) && p != o ==> At(g, p).None?
  }

  /** (row, col) lies strictly ahead of `o` in direction `d`, coordinate by
      coordinate. */
  predicate Ahead(o: Position, d: Direction, row: int, col: int)
  {
    && (d.0 > 0 ==> row > o.row) && (d.0 < 0 ==> row < o.row)
    && (d.1 > 0 ==> col > o.column) && (d.1 < 0 ==> col < o.column)
  }

  /** With the origin alone on the board, the rest of a ray from a square
      ahead of the origin runs to the edge. */
  lemma {:induction false} RayFromOnEmptyBoard(g: Grid, o: Position, d: Direction, row: int, col: int)
    requires IsOnBoard(o) && NonZero(d) && AloneOnBoard(g, o) && Ahead(o, d, row, col)
    ensures |RayFrom(g, o, row, col, d, true)| == Reach(row, col, d)
    decreases Room(row, d.0) + Room(col, d.1)
  {
    RayFromUnfold(g, o, row, col, d, true);
    if OnBoard(row, col) {
      assert Position(row, col) != o;
      assert RayStep(g, o, row, col, true).1;
      RoomShrinks(row, col, d);
      RayFromOnEmptyBoard(g, o, d, row + d.0, col + d.1);
      var rest := RayFrom(g, o, row + d.0, col + d.1, d, true);
      assert |[Move(o, Position(row, col), None)] + rest| == 1 + |rest|;
      assert Reach(row, col, d) == 1 + Reach(row + d.0, col + d.1, d);
    } else {
      assert RayStep(g, o, row, col, true).0 == [];
      assert Reach(row, col, d) == 0;
    }
  }

  /** On an otherwise empty board a ray runs all the way to the edge. */
  lemma RayOnEmptyBoard(g: Grid, o: Position, d: Direction)
    requires IsOnBoard(o) && NonZero(d) && AloneOnBoard(g, o)
    ensures |Ray(g, o, d, true)| == Reach(o.row + d.0, o.column + d.1, d)
  {
    RayFromOnEmptyBoard(g, o, d, o.row + d.0, o.column + d.1);
  }
}
