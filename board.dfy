/** The 8x8 board (ChessBoard): a grid of optional pieces, written in place by
    AddPiece and ResetBoard. */
module Boards {
  import opened Outcomes
  import opened ChessValues

  /** The contents of a board as a value: 8 rows of 8 cells, row index
      `row - 1`, column index `column - 1`, as in ChessBoard.boardArray. */
  type Grid = g: seq<seq<Option<Piece>>> | |g| == 8 && forall r :: 0 <= r < 8 ==> |g[r]| == 8
    witness seq(8, _ => seq(8, _ => None))

  /** The cell a square maps to. */
  function At(g: Grid, p: Position): Option<Piece>
    requires IsOnBoard(p)
  {
    g[p.row - 1][p.column - 1]
  }

  /** The grid with one cell overwritten; `None` clears it. */
  function Place(g: Grid, p: Position, x: Option<Piece>): (r: Grid)
    requires IsOnBoard(p)
    ensures At(r, p) == x
    ensures forall q :: IsOnBoard(q) && q != p ==> At(r, q) == At(g, q)
  {
    g[p.row - 1 := g[p.row - 1][p.column - 1 := x]]
  }

  /** Two grids are the same value iff they agree on all 64 squares. */
  lemma {:induction false} SameCells(a: Grid, b: Grid)
    ensures a == b <==> forall p :: IsOnBoard(p) ==> At(a, p) == At(b, p)
  {
    if forall p :: IsOnBoard(p) ==> At(a, p) == At(b, p) {
      forall r | 0 <= r < 8
        ensures a[r] == b[r]
      {
        forall c | 0 <= c < 8
          ensures a[r][c] == b[r][c]
        {
          assert At(a, Position(r + 1, c + 1)) == At(b, Position(r + 1, c + 1));
        }
      }
    }
  }

  /** Agreement on all squares is agreement on all array cells. */
  lemma CellIndexing(a: Grid, b: Grid)
    ensures (forall p :: IsOnBoard(p) ==> At(a, p) == At(b, p)) <==>
            (forall r, c :: 0 <= r < 8 && 0 <= c < 8 ==> a[r][c] == b[r][c])
  {
    if forall r, c :: 0 <= r < 8 && 0 <= c < 8 ==> a[r][c] == b[r][c] {
    } else {
      var r, c :| 0 <= r < 8 && 0 <= c < 8 && a[r][c] != b[r][c];
      assert At(a, Position(r + 1, c + 1)) != At(b, Position(r + 1, c + 1));
    }
  }

  /** A board with no pieces. */
  const EmptyGrid: Grid := seq(8, _ => seq(8, _ => None))

  /** The back-rank piece in 0-based column `j`: rook, knight, bishop, queen,
      king, bishop, knight, rook. */
  function BackRankKind(j: int): PieceType
  {
    if j == 0 || j == 7 then Rook
    else if j == 1 || j == 6 then Knight
    else if j == 2 || j == 5 then Bishop
    else if j == 3 then Queen
    else King
  }

  /** The opening occupant of array cell [i, j]. */
  function StartCell(i: int, j: int): Option<Piece>
  {
    if i == 0 then Some(Piece(White, BackRankKind(j)))
    else if i == 1 then Some(Piece(White, Pawn))
    else if i == 6 then Some(Piece(Black, Pawn))
    else if i == 7 then Some(Piece(Black, BackRankKind(j)))
    else None
  }

  /** The standard opening position. */
  const InitialGrid: Grid := seq(8, i => seq(8, j => StartCell(i, j)))

  /** The opening position square by square: white's back rank on row 1, white
      pawns on row 2, black pawns on row 7, black's back rank on row 8, rows 3-6
      empty. */
  lemma InitialLayout()
    ensures forall c :: 1 <= c <= 8 ==>
      && At(InitialGrid, Position(2, c)) == Some(Piece(White, Pawn))
      && At(InitialGrid, Position(7, c)) == Some(Piece(Black, Pawn))
      && (forall r :: 3 <= r <= 6 ==> At(InitialGrid, Position(r, c)) == None)
    ensures
      && At(InitialGrid, Position(1, 1)) == Some(Piece(White, Rook))
      && At(InitialGrid, Position(1, 2)) == Some(Piece(White, Knight))
      && At(InitialGrid, Position(1, 3)) == Some(Piece(White, Bishop))
      && At(InitialGrid, Position(1, 4)) == Some(Piece(White, Queen))
      && At(InitialGrid, Position(1, 5)) == Some(Piece(White, King))
      && At(InitialGrid, Position(1, 6)) == Some(Piece(White, Bishop))
      && At(InitialGrid, Position(1, 7)) == Some(Piece(White, Knight))
      && At(InitialGrid, Position(1, 8)) == Some(Piece(White, Rook))
    ensures
      && At(InitialGrid, Position(8, 1)) == Some(Piece(Black, Rook))
      && At(InitialGrid, Position(8, 2)) == Some(Piece(Black, Knight))
      && At(InitialGrid, Position(8, 3)) == Some(Piece(Black, Bishop))
      && At(InitialGrid, Position(8, 4)) == Some(Piece(Black, Queen))
      && At(InitialGrid, Position(8, 5)) == Some(Piece(Black, King))
      && At(InitialGrid, Position(8, 6)) == Some(Piece(Black, Bishop))
      && At(InitialGrid, Position(8, 7)) == Some(Piece(Black, Knight))
      && At(InitialGrid, Position(8, 8)) == Some(Piece(Black, Rook))
  {
  }

  class ChessBoard {
    /** Assigned once, by the constructor. */
    const boardArray: array2<Option<Piece>>
    /** The abstract contents of boardArray. */
    ghost var Squares: Grid

    ghost predicate Valid()
      reads this, boardArray
    {
      && boardArray.Length0 == 8 && boardArray.Length1 == 8
      && forall r, c :: 0 <= r < 8 && 0 <= c < 8 ==> boardArray[r, c] == Squares[r][c]
    }

    /** A new board has all 64 cells empty. */
    constructor ()
      ensures Valid() && fresh(boardArray)
      ensures Squares == EmptyGrid
    {
      boardArray := new Option<Piece>[8, 8]((_, _) => None);
      Squares := EmptyGrid;
    }

    /** Puts `piece` on `position`, overwriting any occupant; `None` clears it. */
    method AddPiece(position: Position, piece: Option<Piece>)
      requires Valid() && IsOnBoard(position)
      modifies this, boardArray
      ensures Valid()
      ensures Squares == Place(old(Squares), position, piece)
    {
      boardArray[position.row - 1, position.column - 1] := piece;
      Squares := Place(Squares, position, piece);
    }

    /** The piece on `position`, or `None`. */
    function GetPiece(position: Position): (r: Option<Piece>)
      reads this, boardArray
      requires Valid() && IsOnBoard(position)
      ensures r == At(Squares, position)
    {
      boardArray[position.row - 1, position.column - 1]
    }

    /** Clears every cell, then sets up the opening position. */
    method ResetBoard()
      requires Valid()
      modifies this, boardArray
      ensures Valid()
      ensures Squares == InitialGrid
    {
      for r := 0 to 8
        invariant forall i, j :: 0 <= i < r && 0 <= j < 8 ==> boardArray[i, j] == None
      {
        FillRow(r, None);
      }
      PlaceBackRank(0, White);
      FillRow(1, Some(Piece(White, Pawn)));
      PlaceBackRank(7, Black);
      FillRow(6, Some(Piece(Black, Pawn)));
      Squares := InitialGrid;
    }

    /** Sets every cell of array row `i` to `piece`: Arrays.fill, or a loop
        over the columns. */
    method FillRow(i: int, piece: Option<Piece>)
      requires boardArray.Length0 == 8 && boardArray.Length1 == 8 && 0 <= i < 8
      modifies boardArray
      ensures forall j :: 0 <= j < 8 ==> boardArray[i, j] == piece
      ensures forall r, c :: 0 <= r < 8 && 0 <= c < 8 && r != i ==> boardArray[r, c] == old(boardArray[r, c])
    {
      for c := 0 to 8
        invariant forall j :: 0 <= j < c ==> boardArray[i, j] == piece
        invariant forall r, j :: 0 <= r < 8 && 0 <= j < 8 && r != i ==> boardArray[r, j] == old(boardArray[r, j])
      {
        boardArray[i, c] := piece;
      }
    }

    /** The eight back-rank assignments of `color` on array row `i`, one per column. */
    method PlaceBackRank(i: int, color: TeamColor)
      requires boardArray.Length0 == 8 && boardArray.Length1 == 8 && 0 <= i < 8
      modifies boardArray
      ensures forall j :: 0 <= j < 8 ==> boardArray[i, j] == Some(Piece(color, BackRankKind(j)))
      ensures forall r, c :: 0 <= r < 8 && 0 <= c < 8 && r != i ==> boardArray[r, c] == old(boardArray[r, c])
    {
      forall j | 0 <= j < 8 {
        boardArray[i, j] := Some(Piece(color, BackRankKind(j)));
      }
    }

    /** ChessBoard.equals: cell-by-cell comparison of the two arrays. */
    predicate Equals(other: ChessBoard)
      reads this, boardArray, other, other.boardArray
      requires Valid() && other.Valid()
      ensures Equals(other) <==> forall p :: IsOnBoard(p) ==> At(Squares, p) == At(other.Squares, p)
    {
      CellIndexing(Squares, other.Squares);
      forall r, c | 0 <= r < 8 && 0 <= c < 8 :: boardArray[r, c] == other.boardArray[r, c]
    }
  }
}
