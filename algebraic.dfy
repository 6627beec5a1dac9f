/** The client's reading of squares ("e2") and moves ("e2e4") in algebraic
    notation (GameplayUI.parseAlgebraic and parseAndSendMove). */
module Algebraic {
  import opened Outcomes
  import opened ChessValues

  /** The three rejections of parseAlgebraic, and the length rejection of
      parseAndSendMove. */
  datatype ParseError = SquareLength | FileOutOfRange | RankOutOfRange | MoveLength

  /** parseAlgebraic: exactly two characters, a file 'a'..'h' giving column
      1..8 and a rank '1'..'8' giving row 1..8; the checks run in that
      order. */
  function ParseAlgebraic(sq: string): (r: Result<Position, ParseError>)
    ensures r.Success? <==> |sq| == 2 && 'a' <= sq[0] <= 'h' && '1' <= sq[1] <= '8'
    ensures r.Success? ==>
              (IsOnBoard(r.value) &&
               r.value.column == sq[0] as int - 'a' as int + 1 && r.value.row == sq[1] as int - '0' as int)
    ensures r == Failure(SquareLength) <==> |sq| != 2
    ensures r == Failure(FileOutOfRange) <==> |sq| == 2 && !('a' <= sq[0] <= 'h')
    ensures r == Failure(RankOutOfRange) <==> |sq| == 2 && 'a' <= sq[0] <= 'h' && !('1' <= sq[1] <= '8')
  {
    if |sq| != 2 then Failure(SquareLength)
    else
      var file := sq[0];
      var rank := sq[1];
      if file < 'a' || file > 'h' then Failure(FileOutOfRange)
      else if rank < '1' || rank > '8' then Failure(RankOutOfRange)
      else
        var col := file as int - 'a' as int + 1;
        var row := rank as int - '0' as int;
        Success(Position(row, col))
  }

  /** The name of an on-board square: its file letter, then its rank digit. */
  function SquareName(p: Position): (name: string)
    requires IsOnBoard(p)
    ensures |name| == 2
  {
    [('a' as int + p.column - 1) as char, ('0' as int + p.row) as char]
  }

  /** Every square's name reads back as that square. */
  lemma ParseSquareName(p: Position)
    requires IsOnBoard(p)
    ensures ParseAlgebraic(SquareName(p)) == Success(p)
  {
  }

  /** A string that parses is the name of the square it denotes: no two
      names denote the same square. */
  lemma ParsedIsSquareName(sq: string)
    requires ParseAlgebraic(sq).Success?
    ensures SquareName(ParseAlgebraic(sq).value) == sq
  {
    var p := ParseAlgebraic(sq).value;
    assert SquareName(p)[0] == sq[0] && SquareName(p)[1] == sq[1];
  }

  /** String.toLowerCase on ASCII letters. */
  function ToLower(c: char): (l: char)
    ensures 'A' <= c <= 'Z' ==> l as int == c as int + 32
    ensures !('A' <= c <= 'Z') ==> l == c
  {
    if 'A' <= c <= 'Z' then (c as int + 32) as char else c
  }

  function LowerCase(s: string): (l: string)
    ensures |l| == |s| && forall i :: 0 <= i < |s| ==> l[i] == ToLower(s[i])
  {
    seq(|s|, i requires 0 <= i < |s| => ToLower(s[i]))
  }

  /** The parsing part of parseAndSendMove: four characters, the two halves
      lower-cased and read as squares, start first; no promotion. A bad half
      is rejected with parseAlgebraic's error for it, the start half first. */
  function ParseMove(moveStr: string): (r: Result<Move, ParseError>)
    ensures r.Success? ==>
              (r.value.promotionPiece == None &&
               IsOnBoard(r.value.startPosition) && IsOnBoard(r.value.endPosition))
    ensures r.Success? ==>
              LowerCase(moveStr) == SquareName(r.value.startPosition) + SquareName(r.value.endPosition)
    ensures r == Failure(MoveLength) <==> |moveStr| != 4
    ensures |moveStr| == 4 ==>
              (r.Success? <==>
                 ParseAlgebraic(LowerCase(moveStr[0..2])).Success? &&
                 ParseAlgebraic(LowerCase(moveStr[2..4])).Success?)
    ensures |moveStr| == 4 && r.Failure? ==>
              r.error == (if ParseAlgebraic(LowerCase(moveStr[0..2])).Failure?
                          then ParseAlgebraic(LowerCase(moveStr[0..2])).error
                          else ParseAlgebraic(LowerCase(moveStr[2..4])).error)
  {
    if |moveStr| != 4 then Failure(MoveLength)
    else
      var startSq := LowerCase(moveStr[0..2]);
      var endSq := LowerCase(moveStr[2..4]);
      match ParseAlgebraic(startSq)
      case Failure(e) => Failure(e)
      case Success(startPos) =>
        match ParseAlgebraic(endSq)
        case Failure(e) => Failure(e)
        case Success(endPos) =>
          ParsedIsSquareName(startSq);
          ParsedIsSquareName(endSq);
          assert LowerCase(moveStr) == startSq + endSq;
          Success(Move(startPos, endPos, None))
  }

  /** The names of two squares, one after the other, read back as the move
      between them. */
  lemma ParseMoveNames(a: Position, b: Position)
    requires IsOnBoard(a) && IsOnBoard(b)
    ensures ParseMove(SquareName(a) + SquareName(b)) == Success(Move(a, b, None))
  {
    var s := SquareName(a) + SquareName(b);
    assert LowerCase(s[0..2]) == SquareName(a);
    assert LowerCase(s[2..4]) == SquareName(b);
    ParseSquareName(a);
    ParseSquareName(b);
  }

  /** Upper-case file letters are accepted: a move string reads the same as
      its lower-case form. */
  lemma ParseMoveIgnoresCase(moveStr: string)
    ensures ParseMove(moveStr) == ParseMove(LowerCase(moveStr))
  {
    if |moveStr| == 4 {
      var lower := LowerCase(moveStr);
      assert LowerCase(lower[0..2]) == LowerCase(moveStr[0..2]);
      assert LowerCase(lower[2..4]) == LowerCase(moveStr[2..4]);
    }
  }
}
