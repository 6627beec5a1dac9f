# A verified model of a Java chess server's rules engine

The system is a two-player chess server with a console client. This project
models its core in Dafny:

- **The rules engine** (package `chess`):
  - the value types: positions, moves and pieces;
  - the 8x8 board, written in place;
  - the per-piece move generators: sliding rays for rook, bishop and queen, offset tables for knight and king, and two pawn variants (with and without far-rank promotion);
  - `ChessGame`, which filters the generated moves by simulating each one on a copied board and applies a legal move by flipping the turn.
- **The client's algebraic notation parser**: `e2` becomes a square and `e2e4` a move.
- **The server's in-memory tables** for games, sessions and users.
- **The game and user services** on top of those tables.
- **The WebSocket connection registry.**

The form of the model follows the form of the code:

- **Boards and games are classes.** `ChessBoard` keeps its 8x8 `array2` and a ghost `Squares` grid tied to it. `ChessGame` keeps a board and the side to move.
- **Generators and game checks are methods with loops.** Each is proved equal to a specification function over the grid, in modules `MoveRules` and `GameRules`.
- **What the source promises is proved about those functions** in the fact modules: `RayFacts`, `SliderFacts`, `JumpFacts`, `PawnFacts`, `PieceFacts` and `GameRules`.
- **The tables, services and registry are classes** whose fields are Dafny maps, reassigned by their methods.

A Java `null` is `None`:
- an empty square;
- a move without promotion;
- a missing string, where the source tests for `null`.

Exceptions become `Result`/`Outcome` values naming the exception.

Randomness is an input:
- `createGame` receives the sequence of random ids it draws;
- `registerUser` receives the UUID string.

## Model

| member | source | states |
|---|---|---|
| ChessValues.Opponent | shared/src/main/java/chess/ChessGame.java:97 | the side that moves next is never the side that just moved |
| ChessValues.Position.Equals | shared/src/main/java/chess/ChessPosition.java:44-50 | two positions are equal iff their rows and their columns are equal |
| ChessValues.Piece.Equals | shared/src/main/java/chess/ChessPiece.java:70-79 | two pieces are equal iff colour and kind agree; a piece has no other identity |
| ChessValues.Move.Equals | shared/src/main/java/chess/ChessMove.java:59-70 | moves are equal iff start and end are equal and the promotions agree, an absent promotion matching only an absent one |
| Boards.Place | shared/src/main/java/chess/ChessBoard.java:24-28 | after placing x on p the square p holds x (None clears it) and every other square keeps its occupant |
| Boards.SameCells | shared/src/main/java/chess/ChessBoard.java:80-89 | two board contents are the same value iff they agree on all 64 on-board squares |
| Boards.CellIndexing | shared/src/main/java/chess/ChessBoard.java:37-41 | agreement on every square (row, column) in 1..8 is agreement on every array cell [row-1][column-1] |
| Boards.InitialLayout | shared/src/main/java/chess/ChessBoard.java:47-77 | the opening position: R N B Q K B N R on row 1 (white) and row 8 (black), pawns on rows 2 and 7, rows 3-6 empty |
| Boards.ChessBoard.constructor | shared/src/main/java/chess/ChessBoard.java:13-16 | a new board has all 64 cells empty |
| Boards.ChessBoard.AddPiece | shared/src/main/java/chess/ChessBoard.java:24-28 | the board's contents become Place(old contents, position, piece): that square overwritten, all others unchanged |
| Boards.ChessBoard.GetPiece | shared/src/main/java/chess/ChessBoard.java:37-41 | returns the occupant of the array cell [row-1][column-1], i.e. the square's content |
| Boards.ChessBoard.ResetBoard | shared/src/main/java/chess/ChessBoard.java:47-77 | whatever the board held before, it afterwards holds exactly the opening position (so resetting twice is resetting once) |
| Boards.ChessBoard.FillRow | shared/src/main/java/chess/ChessBoard.java:48-50 | every cell of one array row gets the given value; every other row is unchanged |
| Boards.ChessBoard.PlaceBackRank | shared/src/main/java/chess/ChessBoard.java:52-59 | one array row gets rook, knight, bishop, queen, king, bishop, knight, rook of one colour; every other row is unchanged |
| Boards.ChessBoard.Equals | shared/src/main/java/chess/ChessBoard.java:80-89 | two boards are equal iff they hold the same thing on every on-board square |
| MoveRules.RayStep | shared/src/main/java/chess/pieceMovesCalculator/moveCalculator.java:50-66 | the walk only goes on past a square that is on the board |
| MoveRules.RoomShrinks | shared/src/main/java/chess/pieceMovesCalculator/moveCalculator.java:46-52 | with a non-zero direction each step brings the walk closer to the edge, so the while(true) loop ends |
| RayFacts.RayFromShape | shared/src/main/java/chess/pieceMovesCalculator/moveCalculator.java:46-66 | every move of a ray starts at the origin, has no promotion and lands on the board; with keepGoing false there is at most one move |
| RayFacts.RayFromSteps | shared/src/main/java/chess/pieceMovesCalculator/moveCalculator.java:46-52 | from any point of the walk, the i-th further move lands i steps further along the direction |
| RayFacts.RaySteps | shared/src/main/java/chess/pieceMovesCalculator/moveCalculator.java:46-52 | the destinations of a ray are origin + k*(dRow, dCol) for k = 1, 2, ... consecutively |
| RayFacts.RayFromBlocking | shared/src/main/java/chess/pieceMovesCalculator/moveCalculator.java:56-66 | from any point of the walk, every added square but the last is empty and none holds a piece of the mover's colour |
| RayFacts.RayStopsAtFirstPiece | shared/src/main/java/chess/pieceMovesCalculator/moveCalculator.java:56-66 | every destination but the last is empty; the last may hold an enemy; a friendly square is never included and nothing lies beyond the first occupied square |
| RayFacts.RayFromReaches | shared/src/main/java/chess/pieceMovesCalculator/moveCalculator.java:46-66 | completeness: a square reached through empty squares, empty or holding an enemy, is on the rest of the ray |
| RayFacts.RayMemberReaches | shared/src/main/java/chess/pieceMovesCalculator/moveCalculator.java:46-66 | soundness: every move of a ray starts at the origin, has no promotion and reaches its square through empty squares |
| RayFacts.RayMembers | shared/src/main/java/chess/pieceMovesCalculator/moveCalculator.java:34-70 | a ray holds exactly the moves from the origin, without promotion, to the squares reached along the direction |
| RayFacts.RayFromOnEmptyBoard | shared/src/main/java/chess/pieceMovesCalculator/moveCalculator.java:46-66 | with the mover alone on the board, the rest of the walk runs to the edge |
| RayFacts.RayOnEmptyBoard | shared/src/main/java/chess/pieceMovesCalculator/moveCalculator.java:46-66 | with the mover alone on the board, a ray has one move per square up to the edge |
| MoveCalculators.GatherMovesInDirection | shared/src/main/java/chess/pieceMovesCalculator/moveCalculator.java:34-70 | the while(true) walk returns exactly the ray of the given direction on the board's contents |
| MoveCalculators.LookAt | shared/src/main/java/chess/pieceMovesCalculator/moveCalculator.java:50-66 | one pass of the walk: the move added at (row, col), if any, and whether the walk continues |
| MoveCalculators.GatherRays | shared/src/main/java/chess/piecemovescalculator/RookMoves.java:21-23 | the for-loop over a direction table returns the rays of its entries concatenated in table order |
| MoveCalculators.RookPossibleMoves | shared/src/main/java/chess/piecemovescalculator/RookMoves.java:10-25 | returns exactly the rook's rays along (1,0), (-1,0), (0,1), (0,-1) |
| MoveCalculators.BishopPossibleMoves | shared/src/main/java/chess/piecemovescalculator/BishopMoves.java:12-26 | returns exactly the bishop's rays along (1,1), (1,-1), (-1,1), (-1,-1) |
| MoveCalculators.QueenPossibleMoves | shared/src/main/java/chess/piecemovescalculator/queenMoves.java:9-21 | returns exactly the queen's eight rays |
| MoveCalculators.GatherJumps | shared/src/main/java/chess/piecemovescalculator/KnightMoves.java:22-31 | the for-loop over an offset table returns the jump of each entry, in table order |
| MoveCalculators.KnightPossibleMoves | shared/src/main/java/chess/piecemovescalculator/KnightMoves.java:10-33 | returns exactly the knight's jumps, nothing for an empty square |
| MoveCalculators.KingPossibleMoves | shared/src/main/java/chess/pieceMovesCalculator/kingMoves.java:11-35 | returns exactly the king's steps, nothing for an empty square |
| MoveCalculators.GatherPawnAdvance | shared/src/main/java/chess/pieceMovesCalculator/pawnMoves.java:24-44 | returns exactly the straight-ahead moves: one square, then two from the start row, with far-rank promotion |
| MoveCalculators.GatherPawnCapture | shared/src/main/java/chess/pieceMovesCalculator/pawnMoves.java:51-63 | returns exactly the capture on one diagonal, with far-rank promotion |
| MoveCalculators.GatherPawnMoves | shared/src/main/java/chess/pieceMovesCalculator/pawnMoves.java:10-66 | returns the advances followed by the left and right captures, for either pawn variant |
| MoveCalculators.PawnPossibleMoves | shared/src/main/java/chess/pieceMovesCalculator/pawnMoves.java:10-66 | returns exactly the promoting pawn's moves |
| MoveCalculators.PlainPawnPossibleMoves | shared/src/main/java/chess/PieceMovesCalculator/PawnMoves.java:10-55 | returns exactly the non-promoting pawn's moves |
| MoveCalculators.PieceMovesOf | shared/src/main/java/chess/ChessPiece.java:58-68 | pieceMoves dispatches on the piece kind alone and only reads the board |
| SliderFacts.RaysAlongMembers | shared/src/main/java/chess/piecemovescalculator/rookMoves.java:21-23 | the concatenated rays of a table hold exactly the moves of its individual rays |
| SliderFacts.RaysAlongAppend | shared/src/main/java/chess/PieceMovesCalculator/QueenMoves.java:17-19 | the rays of a concatenated table are the concatenation of the two tables' rays |
| SliderFacts.SliderMoveShape | shared/src/main/java/chess/PieceMovesCalculator/QueenMoves.java:17-19 | every sliding move starts at the start square, has no promotion, lands on an empty or enemy square on the board, and is reached along one table direction |
| SliderFacts.SliderMembers | shared/src/main/java/chess/PieceMovesCalculator/QueenMoves.java:12-19 | the sliding moves are exactly the squares the start reaches along one of the table's directions, without promotion |
| SliderFacts.RookRayOrder | shared/src/main/java/chess/piecemovescalculator/rookMoves.java:13-23 | the rook's moves are its (1,0), (-1,0), (0,1), (0,-1) rays concatenated in that order |
| SliderFacts.BishopRayOrder | shared/src/main/java/chess/PieceMovesCalculator/BishopMoves.java:17-26 | the bishop's moves are its (1,1), (1,-1), (-1,1), (-1,-1) rays concatenated in that order |
| SliderFacts.QueenIsRookThenBishop | shared/src/main/java/chess/piecemovescalculator/queenMoves.java:12-19 | the queen's moves are the rook's moves followed by the bishop's, so its destinations are their union |
| SliderFacts.RookMoveGeometry | shared/src/main/java/chess/piecemovescalculator/RookMoves.java:13-19 | a rook destination shares exactly one of row and column with the start, so it is never the start |
| SliderFacts.BishopMoveGeometry | shared/src/main/java/chess/piecemovescalculator/BishopMoves.java:15-20 | a bishop destination has abs(row change) = abs(column change) > 0 |
| SliderFacts.QueenMoveGeometry | shared/src/main/java/chess/PieceMovesCalculator/QueenMoves.java:12-15 | a queen destination lies on a line or diagonal through the start and is not the start |
| SliderFacts.RookOnEmptyBoard | shared/src/main/java/chess/piecemovescalculator/RookMoves.java:13-23 | a rook alone on the board has 14 moves from every square |
| SliderFacts.LineLength | shared/src/main/java/chess/piecemovescalculator/rookMoves.java:13-19 | alone on the board, each rook ray runs to the edge it heads for: 8-row, row-1, 8-column or column-1 moves |
| SliderFacts.BishopOnEmptyBoard | shared/src/main/java/chess/piecemovescalculator/BishopMoves.java:22-24 | a bishop alone on the board has 13 moves from (4,4) |
| SliderFacts.DiagonalFromCentre | shared/src/main/java/chess/PieceMovesCalculator/BishopMoves.java:17-22 | from (4,4) on an otherwise empty board the up-right diagonal has 4 squares and the others 3 |
| SliderFacts.QueenOnEmptyBoard | shared/src/main/java/chess/piecemovescalculator/queenMoves.java:17-19 | a queen alone on the board has 27 moves from (4,4) |
| JumpFacts.JumpMembers | shared/src/main/java/chess/piecemovescalculator/KnightMoves.java:23-29 | one table entry yields the move to the square at that offset iff it is on the board and empty or enemy-held |
| JumpFacts.JumpMovesMembers | shared/src/main/java/chess/piecemovescalculator/KnightMoves.java:22-31 | a table yields exactly the on-board, empty-or-enemy squares at one of its offsets, as moves from the start without promotion |
| JumpFacts.JumpMovesCount | shared/src/main/java/chess/pieceMovesCalculator/kingMoves.java:23-33 | a table of n offsets yields at most n moves |
| JumpFacts.KnightTable | shared/src/main/java/chess/piecemovescalculator/KnightMoves.java:17-20 | the knight table's offsets are exactly (±2,±1) and (±1,±2) |
| JumpFacts.KingTable | shared/src/main/java/chess/pieceMovesCalculator/kingMoves.java:18-21 | the king table's offsets are exactly the steps of at most one in each coordinate, not both zero |
| JumpFacts.KnightMovesMembers | shared/src/main/java/chess/piecemovescalculator/KnightMoves.java:12-31 | knight moves: none from an empty square; otherwise exactly the on-board (±2,±1)/(±1,±2) squares that are empty or enemy-held, unblocked, without promotion |
| JumpFacts.KingMovesMembers | shared/src/main/java/chess/pieceMovesCalculator/kingMoves.java:13-33 | king moves: none from an empty square; otherwise exactly the on-board neighbouring squares that are empty or enemy-held, without promotion |
| JumpFacts.KnightMovesAtMostEight | shared/src/main/java/chess/piecemovescalculator/KnightMoves.java:12-31 | at most 8 knight moves, and none from an empty square |
| JumpFacts.KingMovesAtMostEight | shared/src/main/java/chess/pieceMovesCalculator/kingMoves.java:13-33 | at most 8 king moves, and none from an empty square |
| PawnFacts.LandingMembers | shared/src/main/java/chess/pieceMovesCalculator/pawnMoves.java:28-32 | landing on a square gives the four promotions on the far rank of a promoting pawn, otherwise one move without promotion |
| PawnFacts.AdvanceMembers | shared/src/main/java/chess/pieceMovesCalculator/pawnMoves.java:24-44 | a straight move exists iff the square ahead is on the board and empty; the two-square move iff also on the start row with the second square on the board and empty |
| PawnFacts.CaptureMembers | shared/src/main/java/chess/pieceMovesCalculator/pawnMoves.java:46-64 | a diagonal move exists iff the diagonal square ahead is on the board and holds an enemy piece |
| PawnFacts.PawnMembers | shared/src/main/java/chess/pieceMovesCalculator/pawnMoves.java:10-66 | a pawn's moves, for both variants: none from an empty square; otherwise exactly the advances and captures, with the promotion rule of the variant |
| PawnFacts.PawnMoveShape | shared/src/main/java/chess/PieceMovesCalculator/PawnMoves.java:21-53 | a pawn move starts on the start square and lands on another on-board square that is empty or enemy-held |
| PawnFacts.PawnRows | shared/src/main/java/chess/pieceMovesCalculator/pawnMoves.java:18-44 | every destination row is row + step or row + 2*step, step +1 for white and -1 for black |
| PawnFacts.FarRankPromotions | shared/src/main/java/chess/pieceMovesCalculator/pawnMoves.java:24-80 | on the far rank a move is offered iff it promotes to queen, bishop, knight or rook onto a reachable square; never a plain move |
| PawnFacts.PlainPawnNeverPromotes | shared/src/main/java/chess/PieceMovesCalculator/PawnMoves.java:21-53 | the variant without promotion never sets a promotion, even on the far rank |
| PawnFacts.PawnVariantsAgreeOffFarRank | shared/src/main/java/chess/PieceMovesCalculator/PawnMoves.java:10-55 | off the far rank both pawn variants offer exactly the same moves |
| PawnFacts.LandingDistinct | shared/src/main/java/chess/pieceMovesCalculator/pawnMoves.java:73-80 | the four promotions of one square are four different moves |
| PawnFacts.PawnMovesDistinct | shared/src/main/java/chess/pieceMovesCalculator/pawnMoves.java:10-66 | a pawn never lists a move twice, so a far-rank square appears as exactly four moves |
| PieceFacts.PieceMovesShape | shared/src/main/java/chess/ChessPiece.java:58-68 | every generated move starts on the given square, ends on another on-board square, and never on a piece of the mover's colour |
| GameRules.FindKingFirst | shared/src/main/java/chess/ChessGame.java:167-180 | the scan finds nothing iff the colour has no king; otherwise it finds a king of that colour with none earlier in row-major order |
| GameRules.AttackScanIsUnderAttack | shared/src/main/java/chess/ChessGame.java:183-199 | the row-major scan answers true iff some enemy piece has a generated move ending on the square |
| GameRules.MovedGridEffects | shared/src/main/java/chess/ChessGame.java:231-239 | a move empties its start, puts the mover (or a same-colour piece of the promotion kind) on its end, and changes no other square |
| GameRules.SafeMovesMembers | shared/src/main/java/chess/ChessGame.java:63-67 | the filter keeps exactly the moves that do not leave the mover's king attacked |
| GameRules.PieceMovesOnBoard | shared/src/main/java/chess/ChessPiece.java:58-68 | every generated move starts and ends on the board |
| GameRules.LegalMovesMembers | shared/src/main/java/chess/ChessGame.java:55-70 | a move is valid iff the piece on its start generates it and, played out, it leaves that piece's king unattacked |
| GameRules.LegalMoveLeavesKingSafe | shared/src/main/java/chess/ChessGame.java:211-229 | after a valid move the mover's king is not attacked, the start is empty and the arriving piece stands on the end |
| GameRules.MoveCheckPasses | shared/src/main/java/chess/ChessGame.java:79-94 | makeMove's checks pass iff the start holds a piece of the side to move, that piece generates the move, the move ends on the board, and once played it leaves the mover's king unattacked |
| Game.ChessGame.constructor | shared/src/main/java/chess/ChessGame.java:18-22 | a new game has the opening position on a fresh board and white to move |
| Game.ChessGame.GetTeamTurn | shared/src/main/java/chess/ChessGame.java:27-29 | returns the side to move |
| Game.ChessGame.SetTeamTurn | shared/src/main/java/chess/ChessGame.java:36-38 | sets the side to move and keeps the board |
| Game.ChessGame.GetBoard | shared/src/main/java/chess/ChessGame.java:146-148 | returns the game's board object itself |
| Game.ChessGame.SetBoard | shared/src/main/java/chess/ChessGame.java:137-139 | installs the given board object (shared, not copied) and keeps the side to move; the game is then ready for validMoves and makeMove |
| Game.ChessGame.CopyBoard | shared/src/main/java/chess/ChessGame.java:150-164 | returns a fresh board, on a fresh array, equal square by square to the original |
| Game.ChessGame.FindKingPosition | shared/src/main/java/chess/ChessGame.java:167-180 | the nested loops return the first king of the colour in row-major order, or None |
| Game.ChessGame.AnyMoveEndsOn | shared/src/main/java/chess/ChessGame.java:190-194 | true iff some move of the list ends on the king's square |
| Game.ChessGame.EnemyHits | shared/src/main/java/chess/ChessGame.java:186-195 | true iff the square holds an enemy of the king's colour and one of its generated moves ends on the king's square |
| Game.ChessGame.UnderAttackOn | shared/src/main/java/chess/ChessGame.java:183-199 | true iff some enemy piece anywhere has a generated move ending on the king's square |
| Game.ChessGame.IsInCheckOnBoard | shared/src/main/java/chess/ChessGame.java:202-208 | false when the colour has no king; otherwise whether its first king is attacked |
| Game.ChessGame.CausesOwnKingCheck | shared/src/main/java/chess/ChessGame.java:211-229 | whether, with the move played on a copy, the mover's king is attacked; the live board is not written |
| Game.ChessGame.ValidMoves | shared/src/main/java/chess/ChessGame.java:55-70 | None iff the square is empty; otherwise the generated moves that do not expose the mover's king, in generation order |
| Game.ChessGame.ExecuteBoardMove | shared/src/main/java/chess/ChessGame.java:231-239 | the board becomes the moved grid: start cleared, mover or its promotion on the end |
| Game.ChessGame.MakeMove | shared/src/main/java/chess/ChessGame.java:79-99 | refuses an empty start, a piece of the side not to move and a move not among the valid ones, changing nothing; otherwise plays the move and flips the turn |
| Game.ChessGame.IsInCheck | shared/src/main/java/chess/ChessGame.java:107-109 | always fails: not implemented |
| Game.ChessGame.IsInCheckmate | shared/src/main/java/chess/ChessGame.java:117-119 | always fails: not implemented |
| Game.ChessGame.IsInStalemate | shared/src/main/java/chess/ChessGame.java:128-130 | always fails: not implemented |
| Algebraic.ParseAlgebraic | client/src/main/java/ui/GameplayUI.java:152-167 | succeeds iff two characters, file a..h and rank 1..8, giving column file-'a'+1 and row rank-'0' on the board; otherwise the length, file or rank rejection, checked in that order |
| Algebraic.ParseSquareName | client/src/main/java/ui/GameplayUI.java:164-166 | round trip: the name of every on-board square parses back to that square |
| Algebraic.ParsedIsSquareName | client/src/main/java/ui/GameplayUI.java:153-166 | a string that parses is exactly the name of the square it denotes |
| Algebraic.ParseMove | client/src/main/java/ui/GameplayUI.java:112-122 | fails with the length error exactly when the length is not 4; otherwise fails with the first bad half's error (start half first), or returns the move, without promotion, between the two squares whose names the lower-cased string spells |
| Algebraic.ParseMoveNames | client/src/main/java/ui/GameplayUI.java:117-122 | the names of two squares, concatenated, parse to the move between them |
| Algebraic.ParseMoveIgnoresCase | client/src/main/java/ui/GameplayUI.java:117-118 | a move string parses the same as its lower-case form |
| DataAccess.MemoryGameDAO.constructor | server/src/main/java/dataaccess/MemoryGameDAO.java:13-15 | a new game table is empty |
| DataAccess.MemoryGameDAO.CreateGame | server/src/main/java/dataaccess/MemoryGameDAO.java:18-23 | stores a record under a new id; an id already present fails with AlreadyExists and changes nothing |
| DataAccess.MemoryGameDAO.GetGame | server/src/main/java/dataaccess/MemoryGameDAO.java:26-31 | returns the record stored under the id, or NotFound |
| DataAccess.MemoryGameDAO.ListGames | server/src/main/java/dataaccess/MemoryGameDAO.java:34-36 | returns exactly the stored records, one per id |
| DataAccess.MemoryGameDAO.UpdateGame | server/src/main/java/dataaccess/MemoryGameDAO.java:39-44 | replaces only the record with the same id; an absent id fails with NotFound and changes nothing |
| DataAccess.MemoryGameDAO.Clear | server/src/main/java/dataaccess/MemoryGameDAO.java:47-49 | afterwards the table is empty, so every lookup fails |
| DataAccess.MemoryAuthDAO.constructor | server/src/main/java/dataAccess/MemoryAuthDAO.java:11-13 | a new session table is empty |
| DataAccess.MemoryAuthDAO.CreateAuth | server/src/main/java/dataAccess/MemoryAuthDAO.java:16-21 | stores a session under a new token; a token already present fails with AlreadyExists and changes nothing |
| DataAccess.MemoryAuthDAO.GetAuth | server/src/main/java/dataAccess/MemoryAuthDAO.java:24-29 | returns the session stored under the token, or NotFound |
| DataAccess.MemoryAuthDAO.DeleteAuth | server/src/main/java/dataAccess/MemoryAuthDAO.java:32-37 | removes exactly that token; a missing token fails with NotFound and changes nothing |
| DataAccess.MemoryAuthDAO.Clear | server/src/main/java/dataAccess/MemoryAuthDAO.java:40-42 | afterwards the table is empty, so every lookup fails |
| DataAccess.MemoryUserDAO.constructor | server/src/main/java/dataAccess/MemoryUserDAO.java:15-17 | a new user table is empty |
| DataAccess.MemoryUserDAO.CreateUser | server/src/main/java/dataAccess/MemoryUserDAO.java:20-25 | stores a user under a new name; a name already present fails with AlreadyExists and changes nothing |
| DataAccess.MemoryUserDAO.GetUser | server/src/main/java/dataAccess/MemoryUserDAO.java:28-33 | returns the stored user unchanged, password and email included, or NotFound |
| DataAccess.MemoryUserDAO.Clear | server/src/main/java/dataAccess/MemoryUserDAO.java:36-38 | afterwards the table is empty, so every lookup fails |
| Services.Authenticate | server/src/main/java/service/GameService.java:22-26 | succeeds iff the token is non-null, non-empty and stored; a blank token is Unauthorized, an unknown one a NotFound data-access failure |
| Services.FirstFree | server/src/main/java/service/GameService.java:42-46 | the do-while loop settles on the first draw that is not a stored id |
| Services.SeatNames | server/src/main/java/service/GameService.java:80-83 | a colour names the white seat iff it is "white" in any case, the black seat iff "black" in any case, and nothing otherwise |
| Services.Claim | server/src/main/java/service/GameService.java:85-106 | a filled seat refuses the claim; otherwise only that seat gets the user, id, name, game and other seat kept |
| Services.SeatTakenOnce | server/src/main/java/service/GameService.java:88-98 | once a seat is filled every later claim of it is refused, and claiming the other seat keeps the first player |
| Services.GameService.constructor | server/src/main/java/service/GameService.java:14-17 | the service uses the given game and session tables |
| Services.GameService.ListGames | server/src/main/java/service/GameService.java:19-29 | fails as authentication does; otherwise returns exactly the stored games |
| Services.GameService.GameDAOAlreadyHas | server/src/main/java/service/GameService.java:58-65 | true iff the id is stored |
| Services.GameService.CreateGame | server/src/main/java/service/GameService.java:31-56 | checks the token, then the name (BadRequest), changing nothing on failure; otherwise stores a game with no players, no board and the name under the first free drawn id in 1..9999, and returns that id |
| Services.GameService.JoinGame | server/src/main/java/service/GameService.java:67-110 | checks the token, the game id and the colour in that order; a filled seat returns false; a free one is given to the caller and returns true; only that success changes the table |
| Services.UserService.constructor | server/src/main/java/service/UserService.java:16-19 | the service uses the given user and session tables |
| Services.UserService.RegisterUser | server/src/main/java/service/UserService.java:22-42 | blank name or password is BadRequest and an existing name UserAlreadyExists, storing nothing; otherwise the user is stored and a session with the user's name and the drawn token is stored, returned and authenticates |
| Connections.Added | server/src/main/java/server/ConnectionManager.java:10-13 | after adding, the game's set is the old set plus the session and other games are unaffected |
| Connections.Removed | server/src/main/java/server/ConnectionManager.java:15-23 | after removing, the game's set is the old set minus the session and other games are unaffected |
| Connections.KeepsNoEmptyGames | server/src/main/java/server/ConnectionManager.java:19-21 | both operations keep the invariant that no game is listed with an empty set |
| Connections.AddIdempotent | server/src/main/java/server/ConnectionManager.java:11-12 | adding the same session twice is adding it once |
| Connections.RemoveUnknownGame | server/src/main/java/server/ConnectionManager.java:16-17 | removing from an unlisted game changes nothing |
| Connections.RemoveUndoesAdd | server/src/main/java/server/ConnectionManager.java:10-23 | adding a new session and removing it again restores the table |
| Connections.ConnectionManager.constructor | server/src/main/java/server/ConnectionManager.java:8 | the registry starts empty |
| Connections.ConnectionManager.AddConnection | server/src/main/java/server/ConnectionManager.java:10-13 | the table becomes Added(old table), keeping no game empty |
| Connections.ConnectionManager.RemoveConnection | server/src/main/java/server/ConnectionManager.java:15-23 | the table becomes Removed(old table), keeping no game empty |

## Left out

- `toString` and `hashCode` of the value types and of the board are not modelled: they are formatting and hashing. Dafny's datatype equality stands in for the hash-based collections (`contains`) that use them.
- Getters and constructors of `ChessPosition`, `ChessMove` and `ChessPiece` are datatype fields and constructors. They return their arguments by construction.
- A `ChessMove` holding a `null` position is not modelled: positions are never absent.
- The base `moveCalculator.allPossibleMoves` (an empty list) is not modelled. `pieceMoves` reaches it only through the `default` branch of a switch that covers every piece kind.
- `ChessPiece.pieceMoves` names classes of a package not part of this model (`KingMoves`, `PawnMoves`, `MovesCalculator`). The king generator of `pieceMovesCalculator/kingMoves.java` and the promoting pawn generator of `pieceMovesCalculator/pawnMoves.java` stand in for them. The non-promoting `PieceMovesCalculator/PawnMoves.java` is modelled on its own.
- Castling, en passant, checkmate and stalemate detection exist nowhere in the code.
- Integers are unbounded. Every coordinate the code computes stays within 1..9999 or -1..10, so Java's 32-bit arithmetic never wraps here.
- Case conversion (`toUpperCase`, `toLowerCase`) is modelled on ASCII letters only. Strings are sequences of Dafny characters, not UTF-16 code units.
- `Math.random` and `UUID.randomUUID` are parameters: the sequence of drawn ids and the token string.
- Services.GameService.CreateGame: requires that some drawn id be free. The Java do-while loop keeps drawing and does not terminate when every id is taken.
- Services.UserService.RegisterUser: requires a 36-character token, the length of the UUID string the code draws. A token already in the session table is modelled: the user stays stored and the call fails with the data-access error.
- Game.ChessGame.ExecuteBoardMove: requires both squares on the board and, when the move promotes, a piece on the start square. Otherwise the Java code throws an array-index or null-pointer exception.
- Game.ChessGame.MakeMove: requires the start square on the board. The Java code throws an array-index exception otherwise; the end square needs no requirement, because a move that passes the checks is a generated one.
- Game.ChessGame.ValidMoves: requires the start square on the board, for the same reason.
- Boards.ChessBoard.ResetBoard: the eight back-rank assignments of each colour are one `forall` statement in PlaceBackRank. This writes the same cells with the same pieces in one step.
- The services are modelled over the in-memory tables only. The SQL tables, JDBC, BCrypt and the JSON form of a stored game are left out.
- A stored game's board is a value snapshot in the model, not a live `ChessGame` object.
- The exception classes are error values. Their class hierarchy is not part of this model, so an unknown token is the data-access failure `getAuth` raises, not Unauthorized.
- WebSocket sessions are compared by id. Sending messages, `broadcastToGame`, locking (`synchronized`) and the static field are left out.
- `GameplayUI` is modelled only for `parseAlgebraic` and the parsing steps of `parseAndSendMove`. Printing and sending the command are I/O.
