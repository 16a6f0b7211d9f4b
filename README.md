# Simplified chess rules engine, modelled in Dafny

This project models `main.cpp`, a small console chess game. The game keeps an
8×8 grid of one-character piece symbols: `.` is an empty square, upper case is
White and lower case is Black. It reads moves typed as `e2 e4`. It checks
each move against simplified chess rules: no castling, no en passant, no
promotion and no check. It applies legal moves and passes the turn until one
king has been captured. The board can also be saved to a text file and loaded
back.

The model follows the program's two classes.

- `Pieces` (pure). The colour predicates `isWhitePiece`, `isBlackPiece`,
  `isCurrentPlayerPiece` and `isEnemyPiece`, on the symbol alone.
- `Grids` (pure). The board as a value (`Grid`, 8 rows of 8 symbols), plus:
  - the bounds predicate;
  - single-square update (`Set`) and the relocation a move performs (`Moved`);
  - the starting layout;
  - the walk of `isPathClear` (`PathClear`);
  - an independent geometric statement of "strictly between" (`StrictlyBetween`).
- `BoardText` (pure). The save format: each row's 8 symbols followed by a line
  break. Reading back is 8 calls of `std::getline` into one string:
  - `GetLine` steps a `Reader` (the text left, whether the stream is still good,
    and the string);
  - a call on a stream that has reached the end of the text leaves the string as
    it was;
  - `CharAt` gives `line[c]`, with '\0' at `line[size()]`;
  - `Decode` is the board a load builds.
- `Board` (imperative). `class ChessBoard` holds the grid as an
  `array2<char>`. Its methods `SetupBoard`, `SetPiece`, `IsPathClear`,
  `MovePiece`, `SaveText` and `LoadText` update or read the array with the
  source's loops. Each is proved against the pure definitions through
  `Grid()`, the value the array holds.
- `MoveText` (pure). `parseMove`, and a printer `FormatMove` that serves as
  its inverse.
- `Rules` (pure). The six per-piece rules and `validateMove`.
- `Game` (mixed).
  - `Turn` and `Run` are the pure step rule of the loop in `play`: blank line,
    `quit`, `save`, `load`, or a move request.
  - `class ChessGame` holds the board, the turn flag and the save file's
    contents. Its methods `CheckKingCaptured`, `PlayMove`, `SaveGame`,
    `LoadGame`, `TakeTurn` and `Play` perform the same steps in place.
    Each is proved equal to the pure step.

Some behaviours of `main.cpp` that the model keeps as they are:

- `validateKingMove` alone accepts a move onto the king's own square.
  `validateMove` refuses it at main.cpp:361, because the destination holds the
  mover's own piece (`Rules.NullMoveRefused`).
- A symbol whose upper-cased letter names no kind falls to `default: return
  false` at main.cpp:383-384, so the move is refused.
- A load copies the first 8 characters of each of the 8 strings read
  (main.cpp:180-189) and ignores the rest of each line and every line after the
  eighth.
- A line of exactly 7 characters loads '\0' into column 7, because
  `line[7]` on a 7-character string is the terminating '\0'
  (`BoardText.ShortLines`).
- A file whose last line has no line break ends the stream early. Each later
  `getline` fails without touching the string, so the remaining rows repeat
  that last line (`BoardText.OneLineLoadsEverywhere`).

## Model

| member | source | states |
|---|---|---|
| Pieces.IsEmpty | main.cpp:22-25 | A square is empty when its symbol is `.`. |
| Pieces.IsWhitePiece | main.cpp:224-227 | A non-empty symbol that is an upper-case letter. |
| Pieces.IsBlackPiece | main.cpp:229-232 | A non-empty symbol that is a lower-case letter. |
| Pieces.IsCurrentPlayerPiece | main.cpp:234-239 | A White piece on White's turn, a Black piece on Black's turn. |
| Pieces.IsEnemyPiece | main.cpp:241-248 | Never an empty square. Otherwise a Black piece on White's turn and a White piece on Black's turn. |
| Pieces.ToUpper | main.cpp:367 | C-locale `toupper`: a lower-case letter becomes its upper-case letter, and every other symbol is unchanged. |
| Pieces.SidesAreDisjoint | main.cpp:224-248 | No symbol is both White and Black. The enemy of the side to move is exactly the side that moves next. No symbol is both the mover's and the enemy's. A symbol that is not a letter belongs to neither side. |
| Pieces.ToUpperOfPieceLetters | main.cpp:367 | Upper-casing maps each Black piece letter to White's letter for the same kind and leaves upper-case letters unchanged, so dispatch depends only on the kind. |
| Grids.IsValidPos | main.cpp:104-107 | Both indices lie in 0..7. |
| Grids.Set | main.cpp:114-117 | Square (r, c) holds the new symbol and every other square is unchanged. |
| Grids.Moved | main.cpp:140-146 | The board after `movePiece`: the origin's symbol is written to the destination, then the origin is set to `.`. |
| Grids.MoveFrame | main.cpp:140-146 | For distinct squares, the destination receives the origin's symbol and the origin becomes `.`. Every other square is unchanged. A move onto its own origin leaves that square empty. |
| Grids.InitialGrid | main.cpp:40-83 | The starting position: Black's back rank and pawns on rows 0 and 1, White's pawns and back rank on rows 6 and 7, rows 2 to 5 empty. |
| Grids.InitialLayout | main.cpp:40-83 | A board with the two back ranks, the two pawn rows and empty rows 2 to 5 of `setupBoard` is the starting position. |
| Grids.PathClear | main.cpp:119-138 | Every square the walk visits after the origin and before the destination is empty. The walk advances one unit step per square on each axis. |
| Grids.WalkStaysBetween | main.cpp:121-135 | Every square the path walk visits before the destination lies strictly between the ends. So the walk never indexes off the board and never reads either end. |
| Grids.BetweenIsOnWalk | main.cpp:121-135 | Every square strictly between two aligned squares is visited by the walk. |
| Grids.PathClearIff | main.cpp:119-138 | For aligned on-board squares, the walk reports a clear path exactly when every square strictly between them is empty. This holds vacuously for adjacent squares. |
| Grids.PathClearIgnoresEnds | main.cpp:119-138 | Whatever stands on the origin or the destination, the path verdict is the same. |
| Grids.BlockerClosesPath | main.cpp:127-135 | A piece put strictly between the ends closes the path. Removing it again restores the board on which the path was clear. |
| Grids.OffPathSquareIrrelevant | main.cpp:127-135 | A square that is not strictly between the ends does not affect the path verdict. |
| BoardText.SplitLine | main.cpp:182 | The characters up to the first line break, the text after it, and whether there was one. The line never holds a line break, and without a line break it is the whole text. |
| BoardText.GetLine | main.cpp:182 | One `getline`. On a stream that is no longer good it changes nothing, so the string keeps the last line read. Otherwise the string becomes the next line and the stream stays good only if a line break ended it. |
| BoardText.Reads | main.cpp:179-182 | The stream after k calls of `getline`, starting from the whole text and an empty string. The string never holds a line break. |
| BoardText.LineAt | main.cpp:180-182 | The string after the k-th call of `getline`. It holds no line break. |
| BoardText.CharAt | main.cpp:185 | `line[c]` for c up to the string's length: the c-th character, or '\0' at the length. |
| BoardText.Decode | main.cpp:180-189 | The board a load builds: square (r, c) is `line[c]` of the r-th string read. |
| BoardText.SplitLineOfRow | main.cpp:182 | A line with no line break in it, followed by a line break, is read back whole. The rest of the text is left for the next read. |
| BoardText.SplitLastLine | main.cpp:182 | A text with no line break is read as one last line, and the end of the text is reached. |
| BoardText.ReadsOfEncoding | main.cpp:180-182 | After k reads of a saved text, the stream is still good, what remains is the text of rows k onwards, and the string holds row k − 1. |
| BoardText.ReadsStuck | main.cpp:182 | Once the stream is no longer good, later reads change nothing. |
| BoardText.LineOfEncoding | main.cpp:180-182 | The k-th line read from a saved text is the k-th row. |
| BoardText.Encode | main.cpp:157-164 | The text a save writes: each row's 8 symbols followed by a line break, rows in order. |
| BoardText.IsLoadable | main.cpp:183-187 | Every one of the 8 strings read has at least 7 characters, so `line[c]` for c < 8 never indexes past `line[size()]`. |
| BoardText.EncodeRowsAppend | main.cpp:157-164 | Writing one more row appends that row's symbols and a line break. |
| BoardText.EncodeDecode | main.cpp:157-189 | Saving a board in which no square holds a line break gives a loadable text. Loading that text gives back the same symbol on every square. |
| BoardText.DecodeEncodeDecode | main.cpp:180-189 | A loaded board holds no line break. So saving it and loading again gives back the loaded board. |
| BoardText.InitialNoNewline | main.cpp:40-83 | The starting position holds no line break. |
| BoardText.MovedNoNewline | main.cpp:140-146 | A move adds no line break to the board. |
| BoardText.OneLineLoadsEverywhere | main.cpp:180-189 | A file of one 8-character line with no line break can be loaded, and every row receives that line. |
| BoardText.BackRankFileExample | main.cpp:180-189 | The file "rnbqkbnr" loads as eight rows of `rnbqkbnr`. |
| BoardText.ShortLines | main.cpp:183-187 | A 7-character line loads with '\0' in column 7. A 6-character line makes the text one a load cannot read. |
| Board.ChessBoard.constructor | main.cpp:34-38 | A new board holds the starting position. |
| Board.ChessBoard.SetupBoard | main.cpp:40-83 | Afterwards the array holds the starting position, whatever it held before. |
| Board.ChessBoard.PlaceBackRanks | main.cpp:58-82 | The sixteen back-rank squares hold rook, knight, bishop, queen, king, bishop, knight, rook for each side. Rows 1 to 6 are unchanged. |
| Board.ChessBoard.GetPiece | main.cpp:109-112 | Returns the symbol on the given on-board square. |
| Board.ChessBoard.SetPiece | main.cpp:114-117 | The new board is the old one with that single square overwritten. |
| Board.ChessBoard.IsPathClear | main.cpp:119-138 | The stepping loop's answer equals `PathClear` on the current board, for aligned on-board squares. |
| Board.ChessBoard.MovePiece | main.cpp:140-146 | Always reports success. The new board is `Moved` of the old one. |
| Board.ChessBoard.SaveText | main.cpp:157-164 | The text written is each row's 8 symbols followed by a line break, rows in order. |
| Board.ChessBoard.LoadText | main.cpp:179-189 | For a text on which every string read has at least 7 characters, the loops leave the board equal to `Decode` of the text: `line[c]` of the r-th string read, for each r and c. |
| MoveText.ParseMove | main.cpp:250-276 | On success, the input has 5 characters with a space in the middle. All four indices are on the board. Each column is file − 'a' and each row is 8 − rank. |
| MoveText.ParseMoveIff | main.cpp:250-276 | The parser accepts a text and returns move m exactly when m joins on-board squares and the text is m written as `[a-h][1-8] [a-h][1-8]`. |
| MoveText.ParseFormatRoundTrip | main.cpp:250-276 | Parsing the text of any on-board move gives back that move. |
| MoveText.ParseExample | main.cpp:250-276 | "e2 e4" is row 6, column 4 to row 4, column 4. "e2e4", "i2 e4" and "e9 e4" are refused. |
| Rules.ValidatePawnMove | main.cpp:278-304 | The three pawn cases, tested in the source's order. `isWhite` gives the direction, and the capture test uses the side to move. |
| Rules.ValidateRookMove | main.cpp:306-311 | Same row or same column, and a clear path. |
| Rules.ValidateBishopMove | main.cpp:313-318 | Equal row and column distances, and a clear path. |
| Rules.ValidateQueenMove | main.cpp:320-325 | Rook-legal or bishop-legal. |
| Rules.ValidateKnightMove | main.cpp:327-332 | Distances (2, 1) or (1, 2). The board is not consulted. |
| Rules.ValidateKingMove | main.cpp:334-339 | Both distances at most 1. |
| Rules.ValidateMove | main.cpp:341-365 | An accepted move has both squares on the board and a piece of the side to move on the origin. The destination holds no piece of that side. |
| Rules.ValidateMoveDispatch | main.cpp:367-385 | Once the shared checks pass, the verdict is that of the rule for the origin's upper-cased letter. An unknown letter is refused. |
| Rules.NullMoveRefused | main.cpp:334-365 | The king rule alone accepts a move onto the origin, but `validateMove` refuses every such move. |
| Rules.PawnMoves | main.cpp:278-304 | A pawn move is legal exactly when it is one of three moves: one step forward onto an empty square; two steps from the home row onto an empty square over an empty square; or one step diagonally forward onto an enemy piece. |
| Rules.PawnAdvances | main.cpp:278-304 | A legal pawn move goes forward one row, or two rows in its own file from the home row only. |
| Rules.KnightMoves | main.cpp:327-332 | The knight rule accepts exactly the eight knight offsets. |
| Rules.KingMoves | main.cpp:334-339 | The king rule accepts exactly the 3×3 block centred on the origin. |
| Rules.LeapersIgnoreOtherSquares | main.cpp:327-339 | For a knight or a king, two boards that agree on origin and destination give the same verdict. |
| Rules.SlidersAreBlocked | main.cpp:306-325 | A piece strictly between the ends makes a rook, bishop or queen move illegal. Removing it restores the board on which the move was legal. |
| Rules.SlidersIgnoreOffPathSquares | main.cpp:306-325 | A square that is not strictly between the ends does not affect a rook's, bishop's or queen's verdict. |
| Rules.StartingPositionExamples | main.cpp:341-386 | In the starting position, e2-e4 is legal, e1-e2 is illegal (own pawn) and a1-a8 is illegal (blocked). |
| Game.Terminal | main.cpp:388-417 | No 'K' on the board means Black wins. Otherwise no 'k' means White wins. Otherwise the game goes on. |
| Game.InitialOngoing | main.cpp:388-417 | Both kings are on the starting board, so the game is on. |
| Game.CommandOf | main.cpp:456-477 | A line is taken for a move request exactly when it is none of "", "quit", "save" and "load". |
| Game.MoveTurn | main.cpp:479-506 | A move request: refused as bad format or as illegal with the state unchanged; otherwise the capture is noted, the board becomes `Moved`, and the turn passes if both kings remain. |
| Game.LoadTurn | main.cpp:471-475 | `load`: with no save file, nothing changes. A loadable file replaces the board with `Decode` of it. Any other file is refused. |
| Game.Turn | main.cpp:453-506 | One pass of the loop: a blank line, `quit`, `save` (the file becomes `Encode` of the board), `load`, or a move request. |
| Game.Run | main.cpp:447-507 | The turns for a sequence of lines, stopping after `quit` or after a move that leaves a king missing. |
| Game.NewGame | main.cpp:205-207 | The game starts from the starting position, with White to move and both kings on the board. |
| Game.MoveTurnRules | main.cpp:479-506 | A parse failure is reported as bad format. A parse or validation failure leaves the game unchanged. A legal move gives the board `Moved`, reports the outcome of the king scan and passes the turn exactly when the game goes on. It reports a capture exactly when the destination held an enemy piece. |
| Game.CommandRules | main.cpp:456-475 | A blank line and `quit` change nothing. `save` only replaces the save file with the board's text. `load` replaces the board with the decoded file when a readable file exists, and otherwise changes nothing. No command passes the turn. |
| Game.SaveThenLoad | main.cpp:465-475 | Saving then loading gives back exactly the saved game, whenever no square holds a line break. |
| Game.MoveCreatesNothing | main.cpp:142-144 | Every symbol other than `.` on the board after a move was already on the board before it. |
| Game.FinishedStaysFinished | main.cpp:498-504 | Once a king is missing, no move brings it back. |
| Game.TurnKeepsNoNewline | main.cpp:456-506 | A turn of any kind keeps line breaks off the board. |
| Game.RunKeepsNoNewline | main.cpp:447-507 | Any sequence of turns keeps line breaks off the board. |
| Game.ReachableGamesReload | main.cpp:443-508 | From any game reachable by typed lines, saving and then loading gives back the same game. |
| Game.OpeningExample | main.cpp:479-506 | Typing "e2 e4" at the start captures nothing, empties e2, puts a White pawn on e4 and hands the turn to Black. |
| Game.ChessGame.constructor | main.cpp:205-207 | A new game is the starting position with White to move. |
| Game.ChessGame.CheckKingCaptured | main.cpp:388-417 | The 64-square scan gives `Terminal` of the board. No 'K' means Black wins; otherwise no 'k' means White wins. It reports a capture exactly when the outcome is not ongoing. |
| Game.ChessGame.PlayMove | main.cpp:477-506 | The new board, turn and result are those of `MoveTurn` on the old state. |
| Game.ChessGame.SaveGame | main.cpp:465-469 | The save file becomes the board's text. Nothing else changes. |
| Game.ChessGame.LoadGame | main.cpp:471-475 | The new state and result are those of the `load` step on the old state. |
| Game.ChessGame.TakeTurn | main.cpp:453-506 | The new state and result are those of `Turn` on the old state and the typed line. |
| Game.ChessGame.Play | main.cpp:447-507 | The final state is `Run` of the initial state over the typed lines. The loop stops after `quit` or a king capture. |

## Left out

- `display`, `printInstructions` and every console message, including the "Captured X!" text built from the `pieceNames` map. These are output only. The capture itself is reported in `Played(captured, …)`.
- Console input and `main`: the lines typed are a parameter (`inputs`). Running out of input ends the loop in the model.
- The file `chess_save.txt` is modelled as one optional text held by the game (`saved`). A file that cannot be opened for writing is not modelled: a save always succeeds. A file that cannot be opened for reading is the `None` case.
- Game.LoadTurn: a save file on which one of the 8 strings read is shorter than 7 characters is refused (`UnreadableSave`) and the board is left as it was. On such a file `line[c]` at main.cpp:185 indexes past `line[size()]`, which is undefined behaviour in C++, so there is no defined behaviour to model. Board.ChessBoard.LoadText requires `IsLoadable` for the same reason.
- The `Piece::isWhite` field is not modelled, including the value `isupper` gives it on load. No rule ever reads it: colour is always taken from the case of the symbol.
- `isupper`, `islower` and `toupper` are modelled as in the "C" locale, on the ASCII letters only.
- The save/load round trip holds only for boards with no line-break symbol. Every board reachable from the start has none (`Game.RunKeepsNoNewline`), but a board built directly with `SetPiece` could hold one.
