# Chess rules core

A Dafny model of the rules core of a Java chess engine:

- **Building a position.** A mutable `Builder` collects placements keyed by square, the side to move and the pawn that may be taken en passant. `build` freezes the placements into 64 tiles and splits the occupants into White's and Black's active pieces. It generates each side's pseudo-legal moves against the new tiles, derives both players and picks the side to move.
- **The opening position** (`createStandardBoard`).
- **The fixed-width text dump** of the 64 tiles (`Board.toString`).
- **Pawn move generation.** This covers the single push, which promotes on the far row, and the double push from the starting row. It also covers the two diagonal captures with their file-edge guards, and en passant against the board's recorded pawn.
- **The player.** This covers:
  - the legal-move list: standard moves, then castle moves;
  - finding the king;
  - check detection;
  - the three-way outcome of attempting a move (illegal, leaves the player in check, done);
  - checkmate and stalemate, found by trying every legal move.

Squares are indices 0..63, row-major, with index 0 in Black's corner. White moves towards index 0 (direction -1) and starts its pawns on 48..55. Black moves towards 63 (direction +1) and starts its pawns on 8..15. The first file is `i % 8 == 0`, the eighth file is `i % 8 == 7`.

Files:

- `engine.dfy` (module `Engine`): the shared vocabulary. It holds sides, board geometry, pieces, the move variants, and the immutable `Board` and `Player` values.
- `pawn.dfy` (module `Pawns`): `Pawn.java`.
- `player.dfy` (module `Players`): `Player.java` and `MoveTransition.java`, which becomes the datatype `MoveTransition`.
- `board.dfy` (module `Boards`): `Board.java` and its `Builder`. `Builder` is a class whose setters update its fields.
- `board_text.dfy` (module `BoardText`): `Board.toString`.

The loops of the source are methods with loop invariants:
- `createGameBoard` fills an array;
- `calculateActivePieces`, `calculateLegalMoves` (board and pawn) and `calculateAttackOnTile` build lists;
- `establishKing` scans for the king;
- `hasNoEscapeMoves` returns at the first move that is done;
- `toString` appends to a string.

Most of these methods are proved equal to a recursive function, and the properties are proved about that function. Two state their result directly instead:
- `CreateGameBoard` states, tile by tile, that each tile holds the placement at its index or is empty;
- `HasNoEscapeMoves` is true iff no legal move's attempt is done.

A failed build is a `Result` value. The source throws in two places, and both become `Failure`:
- when a side has no King (`establishKing`), the error is `NoKing(side)`;
- when no side to move was set (`choosePlayer` on null), the error is `NoMoveMaker`.

The errors are reported in the order the constructor meets them: White's player, then Black's, then the side to move.

## Model

| member | source | states |
|---|---|---|
| Pawns.Diagonal | Chess/src/com/engine/pieces/Pawn.java:61-77 | every move of a diagonal is this pawn's and lands on the diagonal square; it is a capture, an en-passant capture or a promoted capture |
| Pawns.Candidate | Chess/src/com/engine/pieces/Pawn.java:40-98 | one offset yields at most one move. The move is this pawn's, lands on the board at position + direction × offset, and its kind fits the offset: a push for 8, a jump for 16, a diagonal kind for 7 and 9 |
| Pawns.MovesForShape | Chess/src/com/engine/pieces/Pawn.java:39-99 | the moves of a list of offsets number at most the offsets; all are this pawn's and land on the board |
| Pawns.CalculateLegalMoves | Chess/src/com/engine/pieces/Pawn.java:37-101 | the loop over offsets 7, 8, 9, 16, with the skip, push, jump and both diagonal branches in its body, returns exactly `PawnMoves` |
| Pawns.GetPromotionPiece | Chess/src/com/engine/pieces/Pawn.java:103-105 | the promotion piece is a Queen of the pawn's side on the pawn's square, with the first-move flag cleared |
| Pawns.PawnMovesUnfold | Chess/src/com/engine/pieces/Pawn.java:39-99 | the pawn's moves are those of offset 7, then 8, then 9, then 16, in that order |
| Pawns.PawnMovesMembership | Chess/src/com/engine/pieces/Pawn.java:39-99 | a move is generated exactly when one of the four offsets yields it |
| Pawns.PawnMovesGeometry | Chess/src/com/engine/pieces/Pawn.java:39-99 | at most 4 moves. Each moves this pawn onto 0..63, one row forward (two for the jump), and shifts at most one file, so nothing wraps around an edge |
| Pawns.SinglePushRule | Chess/src/com/engine/pieces/Pawn.java:44-49 | a plain push is generated iff the square ahead is on the board, empty and not on the far row; a promoted push iff the same holds on the far row |
| Pawns.PawnJumpRule | Chess/src/com/engine/pieces/Pawn.java:50-57 | a jump is generated iff the first-move flag is set, the pawn is on its starting row and both squares ahead are empty |
| Pawns.CaptureRule | Chess/src/com/engine/pieces/Pawn.java:58-89 | a capture is generated iff its target is an opposing occupant of a diagonal square allowed by the file guards; it is promoted iff that square is on the far row |
| Pawns.EnPassantRule | Chess/src/com/engine/pieces/Pawn.java:70-96 | en passant is generated iff the diagonal is allowed and empty and the board's en-passant pawn is an opponent. That pawn must stand at position + opposite direction for offset 7, or position − opposite direction for offset 9 |
| Pawns.EnPassantVictimBeside | Chess/src/com/engine/pieces/Pawn.java:70-96 | the pawn taken en passant stands on the capturer's row and the destination's file |
| Pawns.PromotionWrapping | Chess/src/com/engine/pieces/Pawn.java:44-97 | a generated move is a promotion iff it lands on the far row and is not en passant; only pushes and captures are ever wrapped |
| Pawns.MovePiece | Chess/src/com/engine/pieces/Pawn.java:108-110 | the moved pawn is a Pawn on the move's destination, of the moved piece's side, with the first-move flag set (the two-argument constructor) |
| Pawns.MovedPawnCannotJumpAgain | Chess/src/com/engine/pieces/Pawn.java:108-110 | a moved pawn is rebuilt on the destination, on the mover's side, with the first-move flag still set. Unless it started on its own back row it can never jump again |
| Players.AttacksOn | Chess/src/com/engine/player/Player.java:30-38 | the result contains exactly the moves whose destination is the square, and no more moves than the input |
| Players.AttacksOnAppend | Chess/src/com/engine/player/Player.java:30-38 | filtering preserves order: the attacks on `a + b` are the attacks on `a` followed by those on `b` |
| Players.CalculateAttackOnTile | Chess/src/com/engine/player/Player.java:30-38 | the filtering loop returns exactly `AttacksOn` |
| Players.FirstKing | Chess/src/com/engine/player/Player.java:48-55 | None iff no active piece is a King; otherwise the King at the smallest index holding one |
| Players.EstablishKing | Chess/src/com/engine/player/Player.java:48-55 | the scanning loop with its early return computes exactly `FirstKing` |
| Players.PlayerFor | Chess/src/com/engine/player/Player.java:21-28 | no player iff no King. Otherwise the player holds the first King and the standard moves followed by the castle moves, and is in check iff some opponent move lands on the King's square |
| Players.NewPlayer | Chess/src/com/engine/player/Player.java:21-28 | the constructor's steps (king, legal moves, check flag) compute exactly `PlayerFor` |
| Players.MakeMove | Chess/src/com/engine/player/Player.java:93-104 | the status is IllegalMove iff the move is not in the side's legal moves, LeavesPlayerInCheck iff it is and the executed board exposes the mover's king, and Done otherwise. A rejected move keeps the original board; a done move carries the executed board |
| Players.IllegalMoveIsNeverExecuted | Chess/src/com/engine/player/Player.java:94-96 | for an illegal move the outcome does not depend on the executor at all |
| Players.HasNoEscapeMoves | Chess/src/com/engine/player/Player.java:73-81 | the loop with early return yields true iff no legal move's attempt is Done (true for an empty list) |
| Players.IsInCheckMate | Chess/src/com/engine/player/Player.java:65-67 | checkmate is being in check with no escape move |
| Players.IsInStaleMate | Chess/src/com/engine/player/Player.java:69-71 | stalemate is not being in check with no escape move |
| Players.MateClassification | Chess/src/com/engine/player/Player.java:65-81 | no escape means every legal move leaves the king in check, and an empty move list has no escape. Checkmate and stalemate never both hold, and without escape exactly one does |
| Boards.CreateGameBoard | Chess/src/com/engine/board/Board.java:62-68 | exactly 64 tiles; tile i holds the piece placed at key i, or is empty |
| Boards.GameBoardPlaced | Chess/src/com/engine/board/Board.java:62-68 | with placements keyed by position, every occupant of the tiles stands on its own index |
| Boards.ActivePieces | Chess/src/com/engine/board/Board.java:44-55 | a piece is active for a side iff it occupies some tile and belongs to that side |
| Boards.CalculateActivePieces | Chess/src/com/engine/board/Board.java:44-55 | the scanning loop returns exactly `ActivePieces` |
| Boards.ActivePiecesPartition | Chess/src/com/engine/board/Board.java:44-55 | White's and Black's lists together are exactly the occupants as a multiset, and their lengths add up to the number of occupants |
| Boards.ActivePiecesOnBoard | Chess/src/com/engine/board/Board.java:44-55 | on a board whose occupants stand on their own squares, every active piece's position is a tile index |
| Boards.ActivePiecesAscending | Chess/src/com/engine/board/Board.java:44-55 | on such a board each side's list is in strictly ascending square order |
| Boards.SideMoves | Chess/src/com/engine/board/Board.java:152-158 | a move is in a side's list iff some piece of that side generates it (the pawn rules for pawns) |
| Boards.CalculateLegalMoves | Chess/src/com/engine/board/Board.java:152-158 | the loop appending each piece's moves in piece order returns exactly `SideMoves` |
| Boards.KingPresence | Chess/src/com/engine/board/Board.java:44-55 | a side's active pieces contain a King iff a tile holds a King of that side |
| Boards.FromBuilder | Chess/src/com/engine/board/Board.java:26-36 | a build succeeds iff both sides have a King on the tiles and a side to move is set. A failure names the first missing item: White's King, Black's King, the side to move. A success has the tiles of the placements (each occupant on its own square), the recorded side to move and en-passant pawn, and each side's active pieces. Its players are stated by `BuiltPlayer` |
| Boards.Builder.constructor | Chess/src/com/engine/board/Board.java:186-188 | a new builder has no placements, no side to move and no en-passant pawn |
| Boards.Builder.SetPiece | Chess/src/com/engine/board/Board.java:190-193 | the placement at the piece's own position is set or replaced; nothing else changes |
| Boards.Builder.SetMoveMaker | Chess/src/com/engine/board/Board.java:195-198 | records the side to move; nothing else changes |
| Boards.Builder.SetEnPassantPawn | Chess/src/com/engine/board/Board.java:204-206 | records the en-passant pawn; nothing else changes |
| Boards.Builder.Build | Chess/src/com/engine/board/Board.java:26-36 | the constructor's steps, run with the imperative helpers, produce exactly `FromBuilder` of the builder's state |
| Boards.DerivedPlayer | Chess/src/com/engine/player/Player.java:21-28 | a derived player belongs to its side, has a King of its own on the tiles, has as legal moves its side's standard moves followed by its castle moves, and is in check iff some opposing piece generates a move onto its King |
| Boards.AttacksFromSide | Chess/src/com/engine/board/Board.java:152-158 | some move of a side lands on a square iff some piece of that side generates a move onto it |
| Boards.BuiltPlayer | Chess/src/com/engine/board/Board.java:31-34 | on a built board each side's player belongs to that side and has a King of that side on the tiles. Its legal moves are its side's standard moves (each active piece's moves in turn) followed by its castle moves, computed from its own and the opposing standard moves. It is in check iff some opposing active piece generates a move onto that King |
| Boards.BuiltKings | Chess/src/com/engine/board/Board.java:28-34 | each side's King on a built board is the first King among that side's active pieces |
| Boards.AllLegalMoves | Chess/src/com/engine/board/Board.java:160-163 | all legal moves are White's followed by Black's: both as prefix and suffix, in length, and in membership |
| Boards.BackRankKing | Chess/src/com/engine/board/Board.java:79-86 | on the back rank only the fifth square holds the King |
| Boards.UniqueKing | Chess/src/com/engine/player/Player.java:48-55 | when exactly one tile holds a King of a side, that is the King the side establishes |
| Boards.StandardPieces | Chess/src/com/engine/board/Board.java:76-115 | every opening piece stands on its own tile with its first-move flag set. The only Kings are Black's on 4 and White's on 60 |
| Boards.StandardConfigAt | Chess/src/com/engine/board/Board.java:79-111 | tile i of the placed opening pieces is the opening occupant of i: rows 0–1 Black's, rows 6–7 White's, rows 2–5 empty |
| Boards.StandardConfigTiles | Chess/src/com/engine/board/Board.java:76-115 | the opening placements are keyed by position and give exactly the opening tiles |
| Boards.OpeningTilesBuild | Chess/src/com/engine/board/Board.java:76-115 | placements giving the opening tiles build successfully with White to move, with the Kings on 60 and 4 |
| Boards.StandardBuild | Chess/src/com/engine/board/Board.java:76-115 | the opening placements build successfully with White to move, with the Kings on 60 and 4 |
| Boards.CreateStandardBoard | Chess/src/com/engine/board/Board.java:76-115 | the 32 placements and White to move build the board. Its tiles are the opening tiles (16..47 empty); White is to move and is the current player; there is no en-passant pawn; the Kings are on 60 and 4 |
| Boards.StandardPawnOpening | Chess/src/com/engine/pieces/Pawn.java:44-57 | in the opening position every pawn has exactly its single push and its double push |
| BoardText.Pad3 | Chess/src/com/engine/board/Board.java:170 | the padded text has length 3, or the text's own length when longer |
| BoardText.Pad3Shape | Chess/src/com/engine/board/Board.java:170 | the padded text ends with the text itself, preceded only by spaces |
| BoardText.ToString | Chess/src/com/engine/board/Board.java:166-176 | the tile-by-tile loop yields the eight lines of the board in row order. Each line is its row's eight padded tile texts followed by a line break |
| BoardText.AppendTile | Chess/src/com/engine/board/Board.java:169-173 | appending one tile extends the current row. A line break follows exactly when the tile closes its row, and then the next tile starts a new row |
| BoardText.RunLength | Chess/src/com/engine/board/Board.java:170 | n padded tile texts are at least 3n characters long |
| BoardText.LineShape | Chess/src/com/engine/board/Board.java:168-174 | every line is at least 25 characters long (8 cells of width at least 3, then the break) and ends with a line break |
| BoardText.RunHasNoBreak | Chess/src/com/engine/board/Board.java:169-170 | tile texts without line breaks give a row run without line breaks |
| BoardText.LineBreakOnlyAtEnd | Chess/src/com/engine/board/Board.java:168-174 | when tile texts hold no line break, a line's only break is its last character |
| BoardText.TextEndsWithBreak | Chess/src/com/engine/board/Board.java:166-176 | a text of k lines is at least 25k characters long and ends with a line break |

## Left out

- **Collaborators whose source is not part of this model are parameters:**
  - the move generators of the knight, bishop, rook, queen and king (`Generator`);
  - the castle computation of the two player subclasses (`CastleGenerator`);
  - `Move.execute` (`Executor`);
  - `Tile.toString` (`TileText`).

  Nothing is proved about what they do. Promotion's replacement of the pawn and the clearing of first-move flags happen inside `execute`, so they are not modelled either.
- **Moves** carry their data by value and do not hold the board they were generated against. Move equality is datatype equality, and so is the equality behind `contains` and the side chosen by `choosePlayer`; object identity is not modelled.
- **Guava's immutable list wrappers** become Dafny sequences.
- **A failed rebuild inside `execute`.** `Executor` is total, but `Move.execute` rebuilds the board through `Builder.build`. That throws when a side has lost its King, for example after a pseudo-legal king capture on an artificial position. The model cannot represent that failure.
- **Java `int` overflow** is not modelled: every position and offset stays within -16..79.
- **The `WhitePlayer` and `BlackPlayer` constructors** are not part of this model. They are taken to pass (own standard moves, opponent's standard moves) to `Player`, and to take their active pieces from the board's list for their side.
- **The non-pawn pieces' two-argument constructors** in `createStandardBoard` are taken to set the first-move flag, as `Pawn`'s does.
- **Builder setters** do not return the builder for chaining. Only their effect on its fields is modelled.
- **Two failures become error values.** A board without a King for some side, or without a side to move, is a `BuildError` instead of an exception or a null-pointer failure.
- **The getters** of `Board` and `Player` are fields of the datatypes.
- **Pawns.MovePiece** leaves the first-move flag set, as the two-argument `Pawn` constructor does. In chess a moved piece loses its first-move status; the model follows the code. `Pawns.MovedPawnCannotJumpAgain` shows the flag does not matter for the jump, unless the pawn started on its own back row.
- **En passant onto the far row** is not wrapped as a promotion, as in the code (see `Pawns.PromotionWrapping`).
- **BoardText.ToString** does not count the line breaks. Instead the output is the eight lines in order, each closed by a break (`ToString`, `LineShape`, `TextEndsWithBreak`). When tile texts hold no line break, that is the only break of each line (`LineBreakOnlyAtEnd`). The rendering of each tile is a parameter.
- **The text form** writes the `NUM_TILES_PER_ROW` test as the literal 8.
