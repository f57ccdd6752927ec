/** The shared vocabulary of the rules engine: the two sides, the geometry of
    the 64-square board (row-major, index = row * 8 + column, index 0 in
    Black's corner), pieces, moves, and the immutable board and player
    snapshots that the board builder produces. */
module Engine {

  datatype Option<+T> = None | Some(value: T)

  datatype Result<+T, +E> = Success(value: T) | Failure(error: E)

  // ---------------------------------------------------------------- Alliance

  datatype Alliance = White | Black

  /** Step sign of a forward move: White advances towards index 0. */
  function Direction(a: Alliance): int {
    if a == White then -1 else 1
  }

  function OppositeDirection(a: Alliance): int {
    -Direction(a)
  }

  function Opposite(a: Alliance): Alliance {
    if a == White then Black else White
  }

  // -------------------------------------------------------------- BoardUtils

  const NUM_TILES: int := 64
  const NUM_TILES_PER_ROW: int := 8

  predicate IsValidTileCoordinate(c: int) {
    0 <= c < NUM_TILES
  }

  function Row(c: int): int {
    c / NUM_TILES_PER_ROW
  }

  function Column(c: int): int {
    c % NUM_TILES_PER_ROW
  }

  predicate FirstFile(c: int) {
    Column(c) == 0
  }

  predicate EighthFile(c: int) {
    Column(c) == 7
  }

  /** Indices 0..7: the row White promotes on. */
  predicate EighthRank(c: int) {
    0 <= c < 8
  }

  /** Indices 8..15: Black's pawn starting row. */
  predicate SeventhRank(c: int) {
    8 <= c < 16
  }

  /** Indices 48..55: White's pawn starting row. */
  predicate SecondRank(c: int) {
    48 <= c < 56
  }

  /** Indices 56..63: the row Black promotes on. */
  predicate FirstRank(c: int) {
    56 <= c < 64
  }

  predicate IsPawnPromotionSquare(a: Alliance, c: int) {
    if a == White then EighthRank(c) else FirstRank(c)
  }

  predicate IsPawnStartingSquare(a: Alliance, c: int) {
    if a == White then SecondRank(c) else SeventhRank(c)
  }

  // ------------------------------------------------------------------ Pieces

  datatype PieceType = Pawn | Knight | Bishop | Rook | Queen | King

  /** A piece never changes; moving it yields a new piece value. */
  datatype Piece = Piece(kind: PieceType, alliance: Alliance, position: int, firstMove: bool)

  // ------------------------------------------------------------------- Moves

  /** The move variants. A move carries by value what it needs (the moved
      piece, the destination, the captured piece); it does not hold the board
      it was generated against. A promotion decorates another pawn move. */
  datatype Move =
    | MajorMove(piece: Piece, destination: int)
    | AttackMove(piece: Piece, destination: int, attacked: Piece)
    | PawnMove(piece: Piece, destination: int)
    | PawnAttackMove(piece: Piece, destination: int, attacked: Piece)
    | PawnEnPassantAttack(piece: Piece, destination: int, attacked: Piece)
    | PawnJump(piece: Piece, destination: int)
    | CastleMove(piece: Piece, destination: int, rook: Piece, rookDestination: int)
    | PawnPromotion(decorated: Move)

  function Destination(m: Move): int {
    if m.PawnPromotion? then Destination(m.decorated) else m.destination
  }

  function MovedPiece(m: Move): Piece {
    if m.PawnPromotion? then MovedPiece(m.decorated) else m.piece
  }

  // ---------------------------------------------------------- Board, Player

  /** One side's view of a board: its king, its legal moves (standard moves
      followed by castle moves) and whether it stands in check. */
  datatype Player = Player(alliance: Alliance, king: Piece, legalMoves: seq<Move>, isInCheck: bool)

  /** An immutable position: 64 tiles, the active pieces of each side, the
      pawn that may be taken en passant, both players and the side to move. */
  datatype Board = Board(
    tiles: seq<Option<Piece>>,
    whitePieces: seq<Piece>,
    blackPieces: seq<Piece>,
    enPassantPawn: Option<Piece>,
    whitePlayer: Player,
    blackPlayer: Player,
    nextMoveMaker: Alliance)
  {
    /** The active pieces of side `a`. */
    function PiecesOf(a: Alliance): seq<Piece> {
      if a == White then whitePieces else blackPieces
    }

    function PlayerOf(a: Alliance): Player {
      if a == White then whitePlayer else blackPlayer
    }

    function CurrentPlayer(): Player {
      PlayerOf(nextMoveMaker)
    }

    /** The opponent of the side to move. */
    function OpponentPlayer(): Player {
      PlayerOf(Opposite(nextMoveMaker))
    }
  }
}
