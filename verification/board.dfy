/** Building a board: a mutable placement map is frozen into 64 tiles, the
    occupants are split by side, each side's standard moves are generated
    against the new tiles, both players are derived, and the side to move is
    chosen. Also the standard starting position. */
module Boards {
  import opened Engine
  import Pawns
  import opened Players

  /** Move generation of the pieces other than the pawn (their rules are not
      part of this model). */
  type Generator = (Piece, seq<Option<Piece>>) -> seq<Move>

  /** Why a board cannot be built: a side without a King, or no side to move. */
  datatype BuildError = NoKing(side: Alliance) | NoMoveMaker

  /** Every placement is keyed by the position of the piece placed. */
  ghost predicate KeyedByPosition(config: map<int, Piece>) {
    forall k :: k in config ==> config[k].position == k
  }

  /** Every occupant stands on the tile whose index is its own position. */
  ghost predicate PlacedOnOwnSquare(tiles: seq<Option<Piece>>) {
    forall i :: 0 <= i < |tiles| && tiles[i].Some? ==> tiles[i].value.position == i
  }

  /** Some tile holds a King of side `a`. */
  ghost predicate HasKing(tiles: seq<Option<Piece>>, a: Alliance) {
    exists i :: 0 <= i < |tiles| && tiles[i].Some? && tiles[i].value.kind == King && tiles[i].value.alliance == a
  }

  // ------------------------------------------------------------- the tiles

  function GameBoard(config: map<int, Piece>): seq<Option<Piece>> {
    seq(NUM_TILES, i => if i in config then Some(config[i]) else None)
  }

  /** Fills the 64 tiles: tile i holds the piece placed at key i, if any. */
  method CreateGameBoard(config: map<int, Piece>) returns (tiles: seq<Option<Piece>>)
    ensures |tiles| == NUM_TILES
    ensures forall i :: 0 <= i < NUM_TILES ==> tiles[i] == (if i in config then Some(config[i]) else None)
  {
    var gameBoard := new Option<Piece>[NUM_TILES];
    for i := 0 to NUM_TILES
      invariant forall k :: 0 <= k < i ==> gameBoard[k] == (if k in config then Some(config[k]) else None)
    {
      gameBoard[i] := if i in config then Some(config[i]) else None;
    }
    tiles := gameBoard[..];
  }

  lemma GameBoardPlaced(config: map<int, Piece>)
    requires KeyedByPosition(config)
    ensures |GameBoard(config)| == NUM_TILES && PlacedOnOwnSquare(GameBoard(config))
  {
  }

  // ------------------------------------------------------- active pieces

  function Occupant(t: Option<Piece>): seq<Piece> {
    if t.Some? then [t.value] else []
  }

  /** All occupants, in tile order. */
  function Occupants(tiles: seq<Option<Piece>>): seq<Piece> {
    if tiles == [] then []
    else Occupants(tiles[..|tiles| - 1]) + Occupant(tiles[|tiles| - 1])
  }

  function AllianceOccupant(t: Option<Piece>, a: Alliance): seq<Piece> {
    if t.Some? && t.value.alliance == a then [t.value] else []
  }

  /** The occupants of side `a`, in tile order. */
  function ActivePieces(tiles: seq<Option<Piece>>, a: Alliance): (r: seq<Piece>)
    ensures forall p :: p in r <==> Some(p) in tiles && p.alliance == a
  {
    if tiles == [] then []
    else
      assert tiles == tiles[..|tiles| - 1] + [tiles[|tiles| - 1]];
      ActivePieces(tiles[..|tiles| - 1], a) + AllianceOccupant(tiles[|tiles| - 1], a)
  }

  method CalculateActivePieces(gameBoard: seq<Option<Piece>>, alliance: Alliance) returns (activePieces: seq<Piece>)
    ensures activePieces == ActivePieces(gameBoard, alliance)
  {
    activePieces := [];
    for i := 0 to |gameBoard|
      invariant activePieces == ActivePieces(gameBoard[..i], alliance)
    {
      assert gameBoard[..i + 1][..i] == gameBoard[..i];
      if gameBoard[i].Some? {
        var piece := gameBoard[i].value;
        if piece.alliance == alliance {
          activePieces := activePieces + [piece];
        }
      }
    }
    assert gameBoard[..|gameBoard|] == gameBoard;
  }

  /** White's and Black's lists split the occupants between them: nothing
      is lost, nothing is shared, nothing is counted twice. */
  lemma {:induction false} ActivePiecesPartition(tiles: seq<Option<Piece>>)
    ensures multiset(ActivePieces(tiles, White)) + multiset(ActivePieces(tiles, Black)) == multiset(Occupants(tiles))
    ensures |ActivePieces(tiles, White)| + |ActivePieces(tiles, Black)| == |Occupants(tiles)|
  {
    if tiles != [] {
      var prefix := tiles[..|tiles| - 1];
      var last := tiles[|tiles| - 1];
      ActivePiecesPartition(prefix);
      var white := ActivePieces(prefix, White);
      var black := ActivePieces(prefix, Black);
      var occupants := Occupants(prefix);
      assert ActivePieces(tiles, White) == white + AllianceOccupant(last, White);
      assert ActivePieces(tiles, Black) == black + AllianceOccupant(last, Black);
      assert Occupants(tiles) == occupants + Occupant(last);
      if last.None? {
        assert ActivePieces(tiles, White) == white && ActivePieces(tiles, Black) == black;
        assert Occupants(tiles) == occupants;
      } else if last.value.alliance == White {
        assert ActivePieces(tiles, Black) == black;
        assert multiset(white + [last.value]) == multiset(white) + multiset{last.value};
        assert multiset(occupants + [last.value]) == multiset(occupants) + multiset{last.value};
      } else {
        assert ActivePieces(tiles, White) == white;
        assert multiset(black + [last.value]) == multiset(black) + multiset{last.value};
        assert multiset(occupants + [last.value]) == multiset(occupants) + multiset{last.value};
      }
    }
  }

  /** On a board whose occupants stand on their own squares, every active
      piece stands on one of its tiles. */
  lemma ActivePiecesOnBoard(tiles: seq<Option<Piece>>, a: Alliance)
    requires PlacedOnOwnSquare(tiles)
    ensures forall p :: p in ActivePieces(tiles, a) ==> 0 <= p.position < |tiles|
  {
    forall p | p in ActivePieces(tiles, a)
      ensures 0 <= p.position < |tiles|
    {
      var i :| 0 <= i < |tiles| && tiles[i] == Some(p);
    }
  }

  /** On a board whose occupants stand on their own squares, each side's
      list is in strictly ascending tile order. */
  lemma {:induction false} ActivePiecesAscending(tiles: seq<Option<Piece>>, a: Alliance)
    requires PlacedOnOwnSquare(tiles)
    ensures forall i, j :: 0 <= i < j < |ActivePieces(tiles, a)| ==>
              ActivePieces(tiles, a)[i].position < ActivePieces(tiles, a)[j].position
  {
    if tiles != [] {
      var prefix := tiles[..|tiles| - 1];
      ActivePiecesOnBoard(prefix, a);
      ActivePiecesAscending(prefix, a);
    }
  }

  // ----------------------------------------------------------- side moves

  ghost predicate AllOnBoard(pieces: seq<Piece>) {
    forall p :: p in pieces ==> IsValidTileCoordinate(p.position)
  }

  /** A piece's own move generation: the pawn rules, or the other pieces'. */
  function PieceMoves(piece: Piece, tiles: seq<Option<Piece>>, enPassantPawn: Option<Piece>,
                      otherMoves: Generator): seq<Move>
    requires |tiles| == NUM_TILES && IsValidTileCoordinate(piece.position)
  {
    if piece.kind == Pawn then Pawns.PawnMoves(piece, tiles, enPassantPawn)
    else otherMoves(piece, tiles)
  }

  /** Each piece's moves in turn, concatenated in the pieces' order. */
  function SideMoves(pieces: seq<Piece>, tiles: seq<Option<Piece>>, enPassantPawn: Option<Piece>,
                     otherMoves: Generator): (r: seq<Move>)
    requires |tiles| == NUM_TILES && AllOnBoard(pieces)
    ensures forall m :: m in r <==> exists p :: p in pieces && m in PieceMoves(p, tiles, enPassantPawn, otherMoves)
  {
    if pieces == [] then []
    else
      var last := pieces[|pieces| - 1];
      assert pieces == pieces[..|pieces| - 1] + [last];
      SideMoves(pieces[..|pieces| - 1], tiles, enPassantPawn, otherMoves)
      + PieceMoves(last, tiles, enPassantPawn, otherMoves)
  }

  method CalculateLegalMoves(pieces: seq<Piece>, tiles: seq<Option<Piece>>, enPassantPawn: Option<Piece>,
                             otherMoves: Generator) returns (legalMoves: seq<Move>)
    requires |tiles| == NUM_TILES && AllOnBoard(pieces)
    ensures legalMoves == SideMoves(pieces, tiles, enPassantPawn, otherMoves)
  {
    legalMoves := [];
    for i := 0 to |pieces|
      invariant legalMoves == SideMoves(pieces[..i], tiles, enPassantPawn, otherMoves)
    {
      var piece := pieces[i];
      var pieceMoves;
      if piece.kind == Pawn {
        pieceMoves := Pawns.CalculateLegalMoves(piece, tiles, enPassantPawn);
      } else {
        pieceMoves := otherMoves(piece, tiles);
      }
      assert pieces[..i + 1][..i] == pieces[..i];
      legalMoves := legalMoves + pieceMoves;
    }
    assert pieces[..|pieces|] == pieces;
  }

  // ----------------------------------------------------------- the build

  /** A side has a King on the tiles exactly when its active pieces hold one. */
  lemma KingPresence(tiles: seq<Option<Piece>>, a: Alliance)
    ensures (exists p :: p in ActivePieces(tiles, a) && p.kind == King) <==> HasKing(tiles, a)
  {
    if HasKing(tiles, a) {
      var i :| 0 <= i < |tiles| && tiles[i].Some? && tiles[i].value.kind == King && tiles[i].value.alliance == a;
      assert tiles[i].value in ActivePieces(tiles, a);
    }
    if exists p :: p in ActivePieces(tiles, a) && p.kind == King {
      var p :| p in ActivePieces(tiles, a) && p.kind == King;
      var i :| 0 <= i < |tiles| && tiles[i] == Some(p);
    }
  }

  /** The board a builder produces, or why it cannot be built: tiles from
      the placements, active pieces per side, standard moves per side
      against the new tiles and the recorded en-passant pawn, the White
      player, the Black player, then the side to move. A build fails exactly
      when a side has no King on the tiles or no side to move was set, and
      reports the first of these in the order White's King, Black's King,
      the side to move. */
  function FromBuilder(config: map<int, Piece>, nextMoveMaker: Option<Alliance>, enPassantPawn: Option<Piece>,
                       otherMoves: Generator, castles: CastleGenerator): (r: Result<Board, BuildError>)
    requires KeyedByPosition(config)
    ensures r.Success? <==>
              HasKing(GameBoard(config), White) && HasKing(GameBoard(config), Black) && nextMoveMaker.Some?
    ensures r.Failure? ==>
              r.error == (if !HasKing(GameBoard(config), White) then NoKing(White)
                          else if !HasKing(GameBoard(config), Black) then NoKing(Black)
                          else NoMoveMaker)
    ensures r.Success? ==>
              && r.value.tiles == GameBoard(config) && PlacedOnOwnSquare(r.value.tiles)
              && nextMoveMaker == Some(r.value.nextMoveMaker) && r.value.enPassantPawn == enPassantPawn
              && r.value.whitePieces == ActivePieces(r.value.tiles, White)
              && r.value.blackPieces == ActivePieces(r.value.tiles, Black)
  {
    var tiles := GameBoard(config);
    GameBoardPlaced(config);
    KingPresence(tiles, White);
    KingPresence(tiles, Black);
    var whitePieces := ActivePieces(tiles, White);
    var blackPieces := ActivePieces(tiles, Black);
    ActivePiecesOnBoard(tiles, White);
    ActivePiecesOnBoard(tiles, Black);
    var whiteMoves := SideMoves(whitePieces, tiles, enPassantPawn, otherMoves);
    var blackMoves := SideMoves(blackPieces, tiles, enPassantPawn, otherMoves);
    var whitePlayer := PlayerFor(White, whitePieces, whiteMoves, blackMoves, tiles, castles);
    var blackPlayer := PlayerFor(Black, blackPieces, blackMoves, whiteMoves, tiles, castles);
    if whitePlayer.None? then Failure(NoKing(White))
    else if blackPlayer.None? then Failure(NoKing(Black))
    else if nextMoveMaker.None? then Failure(NoMoveMaker)
    else Success(Board(tiles, whitePieces, blackPieces, enPassantPawn,
                       whitePlayer.value, blackPlayer.value, nextMoveMaker.value))
  }

  /** The mutable accumulator a board is built from. */
  class Builder {
    var boardConfig: map<int, Piece>
    var nextMoveMaker: Option<Alliance>
    var enPassantPawn: Option<Piece>

    ghost predicate Valid()
      reads this
    {
      KeyedByPosition(boardConfig)
    }

    constructor ()
      ensures Valid()
      ensures boardConfig == map[] && nextMoveMaker == None && enPassantPawn == None
    {
      boardConfig := map[];
      nextMoveMaker := None;
      enPassantPawn := None;
    }

    /** Places a piece at its own position; a later piece there replaces it. */
    method SetPiece(piece: Piece)
      requires Valid()
      modifies this
      ensures Valid()
      ensures boardConfig == old(boardConfig)[piece.position := piece]
      ensures nextMoveMaker == old(nextMoveMaker) && enPassantPawn == old(enPassantPawn)
    {
      boardConfig := boardConfig[piece.position := piece];
    }

    method SetMoveMaker(alliance: Alliance)
      requires Valid()
      modifies this
      ensures Valid()
      ensures nextMoveMaker == Some(alliance)
      ensures boardConfig == old(boardConfig) && enPassantPawn == old(enPassantPawn)
    {
      nextMoveMaker := Some(alliance);
    }

    method SetEnPassantPawn(pawn: Piece)
      requires Valid()
      modifies this
      ensures Valid()
      ensures enPassantPawn == Some(pawn)
      ensures boardConfig == old(boardConfig) && nextMoveMaker == old(nextMoveMaker)
    {
      enPassantPawn := Some(pawn);
    }

    method Build(otherMoves: Generator, castles: CastleGenerator) returns (r: Result<Board, BuildError>)
      requires Valid()
      ensures r == FromBuilder(boardConfig, nextMoveMaker, enPassantPawn, otherMoves, castles)
    {
      var gameBoard := CreateGameBoard(boardConfig);
      assert gameBoard == GameBoard(boardConfig);
      GameBoardPlaced(boardConfig);
      var whitePieces := CalculateActivePieces(gameBoard, White);
      var blackPieces := CalculateActivePieces(gameBoard, Black);
      ActivePiecesOnBoard(gameBoard, White);
      ActivePiecesOnBoard(gameBoard, Black);
      var whiteStandardLegalMoves := CalculateLegalMoves(whitePieces, gameBoard, enPassantPawn, otherMoves);
      var blackStandardLegalMoves := CalculateLegalMoves(blackPieces, gameBoard, enPassantPawn, otherMoves);
      var whitePlayer := NewPlayer(White, whitePieces, whiteStandardLegalMoves, blackStandardLegalMoves,
                                   gameBoard, castles);
      if whitePlayer.None? {
        return Failure(NoKing(White));
      }
      var blackPlayer := NewPlayer(Black, blackPieces, blackStandardLegalMoves, whiteStandardLegalMoves,
                                   gameBoard, castles);
      if blackPlayer.None? {
        return Failure(NoKing(Black));
      }
      if nextMoveMaker.None? {
        return Failure(NoMoveMaker);
      }
      return Success(Board(gameBoard, whitePieces, blackPieces, enPassantPawn,
                           whitePlayer.value, blackPlayer.value, nextMoveMaker.value));
    }
  }

  // ------------------------------------------------------ build outcomes

  /** The player derived for side `a` from its own and the opposing pieces:
      a King of its own that stands on the tiles, its standard moves followed
      by its castle moves, and a check flag that is set exactly when some opposing piece generates
      a move onto that King's square. */
  lemma DerivedPlayer(a: Alliance, tiles: seq<Option<Piece>>, own: seq<Piece>, opp: seq<Piece>,
                      enPassantPawn: Option<Piece>, otherMoves: Generator, castles: CastleGenerator, player: Player)
    requires |tiles| == NUM_TILES && AllOnBoard(own) && AllOnBoard(opp)
    requires forall p :: p in own <==> Some(p) in tiles && p.alliance == a
    requires PlayerFor(a, own, SideMoves(own, tiles, enPassantPawn, otherMoves),
                       SideMoves(opp, tiles, enPassantPawn, otherMoves), tiles, castles) == Some(player)
    ensures player.alliance == a
    ensures player.king.kind == King && player.king.alliance == a && Some(player.king) in tiles
    ensures player.legalMoves ==
              SideMoves(own, tiles, enPassantPawn, otherMoves)
              + castles(a, player.king, tiles, SideMoves(own, tiles, enPassantPawn, otherMoves),
                        SideMoves(opp, tiles, enPassantPawn, otherMoves))
    ensures player.isInCheck <==>
              exists p, m :: p in opp && m in PieceMoves(p, tiles, enPassantPawn, otherMoves)
                             && Destination(m) == player.king.position
  {
    var ownMoves := SideMoves(own, tiles, enPassantPawn, otherMoves);
    var oppMoves := SideMoves(opp, tiles, enPassantPawn, otherMoves);
    assert player.king in own;
    AttacksFromSide(opp, tiles, enPassantPawn, otherMoves, player.king.position);
  }

  /** Some move of a side lands on a square exactly when some piece of that
      side generates a move onto it. */
  lemma AttacksFromSide(pieces: seq<Piece>, tiles: seq<Option<Piece>>, enPassantPawn: Option<Piece>,
                        otherMoves: Generator, square: int)
    requires |tiles| == NUM_TILES && AllOnBoard(pieces)
    ensures (exists m :: m in SideMoves(pieces, tiles, enPassantPawn, otherMoves) && Destination(m) == square) <==>
            exists p, m :: p in pieces && m in PieceMoves(p, tiles, enPassantPawn, otherMoves) && Destination(m) == square
  {
    var moves := SideMoves(pieces, tiles, enPassantPawn, otherMoves);
    if exists m :: m in moves && Destination(m) == square {
      var m :| m in moves && Destination(m) == square;
      var p :| p in pieces && m in PieceMoves(p, tiles, enPassantPawn, otherMoves);
    }
    if exists p, m :: p in pieces && m in PieceMoves(p, tiles, enPassantPawn, otherMoves) && Destination(m) == square {
      var p, m :| p in pieces && m in PieceMoves(p, tiles, enPassantPawn, otherMoves) && Destination(m) == square;
      assert m in moves;
    }
  }

  /** The player of side `a` on a built board belongs to that side, has a
      King of its own on the tiles, holds its side's standard moves followed
      by its castle moves, and its check flag is set exactly when some
      opposing piece generates a move onto that King's square. */
  lemma BuiltPlayer(config: map<int, Piece>, nextMoveMaker: Option<Alliance>, enPassantPawn: Option<Piece>,
                    otherMoves: Generator, castles: CastleGenerator, b: Board, a: Alliance)
    requires KeyedByPosition(config)
    requires FromBuilder(config, nextMoveMaker, enPassantPawn, otherMoves, castles) == Success(b)
    ensures AllOnBoard(b.PiecesOf(a)) && AllOnBoard(b.PiecesOf(Opposite(a))) && |b.tiles| == NUM_TILES
    ensures b.PlayerOf(a).alliance == a
    ensures b.PlayerOf(a).king.kind == King && b.PlayerOf(a).king.alliance == a && Some(b.PlayerOf(a).king) in b.tiles
    ensures b.PlayerOf(a).isInCheck <==>
              exists p, m :: p in b.PiecesOf(Opposite(a)) && m in PieceMoves(p, b.tiles, enPassantPawn, otherMoves)
                             && Destination(m) == b.PlayerOf(a).king.position
    ensures b.PlayerOf(a).legalMoves ==
              SideMoves(b.PiecesOf(a), b.tiles, enPassantPawn, otherMoves)
              + castles(a, b.PlayerOf(a).king, b.tiles, SideMoves(b.PiecesOf(a), b.tiles, enPassantPawn, otherMoves),
                        SideMoves(b.PiecesOf(Opposite(a)), b.tiles, enPassantPawn, otherMoves))
  {
    var tiles := GameBoard(config);
    GameBoardPlaced(config);
    ActivePiecesOnBoard(tiles, White);
    ActivePiecesOnBoard(tiles, Black);
    var wp := ActivePieces(tiles, White);
    var bp := ActivePieces(tiles, Black);
    var whiteMoves := SideMoves(wp, tiles, enPassantPawn, otherMoves);
    var blackMoves := SideMoves(bp, tiles, enPassantPawn, otherMoves);
    assert b.tiles == tiles && b.whitePieces == wp && b.blackPieces == bp;
    if a == White {
      assert Some(b.whitePlayer) == PlayerFor(White, wp, whiteMoves, blackMoves, tiles, castles);
      DerivedPlayer(White, tiles, wp, bp, enPassantPawn, otherMoves, castles, b.whitePlayer);
    } else {
      assert Some(b.blackPlayer) == PlayerFor(Black, bp, blackMoves, whiteMoves, tiles, castles);
      DerivedPlayer(Black, tiles, bp, wp, enPassantPawn, otherMoves, castles, b.blackPlayer);
    }
  }

  /** Each side's King on a built board is the first King among its
      active pieces. */
  lemma BuiltKings(config: map<int, Piece>, nextMoveMaker: Option<Alliance>, enPassantPawn: Option<Piece>,
                   otherMoves: Generator, castles: CastleGenerator, b: Board)
    requires KeyedByPosition(config)
    requires FromBuilder(config, nextMoveMaker, enPassantPawn, otherMoves, castles) == Success(b)
    ensures FirstKing(ActivePieces(GameBoard(config), White)) == Some(b.whitePlayer.king)
    ensures FirstKing(ActivePieces(GameBoard(config), Black)) == Some(b.blackPlayer.king)
  {
    GameBoardPlaced(config);
  }

  // -------------------------------------------------------- all legal moves

  /** Both players' legal moves, White's first. */
  function AllLegalMoves(board: Board): (r: seq<Move>)
    ensures |r| == |board.whitePlayer.legalMoves| + |board.blackPlayer.legalMoves|
    ensures forall m :: m in r <==> m in board.whitePlayer.legalMoves || m in board.blackPlayer.legalMoves
    ensures r[..|board.whitePlayer.legalMoves|] == board.whitePlayer.legalMoves
    ensures r[|board.whitePlayer.legalMoves|..] == board.blackPlayer.legalMoves
  {
    board.whitePlayer.legalMoves + board.blackPlayer.legalMoves
  }

  // ------------------------------------------------------ the standard board

  /** The back-rank order from the queen's-rook file to the king's-rook file. */
  const BACK_RANK: seq<PieceType> := [Rook, Knight, Bishop, Queen, King, Bishop, Knight, Rook]

  /** The opening occupant of tile i: Black's pieces on rows 0 and 1, White's
      on rows 6 and 7, every piece with its first-move flag set. */
  function StandardTile(i: int): Option<Piece> {
    if 0 <= i < 8 then Some(Piece(BACK_RANK[i], Black, i, true))
    else if SeventhRank(i) then Some(Piece(Pawn, Black, i, true))
    else if SecondRank(i) then Some(Piece(Pawn, White, i, true))
    else if FirstRank(i) then Some(Piece(BACK_RANK[i - 56], White, i, true))
    else None
  }

  function StandardTiles(): seq<Option<Piece>> {
    seq(NUM_TILES, i => StandardTile(i))
  }

  /** The placements the opening position is built from, in placing order. */
  function StandardConfig(): map<int, Piece> {
    map[
      0 := Piece(Rook, Black, 0, true),
      1 := Piece(Knight, Black, 1, true),
      2 := Piece(Bishop, Black, 2, true),
      3 := Piece(Queen, Black, 3, true),
      4 := Piece(King, Black, 4, true),
      5 := Piece(Bishop, Black, 5, true),
      6 := Piece(Knight, Black, 6, true),
      7 := Piece(Rook, Black, 7, true),
      8 := Piece(Pawn, Black, 8, true),
      9 := Piece(Pawn, Black, 9, true),
      10 := Piece(Pawn, Black, 10, true),
      11 := Piece(Pawn, Black, 11, true),
      12 := Piece(Pawn, Black, 12, true),
      13 := Piece(Pawn, Black, 13, true),
      14 := Piece(Pawn, Black, 14, true),
      15 := Piece(Pawn, Black, 15, true),
      48 := Piece(Pawn, White, 48, true),
      49 := Piece(Pawn, White, 49, true),
      50 := Piece(Pawn, White, 50, true),
      51 := Piece(Pawn, White, 51, true),
      52 := Piece(Pawn, White, 52, true),
      53 := Piece(Pawn, White, 53, true),
      54 := Piece(Pawn, White, 54, true),
      55 := Piece(Pawn, White, 55, true),
      56 := Piece(Rook, White, 56, true),
      57 := Piece(Knight, White, 57, true),
      58 := Piece(Bishop, White, 58, true),
      59 := Piece(Queen, White, 59, true),
      60 := Piece(King, White, 60, true),
      61 := Piece(Bishop, White, 61, true),
      62 := Piece(Knight, White, 62, true),
      63 := Piece(Rook, White, 63, true)
    ]
  }

  /** The King appears once on the back rank, on the fifth file. */
  lemma BackRankKing()
    ensures forall k :: 0 <= k < 8 ==> (BACK_RANK[k] == King <==> k == 4)
  {
    forall k | 0 <= k < 8
      ensures BACK_RANK[k] == King <==> k == 4
    {
      assert k in {0, 1, 2, 3, 4, 5, 6, 7};
    }
  }

  /** If exactly one tile holds a King of side `a`, that is the side's king. */
  lemma UniqueKing(tiles: seq<Option<Piece>>, a: Alliance, i: int)
    requires 0 <= i < |tiles| && tiles[i].Some? && tiles[i].value.kind == King && tiles[i].value.alliance == a
    requires forall j :: 0 <= j < |tiles| && j != i && tiles[j].Some? ==>
               !(tiles[j].value.kind == King && tiles[j].value.alliance == a)
    ensures FirstKing(ActivePieces(tiles, a)) == Some(tiles[i].value)
  {
    assert tiles[i].value in ActivePieces(tiles, a);
    var k := FirstKing(ActivePieces(tiles, a)).value;
    assert k in ActivePieces(tiles, a);
    var j :| 0 <= j < |tiles| && tiles[j] == Some(k);
  }

  /** Every opening piece stands on its own tile with its first-move flag
      set, and each side has exactly one King: Black's on tile 4, White's on
      tile 60. */
  lemma StandardPieces()
    ensures forall i :: StandardTile(i).Some? ==>
              IsValidTileCoordinate(i) && StandardTile(i).value.position == i && StandardTile(i).value.firstMove
    ensures forall i :: StandardTile(i).Some? && StandardTile(i).value.kind == King ==>
              (i == 4 && StandardTile(i).value.alliance == Black) || (i == 60 && StandardTile(i).value.alliance == White)
    ensures StandardTile(4) == Some(Piece(King, Black, 4, true))
    ensures StandardTile(60) == Some(Piece(King, White, 60, true))
  {
    BackRankKing();
    forall i | StandardTile(i).Some? && StandardTile(i).value.kind == King
      ensures (i == 4 && StandardTile(i).value.alliance == Black) || (i == 60 && StandardTile(i).value.alliance == White)
    {
      if 0 <= i < 8 {
        assert BACK_RANK[i] == King;
      } else {
        assert FirstRank(i) && BACK_RANK[i - 56] == King;
      }
    }
  }

  /** Tile i of the opening placements holds the opening occupant of i. */
  lemma StandardConfigAt(i: int)
    requires IsValidTileCoordinate(i)
    ensures GameBoard(StandardConfig())[i] == StandardTile(i)
  {
    var config := StandardConfig();
    if i < 8 {
      assert i in {0, 1, 2, 3, 4, 5, 6, 7};
    } else if i < 16 {
      assert i in {8, 9, 10, 11, 12, 13, 14, 15};
    } else if i < 48 {
      assert i !in config;
    } else if i < 56 {
      assert i in {48, 49, 50, 51, 52, 53, 54, 55};
    } else {
      assert i in {56, 57, 58, 59, 60, 61, 62, 63};
    }
  }

  /** The placements put each opening piece on its own tile and nothing
      elsewhere. */
  lemma StandardConfigTiles()
    ensures KeyedByPosition(StandardConfig())
    ensures GameBoard(StandardConfig()) == StandardTiles()
  {
    forall i | 0 <= i < NUM_TILES
      ensures GameBoard(StandardConfig())[i] == StandardTile(i)
    {
      StandardConfigAt(i);
    }
  }

  /** Placements that fill the tiles of the opening position build, with
      White to move, into a board whose Kings are on tiles 60 and 4. */
  lemma OpeningTilesBuild(config: map<int, Piece>, otherMoves: Generator, castles: CastleGenerator)
    requires KeyedByPosition(config) && GameBoard(config) == StandardTiles()
    ensures FromBuilder(config, Some(White), None, otherMoves, castles).Success?
    ensures FromBuilder(config, Some(White), None, otherMoves, castles).value.whitePlayer.king
              == Piece(King, White, 60, true)
    ensures FromBuilder(config, Some(White), None, otherMoves, castles).value.blackPlayer.king
              == Piece(King, Black, 4, true)
  {
    var tiles := StandardTiles();
    StandardPieces();
    UniqueKing(tiles, White, 60);
    UniqueKing(tiles, Black, 4);
    assert tiles[60].value.kind == King && tiles[4].value.kind == King;
    var b := FromBuilder(config, Some(White), None, otherMoves, castles).value;
    BuiltKings(config, Some(White), None, otherMoves, castles, b);
  }

  /** Building the standard placements with White to move succeeds, with
      the Kings on tiles 60 and 4. */
  lemma StandardBuild(otherMoves: Generator, castles: CastleGenerator)
    ensures KeyedByPosition(StandardConfig()) && GameBoard(StandardConfig()) == StandardTiles()
    ensures FromBuilder(StandardConfig(), Some(White), None, otherMoves, castles).Success?
    ensures FromBuilder(StandardConfig(), Some(White), None, otherMoves, castles).value.whitePlayer.king
              == Piece(King, White, 60, true)
    ensures FromBuilder(StandardConfig(), Some(White), None, otherMoves, castles).value.blackPlayer.king
              == Piece(King, Black, 4, true)
  {
    StandardConfigTiles();
    OpeningTilesBuild(StandardConfig(), otherMoves, castles);
  }

  /** Places the thirty-two pieces of the opening position and sets White to
      move. */
  method CreateStandardBoard(otherMoves: Generator, castles: CastleGenerator) returns (board: Board)
    ensures Success(board) == FromBuilder(StandardConfig(), Some(White), None, otherMoves, castles)
    ensures board.tiles == StandardTiles()
    ensures board.nextMoveMaker == White && board.CurrentPlayer() == board.whitePlayer
    ensures board.enPassantPawn == None
    ensures board.whitePlayer.king == Piece(King, White, 60, true)
    ensures board.blackPlayer.king == Piece(King, Black, 4, true)
  {
    var builder := new Builder();
    // Black layout
    builder.SetPiece(Piece(Rook, Black, 0, true));
    builder.SetPiece(Piece(Knight, Black, 1, true));
    builder.SetPiece(Piece(Bishop, Black, 2, true));
    builder.SetPiece(Piece(Queen, Black, 3, true));
    builder.SetPiece(Piece(King, Black, 4, true));
    builder.SetPiece(Piece(Bishop, Black, 5, true));
    builder.SetPiece(Piece(Knight, Black, 6, true));
    builder.SetPiece(Piece(Rook, Black, 7, true));
    builder.SetPiece(Piece(Pawn, Black, 8, true));
    builder.SetPiece(Piece(Pawn, Black, 9, true));
    builder.SetPiece(Piece(Pawn, Black, 10, true));
    builder.SetPiece(Piece(Pawn, Black, 11, true));
    builder.SetPiece(Piece(Pawn, Black, 12, true));
    builder.SetPiece(Piece(Pawn, Black, 13, true));
    builder.SetPiece(Piece(Pawn, Black, 14, true));
    builder.SetPiece(Piece(Pawn, Black, 15, true));
    // White layout
    builder.SetPiece(Piece(Pawn, White, 48, true));
    builder.SetPiece(Piece(Pawn, White, 49, true));
    builder.SetPiece(Piece(Pawn, White, 50, true));
    builder.SetPiece(Piece(Pawn, White, 51, true));
    builder.SetPiece(Piece(Pawn, White, 52, true));
    builder.SetPiece(Piece(Pawn, White, 53, true));
    builder.SetPiece(Piece(Pawn, White, 54, true));
    builder.SetPiece(Piece(Pawn, White, 55, true));
    builder.SetPiece(Piece(Rook, White, 56, true));
    builder.SetPiece(Piece(Knight, White, 57, true));
    builder.SetPiece(Piece(Bishop, White, 58, true));
    builder.SetPiece(Piece(Queen, White, 59, true));
    builder.SetPiece(Piece(King, White, 60, true));
    builder.SetPiece(Piece(Bishop, White, 61, true));
    builder.SetPiece(Piece(Knight, White, 62, true));
    builder.SetPiece(Piece(Rook, White, 63, true));
    // White moves first
    builder.SetMoveMaker(White);
    assert builder.boardConfig == StandardConfig();
    var r := builder.Build(otherMoves, castles);
    StandardBuild(otherMoves, castles);
    board := r.value;
  }

  /** In the opening position every pawn has exactly its single push and
      its double push, and nothing else. */
  lemma StandardPawnOpening(i: int)
    requires SeventhRank(i) || SecondRank(i)
    ensures var pawn := StandardTile(i).value;
            pawn.kind == Pawn &&
            Pawns.PawnMoves(pawn, StandardTiles(), None)
              == [PawnMove(pawn, i + 8 * Direction(pawn.alliance)), PawnJump(pawn, i + 16 * Direction(pawn.alliance))]
  {
    var pawn := StandardTile(i).value;
    Pawns.PawnMovesUnfold(pawn, StandardTiles(), None);
  }
}
