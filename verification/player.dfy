/** One side's view of a board: assembling its legal moves, finding its
    king, detecting check, the three-way outcome of attempting a move, and
    the checkmate / stalemate classification built on it. */
module Players {
  import opened Engine

  /** The castle moves a side computes from its king, the tiles, its own
      standard moves and the opponent's (the per-colour castling rules are
      not part of this model). */
  type CastleGenerator = (Alliance, Piece, seq<Option<Piece>>, seq<Move>, seq<Move>) -> seq<Move>

  /** Executing a move on the board it was generated against. */
  type Executor = (Board, Move) -> Board

  datatype MoveStatus = Done | IllegalMove | LeavesPlayerInCheck

  /** The outcome of one attempted move. */
  datatype MoveTransition = MoveTransition(transitionBoard: Board, move: Move, moveStatus: MoveStatus)

  // ------------------------------------------------------- attacks on a tile

  /** The moves among `moves` that land on `position`, in their order. */
  function AttacksOn(position: int, moves: seq<Move>): (r: seq<Move>)
    ensures |r| <= |moves|
    ensures forall m :: m in r <==> m in moves && Destination(m) == position
  {
    if moves == [] then []
    else
      var last := moves[|moves| - 1];
      assert moves == moves[..|moves| - 1] + [last];
      AttacksOn(position, moves[..|moves| - 1]) + (if Destination(last) == position then [last] else [])
  }

  /** Filtering keeps order: the attacks on a concatenation are the attacks
      on the first part followed by those on the second. */
  lemma {:induction false} AttacksOnAppend(position: int, a: seq<Move>, b: seq<Move>)
    ensures AttacksOn(position, a + b) == AttacksOn(position, a) + AttacksOn(position, b)
  {
    if b == [] {
      assert a + b == a;
    } else {
      assert (a + b)[..|a + b| - 1] == a + b[..|b| - 1];
      AttacksOnAppend(position, a, b[..|b| - 1]);
    }
  }

  method CalculateAttackOnTile(piecePosition: int, moves: seq<Move>) returns (attackTileMoves: seq<Move>)
    ensures attackTileMoves == AttacksOn(piecePosition, moves)
  {
    attackTileMoves := [];
    for i := 0 to |moves|
      invariant attackTileMoves == AttacksOn(piecePosition, moves[..i])
    {
      assert moves[..i + 1][..i] == moves[..i];
      if piecePosition == Destination(moves[i]) {
        attackTileMoves := attackTileMoves + [moves[i]];
      }
    }
    assert moves[..|moves|] == moves;
  }

  // ------------------------------------------------------------ the king

  /** The first King among the pieces, or None when there is none. */
  function FirstKing(pieces: seq<Piece>): (r: Option<Piece>)
    ensures r.None? <==> forall p :: p in pieces ==> p.kind != King
    ensures r.Some? ==> exists i :: 0 <= i < |pieces| && pieces[i] == r.value && r.value.kind == King
                                    && forall j :: 0 <= j < i ==> pieces[j].kind != King
  {
    if pieces == [] then None
    else if pieces[0].kind == King then Some(pieces[0])
    else
      var rest := FirstKing(pieces[1..]);
      assert rest.Some? ==> exists i :: 1 <= i < |pieces| && pieces[i] == rest.value
                                        && forall j :: 0 <= j < i ==> pieces[j].kind != King;
      rest
  }

  /** Scans the active pieces for the first King (the source throws when
      there is none; here that is None). */
  method EstablishKing(activePieces: seq<Piece>) returns (king: Option<Piece>)
    ensures king == FirstKing(activePieces)
  {
    for i := 0 to |activePieces|
      invariant FirstKing(activePieces[i..]) == FirstKing(activePieces)
    {
      if activePieces[i].kind == King {
        return Some(activePieces[i]);
      }
      assert activePieces[i..][1..] == activePieces[i + 1..];
    }
    return None;
  }

  // ------------------------------------------------------ the player itself

  /** The player a side gets: its first King, its standard moves followed by
      its castle moves, and whether an opponent move lands on its king. */
  function PlayerFor(alliance: Alliance, activePieces: seq<Piece>, legalMoves: seq<Move>,
                     opponentMoves: seq<Move>, tiles: seq<Option<Piece>>, castles: CastleGenerator): (r: Option<Player>)
    ensures r.None? <==> forall p :: p in activePieces ==> p.kind != King
    ensures r.Some? ==>
              && r.value.alliance == alliance
              && FirstKing(activePieces) == Some(r.value.king)
              && r.value.legalMoves == legalMoves + castles(alliance, r.value.king, tiles, legalMoves, opponentMoves)
              && (r.value.isInCheck <==> exists m :: m in opponentMoves && Destination(m) == r.value.king.position)
  {
    match FirstKing(activePieces)
    case None => None
    case Some(king) =>
      var attacks := AttacksOn(king.position, opponentMoves);
      assert |attacks| != 0 ==> attacks[0] in attacks;
      Some(Player(alliance, king, legalMoves + castles(alliance, king, tiles, legalMoves, opponentMoves),
                  |attacks| != 0))
  }

  /** The player constructor: establish the king, then the legal-move list,
      then the check flag. */
  method NewPlayer(alliance: Alliance, activePieces: seq<Piece>, legalMoves: seq<Move>,
                   opponentMoves: seq<Move>, tiles: seq<Option<Piece>>, castles: CastleGenerator)
    returns (r: Option<Player>)
    ensures r == PlayerFor(alliance, activePieces, legalMoves, opponentMoves, tiles, castles)
  {
    var playerKing := EstablishKing(activePieces);
    if playerKing.None? {
      return None;
    }
    var king := playerKing.value;
    var allLegalMoves := legalMoves + castles(alliance, king, tiles, legalMoves, opponentMoves);
    var kingAttacks := CalculateAttackOnTile(king.position, opponentMoves);
    return Some(Player(alliance, king, allLegalMoves, |kingAttacks| != 0));
  }

  // ------------------------------------------------------------- makeMove

  /** On a board whose side to move has just been handed over, some move of
      the side to move lands on the king of the side that just moved. */
  ghost predicate KingExposed(b: Board) {
    exists m :: m in b.CurrentPlayer().legalMoves && Destination(m) == b.OpponentPlayer().king.position
  }

  /** Attempt a move for `side`: a move outside its legal-move list is
      illegal and nothing is executed; otherwise the executed board is kept
      only when it does not leave the mover's king attacked. */
  function MakeMove(board: Board, side: Alliance, candidateMove: Move, execute: Executor): (t: MoveTransition)
    ensures t.move == candidateMove
    ensures t.moveStatus == IllegalMove <==> candidateMove !in board.PlayerOf(side).legalMoves
    ensures t.moveStatus == LeavesPlayerInCheck <==>
              candidateMove in board.PlayerOf(side).legalMoves && KingExposed(execute(board, candidateMove))
    ensures t.moveStatus == Done <==>
              candidateMove in board.PlayerOf(side).legalMoves && !KingExposed(execute(board, candidateMove))
    ensures t.moveStatus != Done ==> t.transitionBoard == board
    ensures t.moveStatus == Done ==> t.transitionBoard == execute(board, candidateMove) && !KingExposed(t.transitionBoard)
  {
    if candidateMove !in board.PlayerOf(side).legalMoves then
      MoveTransition(board, candidateMove, IllegalMove)
    else
      var transitionBoard := execute(board, candidateMove);
      var kingAttacks := AttacksOn(transitionBoard.OpponentPlayer().king.position,
                                   transitionBoard.CurrentPlayer().legalMoves);
      assert |kingAttacks| != 0 ==> kingAttacks[0] in kingAttacks;
      if |kingAttacks| != 0 then MoveTransition(board, candidateMove, LeavesPlayerInCheck)
      else MoveTransition(transitionBoard, candidateMove, Done)
  }

  /** An illegal move is rejected whatever executing it would give: the
      outcome does not depend on the executor at all. */
  lemma IllegalMoveIsNeverExecuted(board: Board, side: Alliance, candidateMove: Move, e1: Executor, e2: Executor)
    requires candidateMove !in board.PlayerOf(side).legalMoves
    ensures MakeMove(board, side, candidateMove, e1) == MakeMove(board, side, candidateMove, e2)
                                                     == MoveTransition(board, candidateMove, IllegalMove)
  {
  }

  // --------------------------------------------------- checkmate, stalemate

  ghost predicate NoEscapeMoves(board: Board, side: Alliance, execute: Executor) {
    forall m :: m in board.PlayerOf(side).legalMoves ==> MakeMove(board, side, m, execute).moveStatus != Done
  }

  ghost predicate CheckMate(board: Board, side: Alliance, execute: Executor) {
    board.PlayerOf(side).isInCheck && NoEscapeMoves(board, side, execute)
  }

  ghost predicate StaleMate(board: Board, side: Alliance, execute: Executor) {
    !board.PlayerOf(side).isInCheck && NoEscapeMoves(board, side, execute)
  }

  /** Tries every legal move and stops at the first one that is done. */
  method HasNoEscapeMoves(board: Board, side: Alliance, execute: Executor) returns (r: bool)
    ensures r <==> forall m :: m in board.PlayerOf(side).legalMoves ==>
                               MakeMove(board, side, m, execute).moveStatus != Done
  {
    var legalMoves := board.PlayerOf(side).legalMoves;
    for i := 0 to |legalMoves|
      invariant forall k :: 0 <= k < i ==> MakeMove(board, side, legalMoves[k], execute).moveStatus != Done
    {
      var transition := MakeMove(board, side, legalMoves[i], execute);
      if transition.moveStatus == Done {
        return false;
      }
    }
    return true;
  }

  method IsInCheckMate(board: Board, side: Alliance, execute: Executor) returns (r: bool)
    ensures r == CheckMate(board, side, execute)
  {
    r := board.PlayerOf(side).isInCheck;
    if r {
      r := HasNoEscapeMoves(board, side, execute);
    }
  }

  method IsInStaleMate(board: Board, side: Alliance, execute: Executor) returns (r: bool)
    ensures r == StaleMate(board, side, execute)
  {
    r := !board.PlayerOf(side).isInCheck;
    if r {
      r := HasNoEscapeMoves(board, side, execute);
    }
  }

  /** No escape means every legal move leaves the king attacked (none of
      them can be rejected as illegal); a side without legal moves has no
      escape; and a side without escape is in exactly one of checkmate and
      stalemate, decided by the check flag. */
  lemma MateClassification(board: Board, side: Alliance, execute: Executor)
    ensures NoEscapeMoves(board, side, execute) <==>
              forall m :: m in board.PlayerOf(side).legalMoves ==>
                            MakeMove(board, side, m, execute).moveStatus == LeavesPlayerInCheck
    ensures board.PlayerOf(side).legalMoves == [] ==> NoEscapeMoves(board, side, execute)
    ensures !(CheckMate(board, side, execute) && StaleMate(board, side, execute))
    ensures NoEscapeMoves(board, side, execute) <==> CheckMate(board, side, execute) || StaleMate(board, side, execute)
  {
  }
}
