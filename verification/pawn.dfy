/** Pseudo-legal move generation for a pawn: the single push (promoting on
    the far row), the double push from the starting row, the two diagonal
    captures with their file-edge guards, and en passant against the pawn the
    board has recorded. */
module Pawns {
  import opened Engine

  /** The four offsets, scaled by the pawn's direction, that a pawn tries. */
  const CANDIDATE_MOVE_COORDINATES: seq<int> := [7, 8, 9, 16]

  /** A pawn may stand anywhere on a 64-tile board. */
  predicate OnBoard(pawn: Piece, tiles: seq<Option<Piece>>) {
    |tiles| == NUM_TILES && IsValidTileCoordinate(pawn.position)
  }

  /** The file guard on a diagonal: offset 7 is never taken by a White pawn
      on the eighth file or a Black pawn on the first file, offset 9 never by
      a White pawn on the first file or a Black pawn on the eighth file. */
  predicate DiagonalAllowed(pawn: Piece, offset: int) {
    var pos := pawn.position;
    if offset == 7 then
      !((EighthFile(pos) && pawn.alliance == White) || (FirstFile(pos) && pawn.alliance == Black))
    else
      !((FirstFile(pos) && pawn.alliance == White) || (EighthFile(pos) && pawn.alliance == Black))
  }

  function Target(pawn: Piece, offset: int): int {
    pawn.position + Direction(pawn.alliance) * offset
  }

  /** A diagonal square the pawn may capture on (board and file guards pass). */
  predicate DiagonalTarget(pawn: Piece, d: int) {
    IsValidTileCoordinate(d) &&
    ((d == Target(pawn, 7) && DiagonalAllowed(pawn, 7)) ||
     (d == Target(pawn, 9) && DiagonalAllowed(pawn, 9)))
  }

  /** Where the en-passant pawn must stand for a capture onto diagonal `d`:
      beside the pawn, one step in the opposite direction for offset 7 and
      one step in the pawn's direction for offset 9. */
  function EnPassantSquare(pawn: Piece, d: int): int {
    if d == Target(pawn, 7) then pawn.position + OppositeDirection(pawn.alliance)
    else pawn.position - OppositeDirection(pawn.alliance)
  }

  /** What a diagonal offset yields: a capture of an opposing occupant
      (promoting on the far row), else en passant, else nothing. */
  function Diagonal(pawn: Piece, tiles: seq<Option<Piece>>, enPassantPawn: Option<Piece>,
                    dest: int, enPassantSquare: int): (r: seq<Move>)
    requires |tiles| == NUM_TILES && IsValidTileCoordinate(dest)
    ensures forall m :: m in r ==> MovedPiece(m) == pawn && Destination(m) == dest
    ensures forall m :: m in r ==> m.PawnAttackMove? || m.PawnEnPassantAttack? || (m.PawnPromotion? && m.decorated.PawnAttackMove?)
  {
    if tiles[dest].Some? then
      var pieceAtDestination := tiles[dest].value;
      if pawn.alliance != pieceAtDestination.alliance then
        if IsPawnPromotionSquare(pawn.alliance, dest) then
          assert MovedPiece(PawnPromotion(PawnAttackMove(pawn, dest, pieceAtDestination))) == pawn;
          [PawnPromotion(PawnAttackMove(pawn, dest, pieceAtDestination))]
        else
          [PawnAttackMove(pawn, dest, pieceAtDestination)]
      else []
    else if enPassantPawn.Some? && enPassantPawn.value.position == enPassantSquare
         && pawn.alliance != enPassantPawn.value.alliance then
      [PawnEnPassantAttack(pawn, dest, enPassantPawn.value)]
    else []
  }

  /** The move (at most one) that a single candidate offset yields. */
  function Candidate(pawn: Piece, tiles: seq<Option<Piece>>, enPassantPawn: Option<Piece>,
                     offset: int): (r: seq<Move>)
    requires OnBoard(pawn, tiles)
    ensures |r| <= 1
    ensures forall m :: m in r ==> MovedPiece(m) == pawn && Destination(m) == Target(pawn, offset)
                                    && IsValidTileCoordinate(Destination(m))
    ensures offset == 8 ==> forall m :: m in r ==> m.PawnMove? || (m.PawnPromotion? && m.decorated.PawnMove?)
    ensures offset == 16 ==> forall m :: m in r ==> m.PawnJump?
    ensures offset != 8 && offset != 16 ==> forall m :: m in r ==>
              m.PawnAttackMove? || m.PawnEnPassantAttack? || (m.PawnPromotion? && m.decorated.PawnAttackMove?)
  {
    var pos := pawn.position;
    var dest := Target(pawn, offset);
    if !IsValidTileCoordinate(dest) then []
    else if offset == 8 && tiles[dest].None? then
      if IsPawnPromotionSquare(pawn.alliance, dest) then
        assert MovedPiece(PawnPromotion(PawnMove(pawn, dest))) == pawn;
        [PawnPromotion(PawnMove(pawn, dest))]
      else [PawnMove(pawn, dest)]
    else if offset == 16 && pawn.firstMove &&
            ((SeventhRank(pos) && pawn.alliance == Black) || (SecondRank(pos) && pawn.alliance == White)) then
      var behind := Target(pawn, 8);
      if tiles[behind].None? && tiles[dest].None? then [PawnJump(pawn, dest)] else []
    else if offset == 7 && DiagonalAllowed(pawn, 7) then
      Diagonal(pawn, tiles, enPassantPawn, dest, pos + OppositeDirection(pawn.alliance))
    else if offset == 9 && DiagonalAllowed(pawn, 9) then
      Diagonal(pawn, tiles, enPassantPawn, dest, pos - OppositeDirection(pawn.alliance))
    else []
  }

  /** The moves of the given offsets, in offset order. */
  function MovesFor(pawn: Piece, tiles: seq<Option<Piece>>, enPassantPawn: Option<Piece>,
                    offsets: seq<int>): (r: seq<Move>)
    requires OnBoard(pawn, tiles)
  {
    if offsets == [] then []
    else MovesFor(pawn, tiles, enPassantPawn, offsets[..|offsets| - 1])
         + Candidate(pawn, tiles, enPassantPawn, offsets[|offsets| - 1])
  }

  /** The offsets yield at most one move each, all of them this pawn's and
      on the board. */
  lemma {:induction false} MovesForShape(pawn: Piece, tiles: seq<Option<Piece>>, enPassantPawn: Option<Piece>,
                                         offsets: seq<int>)
    requires OnBoard(pawn, tiles)
    ensures |MovesFor(pawn, tiles, enPassantPawn, offsets)| <= |offsets|
    ensures forall m :: m in MovesFor(pawn, tiles, enPassantPawn, offsets) ==>
              MovedPiece(m) == pawn && IsValidTileCoordinate(Destination(m))
  {
    if offsets != [] {
      MovesForShape(pawn, tiles, enPassantPawn, offsets[..|offsets| - 1]);
    }
  }

  /** The pawn's pseudo-legal moves on a board. */
  function PawnMoves(pawn: Piece, tiles: seq<Option<Piece>>, enPassantPawn: Option<Piece>): seq<Move>
    requires OnBoard(pawn, tiles)
  {
    MovesFor(pawn, tiles, enPassantPawn, CANDIDATE_MOVE_COORDINATES)
  }

  /** Tries each candidate offset in turn: a destination off the board is
      skipped; otherwise the single push, the double push and the two
      diagonals are tested in that order, and what the first matching branch
      yields is appended. */
  method CalculateLegalMoves(pawn: Piece, tiles: seq<Option<Piece>>, enPassantPawn: Option<Piece>)
    returns (legalMoves: seq<Move>)
    requires OnBoard(pawn, tiles)
    ensures legalMoves == PawnMoves(pawn, tiles, enPassantPawn)
  {
    legalMoves := [];
    for i := 0 to |CANDIDATE_MOVE_COORDINATES|
      invariant legalMoves == MovesFor(pawn, tiles, enPassantPawn, CANDIDATE_MOVE_COORDINATES[..i])
    {
      assert CANDIDATE_MOVE_COORDINATES[..i + 1][..i] == CANDIDATE_MOVE_COORDINATES[..i];
      var currentCandidateOffset := CANDIDATE_MOVE_COORDINATES[i];
      ghost var before := legalMoves;
      assert MovesFor(pawn, tiles, enPassantPawn, CANDIDATE_MOVE_COORDINATES[..i + 1])
             == before + Candidate(pawn, tiles, enPassantPawn, currentCandidateOffset);
      var candidateDestinationCoordinate := pawn.position + Direction(pawn.alliance) * currentCandidateOffset;
      if !IsValidTileCoordinate(candidateDestinationCoordinate) {
        continue;
      }
      var dest := candidateDestinationCoordinate;
      if currentCandidateOffset == 8 && tiles[dest].None? {
        if IsPawnPromotionSquare(pawn.alliance, dest) {
          legalMoves := legalMoves + [PawnPromotion(PawnMove(pawn, dest))];
        } else {
          legalMoves := legalMoves + [PawnMove(pawn, dest)];
        }
      } else if currentCandidateOffset == 16 && pawn.firstMove &&
                ((SeventhRank(pawn.position) && pawn.alliance == Black) ||
                 (SecondRank(pawn.position) && pawn.alliance == White)) {
        var behindCandidateDestinationCoordinate := pawn.position + Direction(pawn.alliance) * 8;
        if tiles[behindCandidateDestinationCoordinate].None? && tiles[dest].None? {
          legalMoves := legalMoves + [PawnJump(pawn, dest)];
        }
      } else if currentCandidateOffset == 7 &&
                !((EighthFile(pawn.position) && pawn.alliance == White) ||
                  (FirstFile(pawn.position) && pawn.alliance == Black)) {
        if tiles[dest].Some? {
          var pieceAtDestination := tiles[dest].value;
          if pawn.alliance != pieceAtDestination.alliance {
            if IsPawnPromotionSquare(pawn.alliance, dest) {
              legalMoves := legalMoves + [PawnPromotion(PawnAttackMove(pawn, dest, pieceAtDestination))];
            } else {
              legalMoves := legalMoves + [PawnAttackMove(pawn, dest, pieceAtDestination)];
            }
          }
        } else if enPassantPawn.Some? {
          if enPassantPawn.value.position == pawn.position + OppositeDirection(pawn.alliance) {
            var pieceOnCandidate := enPassantPawn.value;
            if pawn.alliance != pieceOnCandidate.alliance {
              legalMoves := legalMoves + [PawnEnPassantAttack(pawn, dest, pieceOnCandidate)];
            }
          }
        }
      } else if currentCandidateOffset == 9 &&
                !((FirstFile(pawn.position) && pawn.alliance == White) ||
                  (EighthFile(pawn.position) && pawn.alliance == Black)) {
        if tiles[dest].Some? {
          var pieceAtDestination := tiles[dest].value;
          if pawn.alliance != pieceAtDestination.alliance {
            if IsPawnPromotionSquare(pawn.alliance, dest) {
              legalMoves := legalMoves + [PawnPromotion(PawnAttackMove(pawn, dest, pieceAtDestination))];
            } else {
              legalMoves := legalMoves + [PawnAttackMove(pawn, dest, pieceAtDestination)];
            }
          }
        } else if enPassantPawn.Some? {
          if enPassantPawn.value.position == pawn.position - OppositeDirection(pawn.alliance) {
            var pieceOnCandidate := enPassantPawn.value;
            if pawn.alliance != pieceOnCandidate.alliance {
              legalMoves := legalMoves + [PawnEnPassantAttack(pawn, dest, pieceOnCandidate)];
            }
          }
        }
      }
    }
    assert CANDIDATE_MOVE_COORDINATES[..4] == CANDIDATE_MOVE_COORDINATES;
  }

  /** The piece a promoting pawn becomes: a Queen of its side on its square. */
  function GetPromotionPiece(pawn: Piece): (q: Piece)
    ensures q.kind == Queen && q.alliance == pawn.alliance && q.position == pawn.position
    ensures !q.firstMove
  {
    Piece(Queen, pawn.alliance, pawn.position, false)
  }

  /** The pawn after a move: on the move's destination, of the moved piece's
      side, built by the two-argument constructor (first-move flag set). */
  function MovePiece(pawn: Piece, move: Move): (moved: Piece)
    ensures moved.kind == Pawn && moved.position == Destination(move)
    ensures moved.alliance == MovedPiece(move).alliance && moved.firstMove
  {
    Piece(Pawn, MovedPiece(move).alliance, Destination(move), true)
  }

  // ------------------------------------------------------------------ lemmas

  lemma PawnMovesUnfold(pawn: Piece, tiles: seq<Option<Piece>>, ep: Option<Piece>)
    requires OnBoard(pawn, tiles)
    ensures PawnMoves(pawn, tiles, ep) ==
            Candidate(pawn, tiles, ep, 7) + Candidate(pawn, tiles, ep, 8)
            + Candidate(pawn, tiles, ep, 9) + Candidate(pawn, tiles, ep, 16)
  {
    var c := CANDIDATE_MOVE_COORDINATES;
    assert c[..3] == [7, 8, 9] && [7, 8, 9][..2] == [7, 8] && [7, 8][..1] == [7] && [7][..0] == [];
    assert MovesFor(pawn, tiles, ep, [7]) == Candidate(pawn, tiles, ep, 7);
    assert MovesFor(pawn, tiles, ep, [7, 8]) == Candidate(pawn, tiles, ep, 7) + Candidate(pawn, tiles, ep, 8);
    assert MovesFor(pawn, tiles, ep, [7, 8, 9])
        == MovesFor(pawn, tiles, ep, [7, 8]) + Candidate(pawn, tiles, ep, 9);
  }

  /** A move is generated exactly when one of the four offsets yields it. */
  lemma PawnMovesMembership(pawn: Piece, tiles: seq<Option<Piece>>, ep: Option<Piece>, m: Move)
    requires OnBoard(pawn, tiles)
    ensures m in PawnMoves(pawn, tiles, ep) <==>
            m in Candidate(pawn, tiles, ep, 7) || m in Candidate(pawn, tiles, ep, 8)
            || m in Candidate(pawn, tiles, ep, 9) || m in Candidate(pawn, tiles, ep, 16)
  {
    PawnMovesUnfold(pawn, tiles, ep);
  }

  /** Every generated move is this pawn's, lands on the board, advances one
      row in the pawn's direction (two for the double push) and shifts at
      most one file: no move wraps around a board edge. */
  lemma PawnMovesGeometry(pawn: Piece, tiles: seq<Option<Piece>>, ep: Option<Piece>)
    requires OnBoard(pawn, tiles)
    ensures |PawnMoves(pawn, tiles, ep)| <= 4
    ensures forall m :: m in PawnMoves(pawn, tiles, ep) ==>
              && MovedPiece(m) == pawn
              && IsValidTileCoordinate(Destination(m))
              && Row(Destination(m)) == Row(pawn.position) + (if m.PawnJump? then 2 else 1) * Direction(pawn.alliance)
              && -1 <= Column(Destination(m)) - Column(pawn.position) <= 1
  {
    PawnMovesUnfold(pawn, tiles, ep);
    var pos := pawn.position;
    forall m | m in PawnMoves(pawn, tiles, ep)
      ensures Row(Destination(m)) == Row(pos) + (if m.PawnJump? then 2 else 1) * Direction(pawn.alliance)
      ensures -1 <= Column(Destination(m)) - Column(pos) <= 1
    {
      if m in Candidate(pawn, tiles, ep, 7) {
        assert Destination(m) == pos + 7 * Direction(pawn.alliance);
      } else if m in Candidate(pawn, tiles, ep, 8) {
        assert Destination(m) == pos + 8 * Direction(pawn.alliance);
      } else if m in Candidate(pawn, tiles, ep, 9) {
        assert Destination(m) == pos + 9 * Direction(pawn.alliance);
      } else {
        assert m in Candidate(pawn, tiles, ep, 16);
        assert m.PawnJump?;
      }
    }
  }

  /** The single push is emitted exactly when the square ahead is on the
      board and empty; on the far row it is wrapped as a promotion. */
  lemma SinglePushRule(pawn: Piece, tiles: seq<Option<Piece>>, ep: Option<Piece>, q: Piece, d: int)
    requires OnBoard(pawn, tiles)
    ensures PawnMove(q, d) in PawnMoves(pawn, tiles, ep) <==>
              && q == pawn && d == Target(pawn, 8) && IsValidTileCoordinate(d) && tiles[d].None?
              && !IsPawnPromotionSquare(pawn.alliance, d)
    ensures PawnPromotion(PawnMove(q, d)) in PawnMoves(pawn, tiles, ep) <==>
              && q == pawn && d == Target(pawn, 8) && IsValidTileCoordinate(d) && tiles[d].None?
              && IsPawnPromotionSquare(pawn.alliance, d)
  {
    PawnMovesMembership(pawn, tiles, ep, PawnMove(q, d));
    PawnMovesMembership(pawn, tiles, ep, PawnPromotion(PawnMove(q, d)));
  }

  /** The double push is emitted exactly when the first-move flag is set, the
      pawn stands on its starting row and both squares ahead are empty. */
  lemma PawnJumpRule(pawn: Piece, tiles: seq<Option<Piece>>, ep: Option<Piece>, q: Piece, d: int)
    requires OnBoard(pawn, tiles)
    ensures PawnJump(q, d) in PawnMoves(pawn, tiles, ep) <==>
              && q == pawn && d == Target(pawn, 16) && pawn.firstMove
              && IsPawnStartingSquare(pawn.alliance, pawn.position)
              && tiles[Target(pawn, 8)].None? && tiles[d].None?
  {
    PawnMovesMembership(pawn, tiles, ep, PawnJump(q, d));
  }

  /** A diagonal capture is emitted exactly against an opposing occupant of
      an unguarded diagonal square, wrapped as a promotion on the far row. */
  lemma CaptureRule(pawn: Piece, tiles: seq<Option<Piece>>, ep: Option<Piece>, q: Piece, d: int, c: Piece)
    requires OnBoard(pawn, tiles)
    ensures PawnAttackMove(q, d, c) in PawnMoves(pawn, tiles, ep) <==>
              && q == pawn && DiagonalTarget(pawn, d) && tiles[d] == Some(c)
              && c.alliance != pawn.alliance && !IsPawnPromotionSquare(pawn.alliance, d)
    ensures PawnPromotion(PawnAttackMove(q, d, c)) in PawnMoves(pawn, tiles, ep) <==>
              && q == pawn && DiagonalTarget(pawn, d) && tiles[d] == Some(c)
              && c.alliance != pawn.alliance && IsPawnPromotionSquare(pawn.alliance, d)
  {
    PawnMovesMembership(pawn, tiles, ep, PawnAttackMove(q, d, c));
    PawnMovesMembership(pawn, tiles, ep, PawnPromotion(PawnAttackMove(q, d, c)));
  }

  /** En passant is emitted exactly onto an empty unguarded diagonal square
      when the board's en-passant pawn is an opponent on the matching square
      beside the pawn. */
  lemma EnPassantRule(pawn: Piece, tiles: seq<Option<Piece>>, ep: Option<Piece>, q: Piece, d: int, c: Piece)
    requires OnBoard(pawn, tiles)
    ensures PawnEnPassantAttack(q, d, c) in PawnMoves(pawn, tiles, ep) <==>
              && q == pawn && DiagonalTarget(pawn, d) && tiles[d].None? && ep == Some(c)
              && c.alliance != pawn.alliance && c.position == EnPassantSquare(pawn, d)
  {
    PawnMovesMembership(pawn, tiles, ep, PawnEnPassantAttack(q, d, c));
  }

  /** The pawn taken en passant stands on the capturer's row and on the
      destination's file, so the capture never wraps around a board edge. */
  lemma EnPassantVictimBeside(pawn: Piece, tiles: seq<Option<Piece>>, ep: Option<Piece>, d: int, c: Piece)
    requires OnBoard(pawn, tiles)
    requires PawnEnPassantAttack(pawn, d, c) in PawnMoves(pawn, tiles, ep)
    ensures Row(c.position) == Row(pawn.position) && Column(c.position) == Column(d)
  {
    EnPassantRule(pawn, tiles, ep, pawn, d, c);
  }

  /** A move is wrapped as a promotion exactly when it lands on the far row,
      except en passant, which is never wrapped; only pushes and captures are. */
  lemma PromotionWrapping(pawn: Piece, tiles: seq<Option<Piece>>, ep: Option<Piece>)
    requires OnBoard(pawn, tiles)
    ensures forall m :: m in PawnMoves(pawn, tiles, ep) ==>
              (m.PawnPromotion? <==>
                 IsPawnPromotionSquare(pawn.alliance, Destination(m)) && !m.PawnEnPassantAttack?)
    ensures forall m :: m in PawnMoves(pawn, tiles, ep) && m.PawnPromotion? ==>
              m.decorated.PawnMove? || m.decorated.PawnAttackMove?
  {
    forall m | m in PawnMoves(pawn, tiles, ep)
      ensures m.PawnPromotion? <==> IsPawnPromotionSquare(pawn.alliance, Destination(m)) && !m.PawnEnPassantAttack?
      ensures m.PawnPromotion? ==> m.decorated.PawnMove? || m.decorated.PawnAttackMove?
    {
      PawnMovesMembership(pawn, tiles, ep, m);
    }
  }

  /** A pawn moved by any of its moves is rebuilt on the destination with its
      first-move flag still set; unless it started on its own back row it
      can never double-push again, because it has left its starting row. */
  lemma MovedPawnCannotJumpAgain(pawn: Piece, tiles: seq<Option<Piece>>, ep: Option<Piece>, m: Move,
                                 nextTiles: seq<Option<Piece>>, nextEp: Option<Piece>)
    requires OnBoard(pawn, tiles) && m in PawnMoves(pawn, tiles, ep)
    requires !IsPawnPromotionSquare(Opposite(pawn.alliance), pawn.position)
    requires |nextTiles| == NUM_TILES
    ensures MovePiece(pawn, m) == Piece(Pawn, pawn.alliance, Destination(m), true)
    ensures OnBoard(MovePiece(pawn, m), nextTiles)
    ensures forall j :: j in PawnMoves(MovePiece(pawn, m), nextTiles, nextEp) ==> !j.PawnJump?
  {
    PawnMovesGeometry(pawn, tiles, ep);
    var moved := MovePiece(pawn, m);
    assert !IsPawnStartingSquare(moved.alliance, moved.position);
    forall j | j in PawnMoves(moved, nextTiles, nextEp)
      ensures !j.PawnJump?
    {
      if j.PawnJump? {
        PawnJumpRule(moved, nextTiles, nextEp, j.piece, j.destination);
      }
    }
  }
}
