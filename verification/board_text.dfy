/** The text form of a board: the 64 tiles in index order, each tile's text
    right-justified to width three, with a line break closing every row of
    eight, so that the board reads as eight lines from Black's back rank to
    White's. */
module BoardText {
  import opened Engine

  /** The text of one tile (its rendering is not part of this model). */
  type TileText = Option<Piece> -> string

  /** Right-justifies a text in a field of width three, as a "%3s" format
      does; longer texts are kept whole. */
  function Pad3(s: string): (r: string)
    ensures |r| == if |s| < 3 then 3 else |s|
  {
    if |s| == 0 then "   " else if |s| == 1 then "  " + s else if |s| == 2 then " " + s else s
  }

  /** The padded text ends with the text itself, preceded only by spaces. */
  lemma Pad3Shape(s: string)
    ensures Pad3(s)[|Pad3(s)| - |s|..] == s
    ensures forall k :: 0 <= k < |Pad3(s)| - |s| ==> Pad3(s)[k] == ' '
  {
  }

  /** The padded texts of tiles lo .. hi - 1, run together. */
  function PaddedRun(tiles: seq<Option<Piece>>, tileText: TileText, lo: nat, hi: nat): string
    requires lo <= hi <= |tiles|
    decreases hi - lo
  {
    if hi == lo then "" else PaddedRun(tiles, tileText, lo, hi - 1) + Pad3(tileText(tiles[hi - 1]))
  }

  /** Line r of the text: the eight padded texts of row r and a line break. */
  function Line(tiles: seq<Option<Piece>>, tileText: TileText, r: nat): string
    requires 8 * r + 8 <= |tiles|
  {
    PaddedRun(tiles, tileText, 8 * r, 8 * r + 8) + "\n"
  }

  /** The first k lines, in row order. */
  function Lines(tiles: seq<Option<Piece>>, tileText: TileText, k: nat): string
    requires 8 * k <= |tiles|
  {
    if k == 0 then "" else Lines(tiles, tileText, k - 1) + Line(tiles, tileText, k - 1)
  }

  /** What is written once the first `row` lines and tiles 8 * row .. i - 1
      of the next row are rendered. */
  function Prefix(tiles: seq<Option<Piece>>, tileText: TileText, row: nat, i: nat): string
    requires 8 * row <= i <= |tiles|
  {
    Lines(tiles, tileText, row) + PaddedRun(tiles, tileText, 8 * row, i)
  }

  /** Renders the 64 tiles row by row: eight lines, each the row's eight
      tile texts right-justified to width three, closed by a line break. */
  method ToString(board: Board, tileText: TileText) returns (s: string)
    requires |board.tiles| == NUM_TILES
    ensures s == Lines(board.tiles, tileText, |board.tiles| / 8)
  {
    s := "";
    ghost var row, column := 0, 0;
    for i := 0 to NUM_TILES
      invariant i == 8 * row + column && 0 <= column < 8
      invariant s == Prefix(board.tiles, tileText, row, i)
    {
      s, row, column := AppendTile(s, board.tiles, tileText, i, row, column);
    }
    LastRow(row, column);
    AllLinesWritten(board.tiles, tileText, row);
  }

  /** All 64 tiles written means all eight rows are closed. */
  lemma LastRow(row: nat, column: nat)
    requires 8 * row + column == NUM_TILES && column < 8
    ensures row == NUM_TILES / 8
  {
  }

  /** One step of the rendering: tile i, in column `column` of row `row`,
      is appended padded to width three, and a line break after it when it
      closes its row; the next tile's row and column are returned. */
  method AppendTile(s: string, tiles: seq<Option<Piece>>, tileText: TileText, i: nat, ghost row: nat, ghost column: nat)
    returns (t: string, ghost nextRow: nat, ghost nextColumn: nat)
    requires i == 8 * row + column && column < 8 && i < |tiles| && 8 * row + 8 <= |tiles|
    requires s == Prefix(tiles, tileText, row, i)
    ensures i + 1 == 8 * nextRow + nextColumn && nextColumn < 8
    ensures t == Prefix(tiles, tileText, nextRow, i + 1)
  {
    var text := tileText(tiles[i]);
    t := s + Pad3(text);
    assert t == Prefix(tiles, tileText, row, i + 1) by {
      TileAppended(tiles, tileText, row, i);
    }
    // 8 is NUM_TILES_PER_ROW, written as a literal so the test stays linear
    if (i + 1) % 8 == 0 {
      assert column == 7 by {
        RowEnd(i, row, column);
      }
      LineClosed(tiles, tileText, row, i + 1);
      t := t + "\n";
      nextRow, nextColumn := row + 1, 0;
    } else {
      assert column < 7 by {
        RowEnd(i, row, column);
      }
      nextRow, nextColumn := row, column + 1;
    }
  }

  /** Once the last row is closed nothing of a further row is written. */
  lemma AllLinesWritten(tiles: seq<Option<Piece>>, tileText: TileText, row: nat)
    requires 8 * row <= |tiles|
    ensures Prefix(tiles, tileText, row, 8 * row) == Lines(tiles, tileText, row)
  {
    assert PaddedRun(tiles, tileText, 8 * row, 8 * row) == "";
  }

  /** Rendering one more tile of the current row extends the row's run. */
  lemma TileAppended(tiles: seq<Option<Piece>>, tileText: TileText, row: nat, i: nat)
    requires 8 * row <= i < |tiles|
    ensures Prefix(tiles, tileText, row, i) + Pad3(tileText(tiles[i])) == Prefix(tiles, tileText, row, i + 1)
  {
    assert PaddedRun(tiles, tileText, 8 * row, i + 1)
           == PaddedRun(tiles, tileText, 8 * row, i) + Pad3(tileText(tiles[i]));
  }

  /** A full row's run followed by a line break completes one more line. */
  lemma LineClosed(tiles: seq<Option<Piece>>, tileText: TileText, row: nat, end: nat)
    requires end == 8 * row + 8 && end <= |tiles|
    ensures Prefix(tiles, tileText, row, end) + "\n" == Prefix(tiles, tileText, row + 1, end)
  {
    assert PaddedRun(tiles, tileText, 8 * (row + 1), end) == "";
  }

  /** The tile after column c of row r ends a row exactly when c is the
      last column. */
  lemma RowEnd(i: int, r: nat, c: nat)
    requires i == 8 * r + c && c < 8
    ensures (i + 1) % 8 == 0 <==> c == 7
  {
  }

  /** Every line is its eight tiles at width at least three, then a break. */
  lemma {:induction false} LineShape(tiles: seq<Option<Piece>>, tileText: TileText, r: nat)
    requires 8 * r + 8 <= |tiles|
    ensures |Line(tiles, tileText, r)| >= 25
    ensures Line(tiles, tileText, r)[|Line(tiles, tileText, r)| - 1] == '\n'
  {
    RunLength(tiles, tileText, 8 * r, 8 * r + 8);
  }

  lemma {:induction false} RunLength(tiles: seq<Option<Piece>>, tileText: TileText, lo: nat, hi: nat)
    requires lo <= hi <= |tiles|
    ensures |PaddedRun(tiles, tileText, lo, hi)| >= 3 * (hi - lo)
    decreases hi - lo
  {
    if hi > lo {
      RunLength(tiles, tileText, lo, hi - 1);
      var text := Pad3(tileText(tiles[hi - 1]));
      assert |PaddedRun(tiles, tileText, lo, hi)| == |PaddedRun(tiles, tileText, lo, hi - 1)| + |text|;
    }
  }

  /** Tile texts without line breaks give a run without line breaks. */
  lemma {:induction false} RunHasNoBreak(tiles: seq<Option<Piece>>, tileText: TileText, lo: nat, hi: nat)
    requires lo <= hi <= |tiles|
    requires forall t :: '\n' !in tileText(t)
    ensures '\n' !in PaddedRun(tiles, tileText, lo, hi)
    decreases hi - lo
  {
    if hi > lo {
      RunHasNoBreak(tiles, tileText, lo, hi - 1);
      var text := tileText(tiles[hi - 1]);
      assert '\n' !in Pad3(text);
    }
  }

  /** When no tile text holds a line break, the break closing a line is the
      only one in it. */
  lemma LineBreakOnlyAtEnd(tiles: seq<Option<Piece>>, tileText: TileText, r: nat)
    requires 8 * r + 8 <= |tiles|
    requires forall t :: '\n' !in tileText(t)
    ensures var line := Line(tiles, tileText, r);
            |line| > 0 && line[|line| - 1] == '\n' && '\n' !in line[..|line| - 1]
  {
    RunHasNoBreak(tiles, tileText, 8 * r, 8 * r + 8);
    var run := PaddedRun(tiles, tileText, 8 * r, 8 * r + 8);
    assert Line(tiles, tileText, r)[..|Line(tiles, tileText, r)| - 1] == run;
  }

  /** A text of k lines is at least 25 characters per line and ends with a
      line break. */
  lemma {:induction false} TextEndsWithBreak(tiles: seq<Option<Piece>>, tileText: TileText, k: nat)
    requires 0 < k && 8 * k <= |tiles|
    ensures |Lines(tiles, tileText, k)| >= 25 * k
    ensures Lines(tiles, tileText, k)[|Lines(tiles, tileText, k)| - 1] == '\n'
  {
    LineShape(tiles, tileText, k - 1);
    if k > 1 {
      TextEndsWithBreak(tiles, tileText, k - 1);
    }
  }
}
