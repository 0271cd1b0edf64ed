/** The game that starts from a board read from a text. */
module Openings {
  import opened Basics
  import opened BoardText
  import opened Play

  /** The pieces read before square (row, col), in reading order. */
  function PiecesBefore(cells: map<Position, PieceData>, cols: nat, row: nat, col: nat): seq<PieceData>
    decreases row, col
  {
    if col > 0 then
      var p := Position(row, col - 1);
      PiecesBefore(cells, cols, row, col - 1) + if p in cells then [cells[p]] else []
    else if row > 0 then PiecesBefore(cells, cols, row - 1, cols)
    else []
  }

  /** The game that starts from a board, its pieces numbered in reading order. */
  function OpeningOf(v: View): Game {
    Game(v.rows, v.cols,
         map p | p in v.cells && v.InBounds(p) :: |PiecesBefore(v.cells, v.cols, p.row, p.col)|,
         PiecesBefore(v.cells, v.cols, v.rows, 0), [], 0, 0, 0, false, None)
  }

  lemma {:induction false} SamePiecesBefore(
    cells: map<Position, PieceData>, more: map<Position, PieceData>, cols: nat, row: nat, col: nat)
    requires forall p: Position | p.row < row || (p.row == row && p.col < col) ::
               (p in cells <==> p in more) && (p in cells ==> cells[p] == more[p])
    ensures PiecesBefore(cells, cols, row, col) == PiecesBefore(more, cols, row, col)
    decreases row, col
  {
    if col > 0 {
      SamePiecesBefore(cells, more, cols, row, col - 1);
    } else if row > 0 {
      SamePiecesBefore(cells, more, cols, row - 1, cols);
    }
  }

  /** The board v has been filled up to, but not including, square (row, col), and in g its pieces are
      numbered in reading order. */
  ghost predicate Numbered(v: View, g: Game, row: nat, col: nat) {
    && (forall p | p in v.cells :: v.InBounds(p) && (p.row < row || (p.row == row && p.col < col)))
    && g.grid.Keys == v.cells.Keys
    && (forall p | p in v.cells :: g.grid[p] == |PiecesBefore(v.cells, v.cols, p.row, p.col)|)
    && g.pieces == PiecesBefore(v.cells, v.cols, row, col)
  }

  /** An empty square changes no number, and neither does the end of a row. */
  lemma NumberedSkip(v: View, g: Game, row: nat, col: nat)
    requires Numbered(v, g, row, col)
    ensures Numbered(v, g, row, col + 1)
    ensures col == v.cols ==> Numbered(v, g, row + 1, 0)
  {
    assert Position(row, col) !in v.cells;
  }

  /** A new piece gets the next number, and the others keep theirs. */
  lemma NumberedAdd(v: View, g: Game, p: Position, data: PieceData)
    requires v.InBounds(p) && Numbered(v, g, p.row, p.col)
    ensures Numbered(v.(cells := v.cells[p := data]),
                     g.(grid := g.grid[p := |g.pieces|], pieces := g.pieces + [data]), p.row, p.col + 1)
  {
    hide PiecesBefore;
    var more := v.cells[p := data];
    forall q | q in more
      ensures PiecesBefore(v.cells, v.cols, q.row, q.col) == PiecesBefore(more, v.cols, q.row, q.col)
    {
      SamePiecesBefore(v.cells, more, v.cols, q.row, q.col);
    }
    NextPiece(more, v.cols, p);
  }

  lemma NextPiece(cells: map<Position, PieceData>, cols: nat, p: Position)
    requires 0 <= p.row && 0 <= p.col && p in cells
    ensures PiecesBefore(cells, cols, p.row, p.col + 1) == PiecesBefore(cells, cols, p.row, p.col) + [cells[p]]
  {
  }

  /** A piece is listed at its number. */
  lemma {:induction false} PieceAt(cells: map<Position, PieceData>, cols: nat, p: Position, row: nat, col: nat)
    requires 0 <= p.row && 0 <= p.col < cols && p in cells && col <= cols
    requires p.row < row || (p.row == row && p.col < col)
    ensures var i, ps := |PiecesBefore(cells, cols, p.row, p.col)|, PiecesBefore(cells, cols, row, col);
            i < |ps| && ps[i] == cells[p]
    decreases row, col
  {
    if p == Position(row, col - 1) {
    } else if col > 0 {
      PieceAt(cells, cols, p, row, col - 1);
    } else {
      PieceAt(cells, cols, p, row - 1, cols);
    }
  }

  lemma {:induction false} PieceListed(cells: map<Position, PieceData>, cols: nat, row: nat, col: nat, i: nat)
    returns (p: Position)
    requires i < |PiecesBefore(cells, cols, row, col)| && col <= cols
    ensures p in cells && 0 <= p.row && 0 <= p.col < cols && (p.row < row || (p.row == row && p.col < col))
    ensures |PiecesBefore(cells, cols, p.row, p.col)| == i && PiecesBefore(cells, cols, row, col)[i] == cells[p]
    decreases row, col
  {
    if col > 0 {
      if i == |PiecesBefore(cells, cols, row, col - 1)| {
        p := Position(row, col - 1);
      } else {
        p := PieceListed(cells, cols, row, col - 1, i);
      }
    } else {
      p := PieceListed(cells, cols, row - 1, cols, i);
    }
  }

  /** Later pieces have higher numbers. */
  lemma NumbersGrow(cells: map<Position, PieceData>, cols: nat, p: Position, q: Position)
    requires p in cells && q in cells && 0 <= p.row && 0 <= q.row && 0 <= p.col < cols && 0 <= q.col < cols
    ensures |PiecesBefore(cells, cols, p.row, p.col)| == |PiecesBefore(cells, cols, q.row, q.col)| ==> p == q
  {
    hide PiecesBefore;
    if p.row < q.row || (p.row == q.row && p.col < q.col) {
      PieceAt(cells, cols, p, q.row, q.col);
    } else if p != q {
      PieceAt(cells, cols, q, p.row, p.col);
    }
  }

  /** The opening shows the board it was made from. */
  lemma OpeningShows(v: View)
    requires forall p | p in v.cells :: v.InBounds(p)
    ensures Sound(OpeningOf(v)) && ViewOf(OpeningOf(v)) == v
  {
    hide PiecesBefore;
    var g := OpeningOf(v);
    forall p | p in v.cells ensures g.grid[p] < |g.pieces| && g.pieces[g.grid[p]] == v.cells[p] {
      PieceAt(v.cells, v.cols, p, v.rows, 0);
    }
  }

  /** A text that can be read is the start of a game: all pieces idle, each on exactly one square. */
  lemma OpeningIsInitial(lines: seq<string>)
    requires ParseBoard(lines).Ok?
    ensures var g := OpeningOf(ParseBoard(lines).value);
            Sound(g) && Initial(g) && ViewOf(g) == ParseBoard(lines).value
  {
    hide PiecesBefore, ParseBoard;
    var v := ParseBoard(lines).value;
    ParsedPrintable(lines, v);
    PrintableInBounds(v);
    OpeningShows(v);
    var g := OpeningOf(v);
    forall p, q | p in g.grid && q in g.grid && g.grid[p] == g.grid[q] ensures p == q {
      NumbersGrow(v.cells, v.cols, p, q);
    }
    forall i | 0 <= i < |g.pieces| ensures g.pieces[i].status.Idle? && exists p :: g.On(p, i) {
      var p := PieceListed(v.cells, v.cols, v.rows, 0, i);
      assert g.On(p, i);
    }
  }

  lemma PrintableInBounds(v: View)
    requires Printable(v)
    ensures forall p | p in v.cells :: v.InBounds(p)
  {
  }
}
