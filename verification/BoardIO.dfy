/** The parser and the printer as the program runs them, over board and piece objects. */
module BoardIO {
  import opened Basics
  import opened Objects
  import opened BoardText
  import opened Openings
  import opened Play
  import Engine

  /** Builds a board of fresh pieces, or reports the first fault: exactly as `ParseBoard` says. */
  method ParseInitialBoard(lines: seq<string>) returns (r: Parsed<Board>, ghost roster: seq<Piece>)
    ensures ParseBoard(lines).Err? ==> r == Err(ParseBoard(lines).error)
    ensures ParseBoard(lines).Ok? ==>
              && r.Ok? && fresh(r.value) && (forall q | q in roster :: fresh(q))
              && r.value.Seen() == ParseBoard(lines).value && Engine.Placed(r.value, roster)
              && Engine.Setup(r.value, roster) == OpeningOf(ParseBoard(lines).value)
  {
    hide Split, ParseToken, ParseRow, Engine.Placed, Engine.Setup, Numbered;
    roster := [];
    if lines == [] {
      var board := new Board(0, 0);
      EmptyPlaced(board);
      NumberedOpening(board, []);
      return Ok(board), [];
    }
    var cols := |Split(lines[0])|;
    var board := new Board(|lines|, cols);
    EmptyPlaced(board);
    for row := 0 to |lines|
      invariant Building(board, roster, row, 0) && fresh(board) && (forall q | q in roster :: fresh(q))
      invariant Numbered(board.Seen(), Engine.Setup(board, roster), row, 0)
      invariant ParseRows(lines, row, cols, board.Seen().cells) == ParseRows(lines, 0, cols, map[])
    {
      var tokens := Split(lines[row]);
      if |tokens| != cols { return Err(RowWidthMismatch), []; }
      var fault: Option<TextError>;
      fault, roster := ParseLine(board, tokens, row, roster);
      if fault.Some? { return Err(fault.value), []; }
    }
    NumberedOpening(board, roster);
    return Ok(board), roster;
  }

  lemma EmptyPlaced(board: Board)
    requires board.grid == map[]
    ensures Engine.Placed(board, []) && board.Seen() == View(board.rows, board.cols, map[])
    ensures Numbered(board.Seen(), Engine.Setup(board, []), 0, 0)
  {
  }

  lemma NumberedOpening(board: Board, roster: seq<Piece>)
    requires Engine.Placed(board, roster) && Numbered(board.Seen(), Engine.Setup(board, roster), board.rows, 0)
    ensures Engine.Setup(board, roster) == OpeningOf(board.Seen())
  {
  }

  /** The inner loop: one line of tokens. */
  method ParseLine(board: Board, tokens: seq<string>, row: nat, ghost roster: seq<Piece>)
    returns (fault: Option<TextError>, ghost more: seq<Piece>)
    requires row < board.rows && |tokens| == board.cols && Building(board, roster, row, 0)
    requires Numbered(board.Seen(), Engine.Setup(board, roster), row, 0)
    modifies board
    ensures match ParseRow(tokens, row, 0, old(board.Seen()).cells)
            case Err(e) => fault == Some(e)
            case Ok(cells) =>
              && fault == None && Building(board, more, row + 1, 0) && board.Seen().cells == cells
              && Numbered(board.Seen(), Engine.Setup(board, more), row + 1, 0)
    ensures (forall q | q in more && q !in roster :: fresh(q))
  {
    hide ParseToken, Engine.Placed, Engine.Setup, Numbered;
    ghost var before := board.Seen().cells;
    more, fault := roster, None;
    for col := 0 to |tokens|
      invariant Building(board, more, row, col) && Numbered(board.Seen(), Engine.Setup(board, more), row, col)
      invariant (forall q | q in more && q !in roster :: fresh(q))
      invariant ParseRow(tokens, row, col, board.Seen().cells) == ParseRow(tokens, row, 0, before)
    {
      var token := tokens[col];
      ghost var v, g := board.Seen(), Engine.Setup(board, more);
      NumberedSkip(v, g, row, col);
      if token != "." {
        var parsed := ParseToken(token);
        if parsed.Err? { fault := Some(parsed.error); return; }
        ParsedIdle(token);
        NumberedAdd(v, g, Position(row, col), parsed.value);
        more := AddPiece(board, Position(row, col), parsed.value, more);
      }
    }
    NumberedSkip(board.Seen(), Engine.Setup(board, more), row, |tokens|);
  }

  lemma ParsedIdle(token: string)
    ensures ParseToken(token).Ok? ==> ParseToken(token).value.status.Idle?
  {
  }

  /** The board filled up to, but not including, square (row, col), in reading order. */
  ghost predicate Building(board: Board, roster: seq<Piece>, row: nat, col: nat)
    reads board, roster
  {
    && row <= board.rows && col <= board.cols
    && Engine.Placed(board, roster)
    && forall p | p in board.grid :: p.row < row || (p.row == row && p.col < col)
  }

  method AddPiece(board: Board, p: Position, data: PieceData, ghost roster: seq<Piece>)
    returns (ghost more: seq<Piece>)
    requires Engine.Placed(board, roster) && board.InBounds(p) && p !in board.grid && data.status.Idle?
    modifies board
    ensures Engine.Placed(board, more) && forall q | q in more && q !in roster :: fresh(q)
    ensures var g := old(Engine.Setup(board, roster));
            Engine.Setup(board, more) == g.(grid := g.grid[p := |g.pieces|], pieces := g.pieces + [data])
    ensures board.Seen() == old(board.Seen()).(cells := old(board.Seen()).cells[p := data])
    ensures board.grid.Keys == old(board.grid).Keys + {p}
  {
    hide Engine.PlacedOn, Engine.Setup;
    ghost var g := Engine.Setup(board, roster);
    SetupIs(board, roster);
    var piece := new Piece(data.pieceId, data.color, data.kind, |roster|);
    ghost var was := board.grid;
    board.SetPiece(p, piece);
    more := roster + [piece];
    StillPlaced(was, p, piece, roster);
    SetupAdd(board, was, roster, piece, p, g);
  }

  lemma SetupIs(board: Board, roster: seq<Piece>)
    ensures var g := Engine.Setup(board, roster);
            && g == Game(board.rows, board.cols, g.grid, g.pieces, [], 0, 0, 0, false, None)
            && g.grid == (map q | q in board.grid :: board.grid[q].tag)
            && |g.pieces| == |roster| && forall i | 0 <= i < |roster| :: g.pieces[i] == roster[i].Data()
  {
  }

  lemma SetupAdd(board: Board, was: map<Position, Piece>, roster: seq<Piece>, piece: Piece, p: Position, g: Game)
    requires board.grid == was[p := piece] && piece.tag == |roster|
    requires g == Game(board.rows, board.cols, g.grid, g.pieces, [], 0, 0, 0, false, None)
    requires g.grid == map q | q in was :: was[q].tag
    requires |g.pieces| == |roster| && forall i | 0 <= i < |roster| :: g.pieces[i] == roster[i].Data()
    ensures Engine.Setup(board, roster + [piece])
            == g.(grid := g.grid[p := |g.pieces|], pieces := g.pieces + [piece.Data()])
  {
    var h := Engine.Setup(board, roster + [piece]);
    assert h.grid == g.grid[p := |g.pieces|];
    assert h.pieces == g.pieces + [piece.Data()];
  }

  /** Putting one new idle piece on an empty square keeps the pieces placed. */
  lemma StillPlaced(grid: map<Position, Piece>, p: Position, piece: Piece, roster: seq<Piece>)
    requires Engine.PlacedOn(grid, roster) && p !in grid
    requires piece !in roster && piece.tag == |roster| && piece.status.Idle?
    ensures Engine.PlacedOn(grid[p := piece], roster + [piece])
  {
    var now, more := grid[p := piece], roster + [piece];
    assert forall q | q in grid :: grid[q] in roster && now[q] == grid[q];
    forall i | 0 <= i < |more|
      ensures more[i].tag == i && more[i].status.Idle? && exists q :: q in now && now[q] == more[i]
    {
      if i < |roster| {
        assert roster[i].tag == i && exists q :: q in grid && grid[q] == roster[i];
        var q :| q in grid && grid[q] == roster[i];
        assert now[q] == more[i];
      } else {
        assert now[p] == piece;
      }
    }
  }

  /** One printed line per row: the pieces' labels and dots, separated by single spaces. */
  method PrintBoard(board: Board) returns (lines: seq<string>)
    ensures lines == BoardText.PrintBoard(board.Seen())
  {
    ghost var v := board.Seen();
    lines := [];
    for r := 0 to board.rows
      invariant |lines| == r && forall i | 0 <= i < r :: lines[i] == Join(RowTokens(v, i))
    {
      var rowTokens := [];
      for c := 0 to board.cols
        invariant |rowTokens| == c && forall j | 0 <= j < c :: rowTokens[j] == Token(v, r, j)
      {
        var piece := board.GetPiece(Position(r, c));
        rowTokens := rowTokens + [if piece != null then piece.pieceId else "."];
      }
      assert rowTokens == RowTokens(v, r);
      lines := lines + [Join(rowTokens)];
    }
  }

  /** Reads the opening from the lines of a file. */
  class InputTxtBoardLoader {
    const file: seq<string>

    constructor (file: seq<string>)
      ensures this.file == file
    {
      this.file := file;
    }

    function Lines(): seq<string> {
      BoardLines(file, false)
    }

    method ReadLines() returns (boardLines: seq<string>)
      ensures boardLines == Lines()
    {
      hide Strip;
      boardLines := [];
      var inBoard := false;
      assert file[0..] == file;
      for i := 0 to |file|
        invariant boardLines + BoardLines(file[i..], inBoard) == Lines()
      {
        var cleaned := Strip(file[i]);
        assert file[i..][1..] == file[i + 1..];
        if cleaned == "Board:" {
          inBoard := true;
          continue;
        }
        if "Commands:" <= cleaned { return; }
        LineRead(file, i, inBoard);
        if inBoard && cleaned != [] { boardLines := boardLines + [file[i]]; }
      }
      assert file[|file|..] == [];
    }

    method Load() returns (r: Parsed<Board>, ghost roster: seq<Piece>)
      ensures ParseBoard(Lines()).Err? ==> r == Err(ParseBoard(Lines()).error)
      ensures ParseBoard(Lines()).Ok? ==>
                && r.Ok? && fresh(r.value) && (forall q | q in roster :: fresh(q))
                && Engine.Placed(r.value, roster)
                && Engine.Setup(r.value, roster) == OpeningOf(ParseBoard(Lines()).value)
    {
      hide ParseBoard, OpeningOf, Engine.Placed, Engine.Setup, BoardLines;
      var lines := ReadLines();
      r, roster := ParseInitialBoard(lines);
    }
  }
}
