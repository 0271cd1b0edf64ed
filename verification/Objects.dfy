/** The mutable objects of the game: pieces, the board, motions and the scoreboard. */
module Objects {
  import opened Basics
  import opened Flights
  import Play

  /** A piece is compared by identity. `tag` is its number in the value model. */
  class Piece {
    var pieceId: string
    const color: Color
    var kind: Kind
    var status: Status
    ghost const tag: nat

    constructor (pieceId: string, color: Color, kind: Kind, ghost tag: nat)
      ensures Data() == PieceData(pieceId, color, kind, Idle) && this.tag == tag
    {
      this.pieceId, this.color, this.kind, this.status, this.tag := pieceId, color, kind, Idle, tag;
    }

    function Data(): PieceData
      reads this
    {
      PieceData(pieceId, color, kind, status)
    }
  }

  /** A sparse grid: a dictionary from squares to pieces. */
  class Board {
    const rows: nat
    const cols: nat
    var grid: map<Position, Piece>

    constructor (rows: nat, cols: nat)
      ensures this.rows == rows && this.cols == cols && grid == map[]
    {
      this.rows, this.cols, grid := rows, cols, map[];
    }

    function GetPiece(p: Position): Piece?
      reads this
    {
      if p in grid then grid[p] else null
    }

    method SetPiece(p: Position, piece: Piece?)
      modifies this
      ensures piece == null ==> grid == old(grid) - {p}
      ensures piece != null ==> grid == old(grid)[p := piece]
    {
      if piece == null {
        grid := grid - {p};
      } else {
        grid := grid[p := piece];
      }
    }

    predicate InBounds(p: Position) {
      0 <= p.row < rows && 0 <= p.col < cols
    }

    ghost predicate AllInBounds()
      reads this
    {
      forall p | p in grid :: InBounds(p)
    }

    /** The board as the move rules see it. */
    ghost function Seen(): View
      reads this, grid.Values
    {
      View(rows, cols, map p | p in grid :: grid[p].Data())
    }
  }

  class Motion {
    const id: nat
    const piece: Piece
    const start: Position
    const end: Position
    var remaining: int
    const duration: int
    const isJump: bool

    constructor (id: nat, piece: Piece, start: Position, end: Position, ms: int, isJump: bool)
      ensures this.piece == piece && Value() == Flight(id, piece.tag, start, end, ms, ms, isJump)
    {
      this.id, this.piece, this.start, this.end := id, piece, start, end;
      this.remaining, this.duration, this.isJump := ms, ms, isJump;
    }

    ghost function Value(): Flight
      reads this
    {
      Flight(id, piece.tag, start, end, remaining, duration, isJump)
    }

    /** What the sort keys look at. */
    function Key(): Flight
      reads this
    {
      Flight(id, 0, start, end, remaining, duration, isJump)
    }
  }

  ghost function Values(q: seq<Motion>): (r: seq<Flight>)
    reads q
    ensures |r| == |q| && forall i | 0 <= i < |q| :: r[i] == q[i].Value()
  {
    seq(|q|, i requires 0 <= i < |q| reads q => q[i].Value())
  }

  ghost predicate Apart(q: seq<Motion>) {
    forall i, j | 0 <= i < j < |q| :: q[i] != q[j]
  }

  /** The decimal digits of n. */
  function Digits(n: nat): string {
    if n < 10 then ["0123456789"[n]] else Digits(n / 10) + ["0123456789"[n % 10]]
  }

  function Decimal(n: int): string {
    if n < 0 then "-" + Digits(-n) else Digits(n)
  }

  function Letter(k: Kind): string {
    match k
    case King => "K"
    case Queen => "Q"
    case Rook => "R"
    case Bishop => "B"
    case Knight => "N"
    case Pawn => "P"
  }

  function SquareText(p: Position): string {
    "(" + Decimal(p.row) + "," + Decimal(p.col) + ")"
  }

  function JumpText(k: Kind, p: Position): string {
    Letter(k) + " jump " + SquareText(p)
  }

  function MoveText(k: Kind, start: Position, end: Position): string {
    Letter(k) + " " + SquareText(start) + "->" + SquareText(end)
  }

  class Scoreboard {
    var white: nat
    var black: nat
    var whiteMoves: seq<string>
    var blackMoves: seq<string>

    constructor ()
      ensures white == 0 && black == 0 && whiteMoves == [] && blackMoves == []
    {
      white, black, whiteMoves, blackMoves := 0, 0, [], [];
    }

    /** The moves of colour c, in the order in which they were accepted. */
    function Moves(c: Color): seq<string>
      reads this
    {
      if c.White? then whiteMoves else blackMoves
    }

    method AddMove(c: Color, text: string) returns (moves: seq<string>)
      modifies this`whiteMoves, this`blackMoves
      ensures Moves(c) == old(Moves(c)) + [text] && Moves(c.Other()) == old(Moves(c.Other()))
      ensures moves == Moves(c)
    {
      if c.White? {
        whiteMoves := whiteMoves + [text];
        moves := whiteMoves;
      } else {
        blackMoves := blackMoves + [text];
        moves := blackMoves;
      }
    }

    method AddCapturePoints(capturer: Color, captured: Kind) returns (score: nat)
      modifies this`white, this`black
      ensures capturer.White? ==> white == old(white) + Play.PieceValue(captured) && black == old(black)
      ensures capturer.Black? ==> black == old(black) + Play.PieceValue(captured) && white == old(white)
      ensures score == if capturer.White? then white else black
    {
      if capturer.White? {
        white := white + Play.PieceValue(captured);
        score := white;
      } else {
        black := black + Play.PieceValue(captured);
        score := black;
      }
    }
  }
}
