/** Move generation by scanning the board, proved to reach exactly the squares the rules describe. */
module PieceRules {
  import opened Basics
  import opened MoveRules
  import opened Objects

  const STRAIGHT := [(0, 1), (0, -1), (1, 0), (-1, 0)]
  const DIAGONAL := [(1, 1), (1, -1), (-1, 1), (-1, -1)]

  lemma WithinSpan(board: Board, start: Position, k: nat, dr: int, dc: int)
    requires -1 <= dr <= 1 && -1 <= dc <= 1 && (dr != 0 || dc != 0)
    requires board.InBounds(start) && board.InBounds(start.Step(k, dr, dc))
    ensures k < board.rows + board.cols
  {
  }

  /** Nothing on the ray lies beyond a square that is off the board or not passable. */
  lemma RayStops(v: View, c: Color, a: Position, k: nat, dr: int, dc: int)
    requires -1 <= dr <= 1 && -1 <= dc <= 1 && (dr != 0 || dc != 0) && 1 <= k && v.InBounds(a)
    ensures forall b | RayReach(v, c, a, b, dr, dc) && k <= Distance(a, b) ::
              && v.InBounds(a.Step(k, dr, dc))
              && (k < Distance(a, b) ==> Passable(v, a.Step(k, dr, dc)))
              && (k == Distance(a, b) ==> b == a.Step(k, dr, dc))
  {
  }

  lemma RaysStartBeyond(v: View, c: Color, a: Position, dr: int, dc: int)
    requires dr != 0 || dc != 0
    ensures forall b | RayReach(v, c, a, b, dr, dc) :: 1 <= Distance(a, b)
  {
  }

  lemma RayGoesOn(v: View, c: Color, a: Position, k: nat, dr: int, dc: int)
    requires -1 <= dr <= 1 && -1 <= dc <= 1 && (dr != 0 || dc != 0) && 1 <= k
    requires v.InBounds(a.Step(k, dr, dc)) && forall j | 1 <= j < k :: Passable(v, a.Step(j, dr, dc))
    ensures Distance(a, a.Step(k, dr, dc)) == k
    ensures RayReach(v, c, a, a.Step(k, dr, dc), dr, dc) <==>
            Passable(v, a.Step(k, dr, dc)) || Enemy(v, c, a.Step(k, dr, dc))
  {
  }

  /** One ray of a slider of colour c on `start`: walk until the edge or the first piece on the ground. */
  method ScanRay(board: Board, start: Position, c: Color, dr: int, dc: int) returns (moves: set<Position>)
    requires -1 <= dr <= 1 && -1 <= dc <= 1 && (dr != 0 || dc != 0) && board.InBounds(start)
    ensures forall b :: b in moves <==> RayReach(board.Seen(), c, start, b, dr, dc)
  {
    hide RayReach, Distance, Position.Step;
    ghost var v := board.Seen();
    moves := {};
    var r, s := start.row + dr, start.col + dc;
    ghost var k := 1;
    StepOnce(start, 0, dr, dc);
    RaysStartBeyond(v, c, start, dr, dc);
    while board.InBounds(Position(r, s))
      invariant 1 <= k && Position(r, s) == start.Step(k, dr, dc)
      invariant forall j | 1 <= j < k :: Passable(v, start.Step(j, dr, dc))
      invariant forall b :: b in moves <==> RayReach(v, c, start, b, dr, dc) && Distance(start, b) < k
      decreases board.rows + board.cols - k
    {
      var at := Position(r, s);
      WithinSpan(board, start, k, dr, dc);
      RayGoesOn(v, c, start, k, dr, dc);
      RayStops(v, c, start, k, dr, dc);
      var target := board.GetPiece(at);
      assert target != null ==> at in v.cells && v.cells[at] == target.Data();
      if target == null || target.status.Moving? {
        moves := moves + {at};
      } else {
        if target.color != c {
          moves := moves + {at};
        }
        return;
      }
      StepOnce(start, k, dr, dc);
      r, s, k := r + dr, s + dc, k + 1;
    }
    RayStops(v, c, start, k, dr, dc);
  }

  lemma StepOnce(a: Position, k: int, dr: int, dc: int)
    ensures a.Step(k + 1, dr, dc) == Position(a.Step(k, dr, dc).row + dr, a.Step(k, dr, dc).col + dc)
    ensures a.Step(0, dr, dc) == a
  {
  }

  ghost predicate OnSomeRay(v: View, c: Color, a: Position, b: Position, dirs: seq<(int, int)>) {
    exists d :: d in dirs && RayReach(v, c, a, b, d.0, d.1)
  }

  lemma OneMoreRay(v: View, c: Color, a: Position, dirs: seq<(int, int)>, i: nat)
    requires i < |dirs|
    ensures forall b :: OnSomeRay(v, c, a, b, dirs[..i + 1]) <==>
                        OnSomeRay(v, c, a, b, dirs[..i]) || RayReach(v, c, a, b, dirs[i].0, dirs[i].1)
  {
  }

  lemma StraightRays(v: View, c: Color, a: Position, b: Position)
    ensures OnSomeRay(v, c, a, b, STRAIGHT) <==> Straight(a, b) && SlideReach(v, c, a, b)
  {
  }

  lemma DiagonalRays(v: View, c: Color, a: Position, b: Position)
    ensures OnSomeRay(v, c, a, b, DIAGONAL) <==> Diagonal(a, b) && SlideReach(v, c, a, b)
  {
  }

  /** All rays of one slider, in the order of the direction list. */
  method ScanRays(board: Board, start: Position, c: Color, dirs: seq<(int, int)>) returns (moves: set<Position>)
    requires board.InBounds(start)
    requires forall i | 0 <= i < |dirs| ::
               -1 <= dirs[i].0 <= 1 && -1 <= dirs[i].1 <= 1 && (dirs[i].0 != 0 || dirs[i].1 != 0)
    ensures forall b :: b in moves <==> OnSomeRay(board.Seen(), c, start, b, dirs)
  {
    hide RayReach, OnSomeRay;
    moves := {};
    NoRays(board.Seen(), c, start);
    for i := 0 to |dirs|
      invariant forall b :: b in moves <==> OnSomeRay(board.Seen(), c, start, b, dirs[..i])
    {
      var ray := ScanRay(board, start, c, dirs[i].0, dirs[i].1);
      OneMoreRay(board.Seen(), c, start, dirs, i);
      moves := moves + ray;
    }
    assert dirs[..|dirs|] == dirs;
  }

  lemma NoRays(v: View, c: Color, a: Position)
    ensures forall b :: !OnSomeRay(v, c, a, b, [])
  {
  }

  /** The rook's moves: exactly the squares in reach along ranks and files. */
  method GetStraightMoves(board: Board, start: Position) returns (moves: set<Position>)
    requires board.AllInBounds()
    ensures forall b :: b in moves <==> StraightReach(board.Seen(), start, b)
  {
    hide RayReach, OnSomeRay, SlideReach;
    var piece := board.GetPiece(start);
    if piece == null { return {}; }
    moves := ScanRays(board, start, piece.color, STRAIGHT);
    forall b ensures b in moves <==> StraightReach(board.Seen(), start, b) {
      StraightRays(board.Seen(), piece.color, start, b);
    }
  }

  /** The bishop's moves: exactly the squares in reach along diagonals. */
  method GetDiagonalMoves(board: Board, start: Position) returns (moves: set<Position>)
    requires board.AllInBounds()
    ensures forall b :: b in moves <==> DiagonalReach(board.Seen(), start, b)
  {
    hide RayReach, OnSomeRay, SlideReach;
    var piece := board.GetPiece(start);
    if piece == null { return {}; }
    moves := ScanRays(board, start, piece.color, DIAGONAL);
    forall b ensures b in moves <==> DiagonalReach(board.Seen(), start, b) {
      DiagonalRays(board.Seen(), piece.color, start, b);
    }
  }

  const KNIGHT := [(-2, -1), (-2, 1), (-1, -2), (-1, 2), (1, -2), (1, 2), (2, -1), (2, 1)]
  const KING := [(-1, -1), (-1, 0), (-1, 1), (0, -1), (0, 1), (1, -1), (1, 0), (1, 1)]

  ghost predicate Hops(v: View, c: Color, a: Position, b: Position, offsets: seq<(int, int)>) {
    v.InBounds(b) && !Friend(v, c, b) && (b.row - a.row, b.col - a.col) in offsets
  }

  /** Fixed offsets: the squares on the board that are empty or hold an enemy, airborne or not. */
  method ScanOffsets(board: Board, start: Position, c: Color, offsets: seq<(int, int)>)
    returns (moves: set<Position>)
    ensures forall b :: b in moves <==> Hops(board.Seen(), c, start, b, offsets)
  {
    moves := {};
    for i := 0 to |offsets|
      invariant forall b :: b in moves <==> Hops(board.Seen(), c, start, b, offsets[..i])
    {
      var to := Position(start.row + offsets[i].0, start.col + offsets[i].1);
      assert offsets[..i + 1] == offsets[..i] + [offsets[i]];
      if board.InBounds(to) {
        var target := board.GetPiece(to);
        if target == null || target.color != c {
          moves := moves + {to};
        }
      }
    }
    assert offsets[..|offsets|] == offsets;
  }

  lemma KnightHops(a: Position, b: Position)
    ensures (b.row - a.row, b.col - a.col) in KNIGHT <==> {Abs(b.row - a.row), Abs(b.col - a.col)} == {1, 2}
  {
  }

  method GetKnightMoves(board: Board, start: Position) returns (moves: set<Position>)
    ensures forall b :: b in moves <==> KnightReach(board.Seen(), start, b)
  {
    var piece := board.GetPiece(start);
    if piece == null { return {}; }
    moves := ScanOffsets(board, start, piece.color, KNIGHT);
    forall b ensures b in moves <==> KnightReach(board.Seen(), start, b) {
      KnightHops(start, b);
    }
  }

  method GetKingMoves(board: Board, start: Position) returns (moves: set<Position>)
    ensures forall b :: b in moves <==> KingReach(board.Seen(), start, b)
  {
    var piece := board.GetPiece(start);
    if piece == null { return {}; }
    moves := ScanOffsets(board, start, piece.color, KING);
  }

  /** The pawn's moves: one step onto an empty square, two from its home row over empty squares, and
      diagonally forward onto an enemy. */
  method GetPawnMoves(board: Board, start: Position) returns (moves: set<Position>)
    ensures forall b :: b in moves <==> PawnReach(board.Seen(), start, b)
  {
    ghost var v := board.Seen();
    moves := {};
    var piece := board.GetPiece(start);
    if piece == null { return; }
    moves := GetPawnSteps(board, start, piece);
    var sides := [-1, 1];
    for i := 0 to |sides|
      invariant forall b :: b in moves <==>
                  (PawnSteps(v, start, b) ||
                   (i > 0 && PawnTakes(v, start, b, -1)) || (i > 1 && PawnTakes(v, start, b, 1)))
    {
      hide PawnSteps;
      var direction := if piece.color.White? then -1 else 1;
      var to := Position(start.row + direction, start.col + sides[i]);
      if board.InBounds(to) {
        var target := board.GetPiece(to);
        if target != null && target.color != piece.color { moves := moves + {to}; }
      }
    }
  }

  method GetPawnSteps(board: Board, start: Position, piece: Piece) returns (moves: set<Position>)
    requires board.GetPiece(start) == piece
    ensures forall b :: b in moves <==> PawnSteps(board.Seen(), start, b)
  {
    moves := {};
    var direction := if piece.color.White? then -1 else 1;
    var startRow := if piece.color.White? then board.rows - 2 else 1;
    var oneStep := Position(start.row + direction, start.col);
    if board.InBounds(oneStep) && board.GetPiece(oneStep) == null {
      moves := {oneStep};
      var twoStep := Position(start.row + 2 * direction, start.col);
      if start.row == startRow && board.InBounds(twoStep) && board.GetPiece(twoStep) == null {
        moves := moves + {twoStep};
      }
    }
  }

  /** The rule engine accepts exactly the legal moves. */
  method IsMoveLegal(board: Board, start: Position, end: Position) returns (ok: bool)
    requires board.AllInBounds()
    ensures ok <==> Legal(board.Seen(), start, end)
  {
    hide StraightReach, DiagonalReach, KnightReach, KingReach, PawnReach;
    if start == end { return false; }
    var piece := board.GetPiece(start);
    if piece == null { return false; }
    var target := board.GetPiece(end);
    if target != null && target.color == piece.color { return false; }
    assert board.Seen().cells[start] == piece.Data();
    var moves;
    match piece.kind {
      case Rook => moves := GetStraightMoves(board, start);
      case Bishop => moves := GetDiagonalMoves(board, start);
      case Queen =>
        moves := GetStraightMoves(board, start);
        var more := GetDiagonalMoves(board, start);
        return end in moves || end in more;
      case Knight => moves := GetKnightMoves(board, start);
      case King => moves := GetKingMoves(board, start);
      case Pawn => moves := GetPawnMoves(board, start);
    }
    return end in moves;
  }
}
