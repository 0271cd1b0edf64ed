/** What a legal move is, stated without loops: which squares a piece reaches on a given board.
    Airborne (MOVING) pieces are transparent to sliders and to nobody else. */
module MoveRules {
  import opened Basics

  predicate Passable(v: View, p: Position) {
    p !in v.cells || v.cells[p].status.Moving?
  }

  predicate Enemy(v: View, c: Color, p: Position) {
    p in v.cells && v.cells[p].color != c
  }

  predicate Friend(v: View, c: Color, p: Position) {
    p in v.cells && v.cells[p].color == c
  }

  function Distance(a: Position, b: Position): nat {
    Max(Abs(b.row - a.row), Abs(b.col - a.col))
  }

  /** b lies on a rank, file or diagonal through a, in direction (dr, dc). */
  predicate Towards(a: Position, b: Position, dr: int, dc: int) {
    && Sign(b.row - a.row) == dr
    && Sign(b.col - a.col) == dc
    && (dr == 0 || dc == 0 || Abs(b.row - a.row) == Abs(b.col - a.col))
  }

  predicate Straight(a: Position, b: Position) {
    (a.row == b.row) != (a.col == b.col)
  }

  predicate Diagonal(a: Position, b: Position) {
    a != b && Abs(b.row - a.row) == Abs(b.col - a.col)
  }

  /** Every square strictly between a and b, walking in direction (dr, dc), is empty or airborne. */
  predicate ClearBetween(v: View, a: Position, b: Position, dr: int, dc: int) {
    forall k | 1 <= k < Distance(a, b) :: Passable(v, a.Step(k, dr, dc))
  }

  /** The squares a slider of colour c standing on a reaches along one ray. */
  predicate RayReach(v: View, c: Color, a: Position, b: Position, dr: int, dc: int) {
    && Towards(a, b, dr, dc)
    && v.InBounds(b)
    && ClearBetween(v, a, b, dr, dc)
    && (Passable(v, b) || Enemy(v, c, b))
  }

  predicate SlideReach(v: View, c: Color, a: Position, b: Position) {
    RayReach(v, c, a, b, Sign(b.row - a.row), Sign(b.col - a.col))
  }

  predicate StraightReach(v: View, a: Position, b: Position) {
    a in v.cells && Straight(a, b) && SlideReach(v, v.cells[a].color, a, b)
  }

  predicate DiagonalReach(v: View, a: Position, b: Position) {
    a in v.cells && Diagonal(a, b) && SlideReach(v, v.cells[a].color, a, b)
  }

  predicate KnightReach(v: View, a: Position, b: Position) {
    && a in v.cells && v.InBounds(b) && !Friend(v, v.cells[a].color, b)
    && {Abs(b.row - a.row), Abs(b.col - a.col)} == {1, 2}
  }

  predicate KingReach(v: View, a: Position, b: Position) {
    && a in v.cells && v.InBounds(b) && !Friend(v, v.cells[a].color, b)
    && Distance(a, b) == 1
  }

  function Forward(c: Color): int {
    if c.White? then -1 else 1
  }

  function PawnHomeRow(v: View, c: Color): int {
    if c.White? then v.rows - 2 else 1
  }

  /** Straight ahead: one step, or two from the home row, onto and over empty squares. */
  predicate PawnSteps(v: View, a: Position, b: Position) {
    a in v.cells && v.InBounds(b) && b !in v.cells &&
    var c := v.cells[a].color;
    var ahead := Position(a.row + Forward(c), a.col);
    b == ahead ||
    (a.row == PawnHomeRow(v, c) && v.InBounds(ahead) && ahead !in v.cells &&
     b == Position(a.row + 2 * Forward(c), a.col))
  }

  /** Diagonally ahead, to side `side`, only onto an enemy. */
  predicate PawnTakes(v: View, a: Position, b: Position, side: int) {
    a in v.cells && v.InBounds(b) && Enemy(v, v.cells[a].color, b) &&
    b == Position(a.row + Forward(v.cells[a].color), a.col + side)
  }

  predicate PawnReach(v: View, a: Position, b: Position) {
    PawnSteps(v, a, b) || PawnTakes(v, a, b, -1) || PawnTakes(v, a, b, 1)
  }

  /** The moves the rule engine accepts. */
  predicate Legal(v: View, a: Position, b: Position) {
    && a != b
    && a in v.cells
    && !Friend(v, v.cells[a].color, b)
    && match v.cells[a].kind
       case Rook => StraightReach(v, a, b)
       case Bishop => DiagonalReach(v, a, b)
       case Queen => StraightReach(v, a, b) || DiagonalReach(v, a, b)
       case Knight => KnightReach(v, a, b)
       case King => KingReach(v, a, b)
       case Pawn => PawnReach(v, a, b)
  }

  ghost predicate WholeBoardInBounds(v: View) {
    forall p | p in v.cells :: v.InBounds(p)
  }

  /** A ray is the squares start + k steps, and k is the distance walked. */
  lemma RayPoint(a: Position, k: nat, dr: int, dc: int)
    requires -1 <= dr <= 1 && -1 <= dc <= 1 && (dr != 0 || dc != 0) && 1 <= k
    ensures Towards(a, a.Step(k, dr, dc), dr, dc)
    ensures Distance(a, a.Step(k, dr, dc)) == k
  {
  }

  lemma PointOnRay(a: Position, b: Position, dr: int, dc: int)
    requires Towards(a, b, dr, dc)
    ensures b == a.Step(Distance(a, b), dr, dc)
  {
  }

  /** The slider rule in the words of a player: some number k of steps in one of the piece's
      directions, never leaving the board, through squares that are empty or whose piece is on its way to
      another, ending on a square that is empty or holds an enemy. A friend on its way is passed over but
      not landed on, and a piece that jumps is not passed over. */
  ghost predicate WalksTo(v: View, a: Position, b: Position, diagonal: bool) {
    a in v.cells && exists k: nat, dr: int, dc: int ::
      Walk(v, a, b, k, dr, dc) && (dr != 0 && dc != 0) == diagonal
  }

  ghost predicate Walk(v: View, a: Position, b: Position, k: nat, dr: int, dc: int)
    requires a in v.cells
  {
    && 1 <= k && -1 <= dr <= 1 && -1 <= dc <= 1 && (dr != 0 || dc != 0)
    && b == a.Step(k, dr, dc)
    && (forall j | 1 <= j <= k :: 0 <= a.row + j * dr < v.rows && 0 <= a.col + j * dc < v.cols)
    && (forall j | 1 <= j < k :: a.Step(j, dr, dc) in v.cells ==> v.cells[a.Step(j, dr, dc)].status.Moving?)
    && (b !in v.cells || v.cells[b].color != v.cells[a].color)
  }

  lemma StepBetween(v: View, a: Position, k: nat, j: nat, dr: int, dc: int)
    requires -1 <= dr <= 1 && -1 <= dc <= 1 && 0 <= j <= k
    requires v.InBounds(a) && v.InBounds(a.Step(k, dr, dc))
    ensures v.InBounds(a.Step(j, dr, dc))
  {
  }

  /** Rook, bishop and queen moves are exactly the walks, on a board of any size. */
  lemma SlidersWalk(v: View, a: Position, b: Position)
    requires WholeBoardInBounds(v)
    requires a in v.cells && v.cells[a].kind in {Rook, Bishop, Queen}
    ensures Legal(v, a, b) <==>
            (v.cells[a].kind != Bishop && WalksTo(v, a, b, false)) ||
            (v.cells[a].kind != Rook && WalksTo(v, a, b, true))
  {
    var k, dr, dc := Distance(a, b), Sign(b.row - a.row), Sign(b.col - a.col);
    if Legal(v, a, b) {
      PointOnRay(a, b, dr, dc);
      forall j | 1 <= j <= k ensures v.InBounds(a.Step(j, dr, dc)) {
        StepBetween(v, a, k, j, dr, dc);
      }
      assert Walk(v, a, b, k, dr, dc);
    }
    forall k: nat, dr: int, dc: int | Walk(v, a, b, k, dr, dc)
      ensures a != b && Towards(a, b, dr, dc) && SlideReach(v, v.cells[a].color, a, b)
      ensures (dr != 0 && dc != 0) ==> Diagonal(a, b)
      ensures !(dr != 0 && dc != 0) ==> Straight(a, b)
    {
      RayPoint(a, k, dr, dc);
      assert v.InBounds(a.Step(k, dr, dc));
    }
  }

  /** The pawn rule by rows. White goes up to smaller row numbers and may go two from the last row but one; black goes
      down and may go two from row 1. It goes straight only over and onto empty squares, and diagonally, by one row
      and one column, only onto an enemy. */
  lemma PawnsWalk(v: View, a: Position, b: Position)
    requires a in v.cells && v.cells[a].kind.Pawn?
    ensures var white := v.cells[a].color.White?;
            var down := if white then a.row - b.row else b.row - a.row;
            var home := a.row == if white then v.rows - 2 else 1;
            var between := Position(if white then a.row - 1 else a.row + 1, a.col);
            Legal(v, a, b) <==>
            && 0 <= b.row < v.rows && 0 <= b.col < v.cols
            && (if a.col == b.col
                then b !in v.cells && (down == 1 || (down == 2 && home && between !in v.cells))
                else down == 1 && (b.col == a.col - 1 || b.col == a.col + 1)
                     && b in v.cells && v.cells[b].color != v.cells[a].color)
  {
  }

  /** A knight goes two rows and one column, or one row and two columns, whatever stands between; a king, to any of
      the eight squares around it. Neither leaves the board or lands on a friend. */
  lemma KnightsAndKingsHop(v: View, a: Position, b: Position)
    requires a in v.cells && v.cells[a].kind in {Knight, King}
    ensures var dr, dc := b.row - a.row, b.col - a.col;
            Legal(v, a, b) <==>
            && 0 <= b.row < v.rows && 0 <= b.col < v.cols
            && (b in v.cells ==> v.cells[b].color != v.cells[a].color)
            && (if v.cells[a].kind.Knight?
                then (dr in {-2, 2} && dc in {-1, 1}) || (dr in {-1, 1} && dc in {-2, 2})
                else a != b && -1 <= dr <= 1 && -1 <= dc <= 1)
  {
    var r, c := Abs(b.row - a.row), Abs(b.col - a.col);
    if {r, c} == {1, 2} {
      assert r in {1, 2} && c in {1, 2};
      assert 1 in {r, c} && 2 in {r, c};
    }
  }
}
