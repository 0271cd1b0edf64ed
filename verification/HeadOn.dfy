/** The launch-time test for two motions flying at each other. */
module HeadOn {
  import opened Basics

  /** The sign-and-difference test the arbiter runs: does motion b start inside the route of the
      older motion a and fly in the opposite direction? */
  predicate OnCollisionCourse(aStart: Position, aEnd: Position, bStart: Position, bEnd: Position) {
    var dra, dca := Sign(aEnd.row - aStart.row), Sign(aEnd.col - aStart.col);
    var drb, dcb := Sign(bEnd.row - bStart.row), Sign(bEnd.col - bStart.col);
    var diffRow, diffCol := bStart.row - aStart.row, bStart.col - aStart.col;
    var endRow, endCol := aEnd.row - aStart.row, aEnd.col - aStart.col;
    if dra + drb != 0 || dca + dcb != 0 then false
    else if dra == 0 && dca == 0 then false
    else if dra == 0 then
      if diffRow != 0 then false
      else if dca > 0 then 0 < diffCol <= endCol
      else endCol <= diffCol < 0
    else if dca == 0 then
      if diffCol != 0 then false
      else if dra > 0 then 0 < diffRow <= endRow
      else endRow <= diffRow < 0
    else if diffRow == 0 || diffCol == 0 then false
    else if Abs(diffRow) != Abs(diffCol) then false
    else if Sign(diffRow) != dra || Sign(diffCol) != dca then false
    else 0 < Abs(diffRow) <= Abs(endRow)
  }

  /** How far along its direction the older motion blocks: its row span, or its column span when it
      flies along a row. */
  function Span(aStart: Position, aEnd: Position): nat {
    if aStart.row != aEnd.row then Abs(aEnd.row - aStart.row) else Abs(aEnd.col - aStart.col)
  }

  /** Head-on in plain geometry: opposite, non-zero directions, and b starts k steps down a's route. */
  ghost predicate MeetsHeadOn(aStart: Position, aEnd: Position, bStart: Position, bEnd: Position) {
    var dr, dc := Sign(aEnd.row - aStart.row), Sign(aEnd.col - aStart.col);
    && (dr != 0 || dc != 0)
    && Sign(bEnd.row - bStart.row) == -dr && Sign(bEnd.col - bStart.col) == -dc
    && exists k :: 1 <= k <= Span(aStart, aEnd) && bStart == aStart.Step(k, dr, dc)
  }

  lemma CourseIsHeadOn(aStart: Position, aEnd: Position, bStart: Position, bEnd: Position)
    ensures OnCollisionCourse(aStart, aEnd, bStart, bEnd) <==> MeetsHeadOn(aStart, aEnd, bStart, bEnd)
  {
    var dr, dc := Sign(aEnd.row - aStart.row), Sign(aEnd.col - aStart.col);
    var k := if dr != 0 then Abs(bStart.row - aStart.row) else Abs(bStart.col - aStart.col);
    assert k * 1 == k && k * 0 == 0 && k * (0 - 1) == 0 - k;
    if OnCollisionCourse(aStart, aEnd, bStart, bEnd) {
      assert bStart == aStart.Step(k, dr, dc);
    }
    forall j | 1 <= j && bStart == aStart.Step(j, dr, dc) && (dr != 0 || dc != 0) ensures j == k {
      assert j * 1 == j && j * 0 == 0 && j * (0 - 1) == 0 - j;
    }
  }

  /** A jump, which starts and ends on one square, is never on a collision course. */
  lemma JumpsNeverCollide(at: Position, start: Position, end: Position)
    ensures !OnCollisionCourse(at, at, start, end) && !OnCollisionCourse(start, end, at, at)
  {
  }
}
