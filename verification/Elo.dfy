/** Rating changes. The expected score of the winner is taken as any real in (0, 1). */
module Elo {
  const K := 32.0

  /** Round to the nearest integer, halves to the even one. */
  function RoundHalfEven(x: real): int {
    var f := x.Floor;
    var d := x - f as real;
    if d < 0.5 then f
    else if d > 0.5 then f + 1
    else if f % 2 == 0 then f else f + 1
  }

  /** The new ratings of winner and loser. */
  function CalcElo(winner: int, loser: int, expected: real): (int, int) {
    (RoundHalfEven(winner as real + K * (1.0 - expected)),
     RoundHalfEven(loser as real + K * (0.0 - (1.0 - expected))))
  }

  /** n is the integer nearest to x, and the even one of two equally near. */
  ghost predicate IsNearest(x: real, n: int) {
    -0.5 <= x - n as real <= 0.5 && (x - n as real == 0.5 || x - n as real == -0.5 ==> n % 2 == 0)
  }

  lemma Nearest(x: real, n: int)
    ensures RoundHalfEven(x) == n <==> IsNearest(x, n)
  {
  }

  /** What a game is worth: 32 points times the part of the win that was not expected, rounded on either side. */
  lemma PointsAre(winner: int, loser: int, expected: real, w: int, l: int)
    ensures CalcElo(winner, loser, expected) == (w, l) <==>
            && IsNearest(winner as real + 32.0 * (1.0 - expected), w)
            && IsNearest(loser as real - 32.0 * (1.0 - expected), l)
  {
    hide RoundHalfEven, IsNearest;
    Nearest(winner as real + 32.0 * (1.0 - expected), w);
    Nearest(loser as real - 32.0 * (1.0 - expected), l);
  }

  /** The raw change is a whole number and a half. */
  predicate HalfPoint(expected: real) {
    var x := K * (1.0 - expected);
    x - x.Floor as real == 0.5
  }

  lemma RoundOffHalf(a: int, x: real, n: int)
    requires -0.5 < x - n as real < 0.5
    ensures RoundHalfEven(a as real + x) == a + n
    ensures RoundHalfEven(a as real - x) == a - n
  {
  }

  lemma RoundHalf(a: int, x: real, n: int)
    requires x == n as real + 0.5
    ensures RoundHalfEven(a as real + x) == if (a + n) % 2 == 0 then a + n else a + n + 1
    ensures RoundHalfEven(a as real - x) == if (a - n) % 2 == 0 then a - n else a - n - 1
  {
  }

  /** The winner gains 0 to 32 points and the loser drops 0 to 32. */
  lemma GainsAndDrops(winner: int, loser: int, expected: real)
    requires 0.0 < expected < 1.0
    ensures var (w, l) := CalcElo(winner, loser, expected);
            winner <= w <= winner + 32 && loser - 32 <= l <= loser
  {
  }

  /** Rating points are neither made nor lost, except that one point may be when the raw change is
      exactly a half: then the sum is kept if and only if the two ratings have the same parity. */
  lemma SumIsKept(winner: int, loser: int, expected: real)
    requires 0.0 < expected < 1.0
    ensures var (w, l) := CalcElo(winner, loser, expected);
            && (w + l == winner + loser <==> !HalfPoint(expected) || (winner + loser) % 2 == 0)
            && -1 <= w + l - (winner + loser) <= 1
  {
    hide RoundHalfEven;
    var x, n := K * (1.0 - expected), RoundHalfEven(K * (1.0 - expected));
    Nearest(x, n);
    if HalfPoint(expected) {
      var m := x.Floor;
      RoundHalf(winner, x, m);
      RoundHalf(loser, x, m);
      assert (winner + m) % 2 == (loser - m) % 2 <==> (winner + loser) % 2 == 0;
    } else {
      RoundOffHalf(winner, x, n);
      RoundOffHalf(loser, x, n);
    }
  }

  /** The less a win was expected, the more it is worth. */
  lemma UpsetsPayMore(winner: int, loser: int, e1: real, e2: real)
    requires 0.0 < e1 <= e2 < 1.0
    ensures CalcElo(winner, loser, e1).0 >= CalcElo(winner, loser, e2).0
    ensures CalcElo(winner, loser, e1).1 <= CalcElo(winner, loser, e2).1
  {
  }
}
