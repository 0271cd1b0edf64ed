/** Motions in the air as values, and the two orders in which the program sorts them. */
module Flights {
  import opened Basics

  /** One motion: which piece flies, from where to where, and how long is left.
      `piece` is the index of the piece in the game's list of pieces. */
  datatype Flight = Flight(id: nat, piece: nat, start: Position, end: Position,
                           remaining: int, duration: int, isJump: bool) {
    /** The same flight `ms` milliseconds later. */
    function After(ms: int): Flight {
      this.(remaining := remaining - ms)
    }

    /** The same flight with its absolute arrival time in place of the time left. */
    function Absolute(clock: int): Flight {
      this.(remaining := clock + remaining)
    }
  }

  /** The arbiter sorts by (time left, id); the engine then sorts by
      (time left, duration, move before jump, newer id first). */
  datatype Order = ByArrival | ByLanding

  predicate Before(o: Order, a: Flight, b: Flight) {
    a.remaining < b.remaining ||
    (a.remaining == b.remaining &&
     match o
     case ByArrival => a.id < b.id
     case ByLanding =>
       a.duration < b.duration ||
       (a.duration == b.duration &&
        ((!a.isJump && b.isJump) || (a.isJump == b.isJump && a.id > b.id))))
  }

  ghost predicate Sorted(o: Order, q: seq<Flight>) {
    forall i, j | 0 <= i < j < |q| :: Before(o, q[i], q[j])
  }

  ghost predicate DistinctIds(q: seq<Flight>) {
    forall i, j | 0 <= i < j < |q| :: q[i].id != q[j].id
  }

  function Insert(o: Order, m: Flight, q: seq<Flight>): seq<Flight> {
    if q == [] || !Before(o, q[0], m) then [m] + q else [q[0]] + Insert(o, m, q[1..])
  }

  /** A stable sort, as the list sort of Python is. */
  function Sort(o: Order, q: seq<Flight>): seq<Flight> {
    if q == [] then [] else Insert(o, q[0], Sort(o, q[1..]))
  }

  lemma SortOne(o: Order, m: Flight)
    ensures Sort(o, [m]) == [m]
  {
    hide Before;
    assert [m][1..] == [] && Sort(o, []) == [];
    assert Insert(o, m, []) == [m];
  }

  lemma {:induction false} InsertSorts(o: Order, m: Flight, q: seq<Flight>)
    requires Sorted(o, q) && forall n | n in q :: n.id != m.id
    ensures Sorted(o, Insert(o, m, q))
    ensures |Insert(o, m, q)| == |q| + 1
    ensures forall n :: n in Insert(o, m, q) <==> n == m || n in q
  {
    if q == [] {
    } else if !Before(o, q[0], m) {
      assert q[0] in q;
      assert Before(o, m, q[0]);
    } else {
      assert q == [q[0]] + q[1..];
      assert forall n | n in q[1..] :: n in q;
      InsertSorts(o, m, q[1..]);
      var t := Insert(o, m, q[1..]);
      forall i | 0 <= i < |t| ensures Before(o, q[0], t[i]) {
        assert t[i] in t;
        if t[i] != m {
          var k :| 0 <= k < |q[1..]| && q[1..][k] == t[i];
          assert q[1 + k] == t[i];
        }
      }
    }
  }

  /** Sorting flights with distinct ids gives a strictly sorted list of the same flights. */
  lemma {:induction false} SortSorts(o: Order, q: seq<Flight>)
    requires DistinctIds(q)
    ensures Sorted(o, Sort(o, q))
    ensures |Sort(o, q)| == |q|
    ensures forall m :: m in Sort(o, q) <==> m in q
  {
    if q != [] {
      assert q == [q[0]] + q[1..];
      forall i, j | 0 <= i < j < |q[1..]| ensures q[1..][i].id != q[1..][j].id {
        assert q[1..][i] == q[i + 1] && q[1..][j] == q[j + 1];
      }
      SortSorts(o, q[1..]);
      var t := Sort(o, q[1..]);
      forall n | n in t ensures n.id != q[0].id {
        var k :| 0 <= k < |q[1..]| && q[1..][k] == n;
        assert q[k + 1] == n;
      }
      InsertSorts(o, q[0], t);
    }
  }

  /** The two orders in the fields of a motion. The arbiter hands over what has less time left first, and of equals
      what was launched first; the engine then puts the shorter flight first, a move before a jump, and of equals
      what was launched last. */
  lemma OrdersAre(q: seq<Flight>, j: nat, k: nat)
    requires DistinctIds(q) && j < k < |q|
    ensures |Sort(ByArrival, q)| == |q| == |Sort(ByLanding, q)|
    ensures var a, b := Sort(ByArrival, q)[j], Sort(ByArrival, q)[k];
            a.remaining <= b.remaining && (a.remaining == b.remaining ==> a.id < b.id)
    ensures var a, b := Sort(ByLanding, q)[j], Sort(ByLanding, q)[k];
            && a.remaining <= b.remaining
            && (a.remaining == b.remaining ==> a.duration <= b.duration)
            && (a.remaining == b.remaining && a.duration == b.duration ==>
                  && (a.isJump ==> b.isJump) && (a.isJump == b.isJump ==> a.id > b.id))
  {
    SortSorts(ByArrival, q);
    SortSorts(ByLanding, q);
  }

  lemma HeadIn(q: seq<Flight>)
    ensures q != [] ==> q[0] in q
  {
  }

  /** Strictly sorted lists with the same elements are the same list. */
  lemma {:induction false} SortedUnique(o: Order, a: seq<Flight>, b: seq<Flight>)
    requires Sorted(o, a) && Sorted(o, b)
    requires forall m :: m in a <==> m in b
    ensures a == b
  {
    if a == [] {
      HeadIn(b);
    } else {
      assert a[0] in b && (b != [] ==> b[0] in a);
      assert a[0] == b[0];
      assert a == [a[0]] + a[1..] && b == [b[0]] + b[1..];
      forall m ensures m in a[1..] <==> m in b[1..] {
        if m in a[1..] {
          var k :| 0 <= k < |a[1..]| && a[1..][k] == m;
          assert Before(o, a[0], a[k + 1]);
          assert m in b;
        }
        if m in b[1..] {
          var k :| 0 <= k < |b[1..]| && b[1..][k] == m;
          assert Before(o, b[0], b[k + 1]);
          assert m in a;
        }
      }
      SortedUnique(o, a[1..], b[1..]);
    }
  }
}
