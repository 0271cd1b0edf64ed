/** The real-time arbiter: it owns the list of motions in the air. Each method is proved against the
    value model; `Values` reads the motion objects as flights. */
module Arbiter {
  import opened Basics
  import opened Flights
  import opened Objects
  import HeadOn
  import Play

  class RealTimeArbiter {
    var active: seq<Motion>
    var counter: nat

    constructor ()
      ensures active == [] && counter == 0
    {
      active, counter := [], 0;
    }

    method StartJump(piece: Piece, position: Position, ms: int)
      modifies this, piece`status
      ensures counter == old(counter) + 1 && piece.status == Jumping
      ensures Values(active) == old(Values(active)) + [Flight(counter, piece.tag, position, position, ms, ms, true)]
      ensures old(active) <= active && (Apart(old(active)) ==> Apart(active))
      ensures forall m | m in active :: m in old(active) || (fresh(m) && m.piece == piece)
    {
      counter := counter + 1;
      piece.status := Jumping;
      var motion := new Motion(counter, piece, position, position, ms, true);
      active := active + [motion];
    }

    /** The new motion joins the list unless an older one is on a collision course with it; the piece
        is MOVING either way. */
    method StartMotion(piece: Piece, start: Position, end: Position, ms: int)
      modifies this, piece`status
      ensures counter == old(counter) + 1 && piece.status == Moving
      ensures Values(active) == old(Values(active)) +
              if old(Play.Blocked(Values(active), start, end)) then []
              else [Flight(counter, piece.tag, start, end, ms, ms, false)]
      ensures old(active) <= active && (Apart(old(active)) ==> Apart(active))
      ensures forall m | m in active :: m in old(active) || (fresh(m) && m.piece == piece)
    {
      counter := counter + 1;
      piece.status := Moving;
      var motion := new Motion(counter, piece, start, end, ms, false);
      active := active + [motion];
      var dropped := ResolveCommonRouteCollision(motion);
      if dropped {
        active := active[..|active| - 1];
      }
    }

    /** Does the newest motion fly head-on at any older one? The caller then removes it again. */
    method ResolveCommonRouteCollision(motion: Motion) returns (dropped: bool)
      requires |active| > 0 && active[|active| - 1] == motion && motion !in active[..|active| - 1]
      ensures dropped <==> Play.Blocked(Values(active[..|active| - 1]), motion.start, motion.end)
    {
      ghost var older := Values(active[..|active| - 1]);
      for i := 0 to |active|
        invariant forall j | 0 <= j < i && j < |older| ::
                    !HeadOn.OnCollisionCourse(older[j].start, older[j].end, motion.start, motion.end)
      {
        var existing := active[i];
        if existing != motion {
          assert older[i] == existing.Value();
          if HeadOn.OnCollisionCourse(existing.start, existing.end, motion.start, motion.end) {
            return true;
          }
        }
      }
      return false;
    }

    /** Time passes for every motion in the air. Those that have run out leave the list and are
        returned sorted by (time left, id). */
    method AdvanceTime(ms: int) returns (completed: seq<Motion>)
      requires Apart(active)
      modifies this`active, active
      ensures Values(active) == Play.StillMoving(old(Values(active)), ms)
      ensures Values(completed) == Sort(ByArrival, Play.Completed(old(Values(active)), ms))
      ensures Apart(active) && Apart(completed)
      ensures forall m | m in active :: m in old(active) && m !in completed
      ensures forall m | m in completed :: m in old(active)
    {
      hide Sort, Play.StillMoving, Play.Completed, Values, Apart;
      ghost var was := Values(active);
      completed := [];
      var still: seq<Motion> := [];
      ghost var done: seq<Flight>, left: seq<Flight> := [], [];
      assert was[0..] == was;
      NoneApart();
      for i := 0 to |active|
        invariant active == old(active)
        invariant forall k | i <= k < |active| ::
                    active[k].Value() == was[k] && active[k] !in completed && active[k] !in still
        invariant Mirror(completed, done) && Mirror(still, left)
        invariant done + Play.Completed(was[i..], ms) == Play.Completed(was, ms)
        invariant left + Play.StillMoving(was[i..], ms) == Play.StillMoving(was, ms)
        invariant Apart(completed) && Apart(still)
        invariant forall m | m in completed :: m in active && m !in still
        invariant forall m | m in still :: m in active
      {
        var motion := active[i];
        ElementsApart(active, i);
        TakeOne(was, i, ms);
        motion.remaining := motion.remaining - ms;
        assert motion.Value() == was[i].After(ms);
        if motion.remaining <= 0 {
          ApartAppend(completed, motion);
          completed, done := completed + [motion], done + [was[i].After(ms)];
        } else {
          ApartAppend(still, motion);
          still, left := still + [motion], left + [was[i].After(ms)];
        }
      }
      TakeNone(ms);
      assert was[|was|..] == [];
      assert done == Play.Completed(was, ms) && left == Play.StillMoving(was, ms);
      active := still;
      MirrorValues(still, left);
      completed := SortMirrored(completed, done);
    }
  }

  lemma NoneApart()
    ensures Apart([])
  {
  }

  lemma ApartAppend(q: seq<Motion>, m: Motion)
    requires Apart(q) && m !in q
    ensures Apart(q + [m])
  {
  }

  method SortMirrored(q: seq<Motion>, ghost vals: seq<Flight>) returns (r: seq<Motion>)
    requires Apart(q) && Mirror(q, vals)
    ensures Values(r) == Sort(ByArrival, vals)
    ensures Apart(r) && forall m :: m in r <==> m in q
  {
    MirrorValues(q, vals);
    r := SortMotions(ByArrival, q);
  }

  ghost predicate Mirror(q: seq<Motion>, vals: seq<Flight>)
    reads q
  {
    |q| == |vals| && forall i | 0 <= i < |q| :: q[i].Value() == vals[i]
  }

  lemma MirrorValues(q: seq<Motion>, vals: seq<Flight>)
    requires Mirror(q, vals)
    ensures Values(q) == vals
  {
  }

  /** The next motion of a list goes to one of the two results. */
  lemma TakeOne(q: seq<Flight>, i: nat, ms: int)
    requires i < |q|
    ensures var due := q[i].remaining - ms <= 0;
            && Play.Completed(q[i..], ms) == (if due then [q[i].After(ms)] else []) + Play.Completed(q[i + 1..], ms)
            && Play.StillMoving(q[i..], ms) == (if due then [] else [q[i].After(ms)]) + Play.StillMoving(q[i + 1..], ms)
  {
  }

  lemma TakeNone(ms: int)
    ensures Play.Completed([], ms) == [] && Play.StillMoving([], ms) == []
  {
  }

  lemma ElementsApart(q: seq<Motion>, i: nat)
    requires Apart(q) && i < |q|
    ensures q[i] !in q[..i] && q[i] !in q[i + 1..]
  {
  }

  lemma SortsNext(o: Order, q: seq<Motion>, i: nat)
    requires i < |q|
    ensures q[i..] == [q[i]] + q[i + 1..]
    ensures Sort(o, Values(q[i..])) == Insert(o, q[i].Value(), Sort(o, Values(q[i + 1..])))
  {
    hide Insert;
    var v, w := Values(q[i..]), Values(q[i + 1..]);
    assert v[0] == q[i].Value();
    forall j | 0 <= j < |w| ensures v[1..][j] == w[j] {
      assert q[i..][j + 1] == q[i + 1..][j];
    }
    assert v[1..] == w;
  }

  /** Python's list sort, by one of the two keys. */
  method SortMotions(o: Order, q: seq<Motion>) returns (r: seq<Motion>)
    requires Apart(q)
    ensures Values(r) == Sort(o, Values(q))
    ensures Apart(r) && forall m :: m in r <==> m in q
  {
    r := [];
    var i := |q|;
    while i > 0
      invariant 0 <= i <= |q|
      invariant Values(r) == Sort(o, Values(q[i..]))
      invariant Apart(r) && forall m :: m in r <==> m in q[i..]
    {
      i := i - 1;
      ElementsApart(q, i);
      SortsNext(o, q, i);
      r := InsertMotion(o, q[i], r);
    }
    assert q[0..] == q;
  }

  lemma {:induction false} InsertAt(o: Order, v: Flight, q: seq<Flight>, k: nat)
    requires k <= |q| && forall j | 0 <= j < k :: Before(o, q[j], v)
    requires k < |q| ==> !Before(o, q[k], v)
    ensures Insert(o, v, q) == q[..k] + [v] + q[k..]
  {
    if k > 0 { InsertAt(o, v, q[1..], k - 1); }
  }

  method InsertMotion(o: Order, motion: Motion, q: seq<Motion>) returns (r: seq<Motion>)
    requires Apart(q) && motion !in q
    ensures Values(r) == Insert(o, motion.Value(), Values(q))
    ensures Apart(r) && forall m :: m in r <==> m == motion || m in q
  {
    hide Insert;
    var k := 0;
    while k < |q| && Before(o, q[k].Key(), motion.Key())
      invariant 0 <= k <= |q|
      invariant forall j | 0 <= j < k :: Before(o, q[j].Value(), motion.Value())
    {
      k := k + 1;
    }
    r := q[..k] + [motion] + q[k..];
    InsertAt(o, motion.Value(), Values(q), k);
    assert Values(r) == Values(q)[..k] + [motion.Value()] + Values(q)[k..];
  }
}
