/** When the way time is cut into ticks does not matter to the game, and when it does: cutting matters
    exactly when a tick ends the game and leaves something in the air. */
module Slicing {
  import opened Basics
  import opened Flights
  import opened Play
  import opened Occupancy

  function AfterAll(q: seq<Flight>, ms: int): seq<Flight> {
    if q == [] then [] else [q[0].After(ms)] + AfterAll(q[1..], ms)
  }

  lemma {:induction false} AfterAllAt(q: seq<Flight>, ms: int)
    ensures |AfterAll(q, ms)| == |q|
    ensures forall i | 0 <= i < |q| :: AfterAll(q, ms)[i] == q[i].After(ms)
  {
    if q != [] { AfterAllAt(q[1..], ms); }
  }

  lemma {:induction false} AfterAllHas(q: seq<Flight>, ms: int, m: Flight)
    ensures m in AfterAll(q, ms) <==> m.After(-ms) in q
  {
    if q != [] {
      AfterAllHas(q[1..], ms, m);
      assert q == [q[0]] + q[1..];
      assert q[0] == m.After(-ms) <==> q[0].After(ms) == m;
    }
  }

  lemma SettleIgnores(g: Game, m: Flight, ms: int, air: seq<Flight>)
    requires Sound(g) && m.piece < |g.pieces| && Named(g, air)
    ensures Settle(g, m.After(ms)) == Settle(g, m)
    ensures Settle(g.(active := air), m) == Settle(g, m).(active := air)
  {
  }

  lemma CaptureIgnores(g: Game, i: nat, c: Color, p: Position, air: seq<Flight>)
    requires Sound(g) && i < |g.pieces| && Named(g, air)
    ensures Capture(g.(active := air), i, c) == Capture(g, i, c).(active := air)
    ensures LiftFrom(Capture(g.(active := air), i, c), p, i) == LiftFrom(Capture(g, i, c), p, i).(active := air)
  {
  }

  /** A landing looks neither at the time left nor at the other motions in the air. */
  lemma LandIgnoresTime(g: Game, m: Flight, ms: int, air: seq<Flight>)
    requires Sound(g) && m.piece < |g.pieces| && Named(g, air)
    ensures Land(g, m.After(ms)) == Land(g, m)
    ensures Land(g.(active := air), m) == Land(g, m).(active := air)
  {
    assert OutcomeOf(g, m.After(ms)) == OutcomeOf(g, m) == OutcomeOf(g.(active := air), m);
    match OutcomeOf(g, m)
    case Caught(t) => CaptureIgnores(g, m.piece, g.pieces[t].color, m.start, air);
    case Arrives => SettleIgnores(g, m, ms, air);
    case Takes(t) =>
      var c := g.pieces[m.piece].color;
      CaptureIgnores(g, t, c, m.end, air);
      SettleIgnores(Cleared(g, m.end, t, c), m, ms, air);
    case _ =>
  }

  lemma {:induction false} LandAllIgnoresTime(g: Game, q: seq<Flight>, ms: int)
    requires Sound(g) && Named(g, q)
    ensures Named(g, AfterAll(q, ms)) && LandAll(g, AfterAll(q, ms)) == LandAll(g, q)
    decreases |q|
  {
    AfterAllAt(q, ms);
    if q != [] {
      LandIgnoresTime(g, q[0], ms, g.active);
      LandAllIgnoresTime(Land(g, q[0]), q[1..], ms);
      assert AfterAll(q, ms)[1..] == AfterAll(q[1..], ms);
    }
  }

  lemma {:induction false} LandAllIgnoresAir(g: Game, q: seq<Flight>, air: seq<Flight>)
    requires Sound(g) && Named(g, q) && Named(g, air)
    ensures LandAll(g.(active := air), q) == LandAll(g, q).(active := air)
    decreases |q|
  {
    if q != [] {
      LandIgnoresTime(g, q[0], 0, air);
      LandAllIgnoresAir(Land(g, q[0]), q[1..], air);
    }
  }

  lemma {:induction false} LandAllConcat(g: Game, p: seq<Flight>, q: seq<Flight>)
    requires Sound(g) && Named(g, p) && Named(g, q)
    ensures Named(g, p + q) && LandAll(g, p + q) == LandAll(LandAll(g, p), q)
    decreases |p|
  {
    if p == [] {
      assert p + q == q;
    } else {
      assert (p + q)[1..] == p[1..] + q;
      LandAllConcat(Land(g, p[0]), p[1..], q);
    }
  }

  lemma {:induction false} AgingAddsUp(q: seq<Flight>, a: int, b: int)
    requires 0 <= b
    ensures StillMoving(StillMoving(q, a), b) == StillMoving(q, a + b)
  {
    if q != [] { AgingAddsUp(q[1..], a, b); }
  }

  lemma LandingEither(q: seq<Flight>, a: int, b: int, m: Flight)
    requires Ordered(q)
    ensures m in AfterAll(Landings(q, a), b) <==> m.remaining <= -b && m.After(-(a + b)) in q
    ensures m in Landings(StillMoving(q, a), b) <==> -b < m.remaining <= 0 && m.After(-(a + b)) in q
    ensures m in Landings(q, a + b) <==> m.remaining <= 0 && m.After(-(a + b)) in q
  {
    AgingKeepsOrder(q, a);
    AfterAllHas(Landings(q, a), b, m);
    Parted(q, a, m.After(-b));
    Parted(StillMoving(q, a), b, m);
    Parted(q, a + b, m);
    LandingsKeep(q, a);
    LandingsKeep(q, a + b);
    LandingsKeep(StillMoving(q, a), b);
    assert m.After(-b).After(-a) == m.After(-(a + b));
  }

  lemma SplitSorted(q: seq<Flight>, a: int, b: int)
    requires Ordered(q) && 0 <= b
    ensures Sorted(ByLanding, AfterAll(Landings(q, a), b) + Landings(StillMoving(q, a), b))
  {
    var first, second := AfterAll(Landings(q, a), b), Landings(StillMoving(q, a), b);
    AgingKeepsOrder(q, a);
    LandingsSorted(q, a);
    LandingsSorted(StillMoving(q, a), b);
    AfterAllAt(Landings(q, a), b);
    forall i, j | 0 <= i < |first| && 0 <= j < |second| ensures Before(ByLanding, first[i], second[j]) {
      assert first[i] in first && second[j] in second;
      LandingEither(q, a, b, first[i]);
      LandingEither(q, a, b, second[j]);
    }
    SortedConcat(first, second);
  }

  /** One long tick resolves the landings of the first short tick, in the same order, and then those
      of the second: whatever was due earlier has less time left. */
  lemma LandingsSplit(q: seq<Flight>, a: int, b: int)
    requires Ordered(q) && 0 <= b
    ensures Landings(q, a + b) == AfterAll(Landings(q, a), b) + Landings(StillMoving(q, a), b)
  {
    hide Landings, AfterAll, StillMoving, Sorted;
    var parts := AfterAll(Landings(q, a), b) + Landings(StillMoving(q, a), b);
    SplitSorted(q, a, b);
    LandingsSorted(q, a + b);
    forall m ensures m in parts <==> m in Landings(q, a + b) {
      LandingEither(q, a, b, m);
    }
    SortedUnique(ByLanding, parts, Landings(q, a + b));
  }

  lemma SortedConcat(p: seq<Flight>, q: seq<Flight>)
    requires Sorted(ByLanding, p) && Sorted(ByLanding, q)
    requires forall i, j | 0 <= i < |p| && 0 <= j < |q| :: Before(ByLanding, p[i], q[j])
    ensures Sorted(ByLanding, p + q)
  {
  }

  /** A tick as if the game were not over. */
  function Advance(g: Game, ms: int): (r: Game)
    requires Sound(g)
    ensures Sound(r) && |r.pieces| == |g.pieces|
  {
    LandAll(Airborne(g, ms), Landings(g.active, ms))
  }

  lemma AdvanceTwice(g: Game, a: int, b: int)
    requires Steady(g) && 0 <= b
    ensures Advance(Advance(g, a), b) == Advance(g, a + b)
  {
    var air1, air2 := StillMoving(g.active, a), StillMoving(g.active, a + b);
    var l1, l2 := Landings(g.active, a), Landings(StillMoving(g.active, a), b);
    AgingAddsUp(g.active, a, b);
    LandingsSplit(g.active, a, b);
    var g0, g1 := Airborne(g, a), Advance(g, a);
    assert g1.active == air1;
    assert Airborne(g1, b) == g1.(active := air2);
    assert Airborne(g, a + b) == g0.(active := air2);
    LandAllIgnoresAir(g0, l1, air2);
    assert g1.(active := air2) == LandAll(g0.(active := air2), l1);
    LandAllIgnoresTime(g0.(active := air2), l1, b);
    LandAllConcat(g0.(active := air2), AfterAll(l1, b), l2);
  }

  /** After a tick, everything still in the air has time left. */
  lemma TickLeavesTime(g: Game, ms: int)
    requires Sound(g)
    ensures forall m | m in Advance(g, ms).active :: m.remaining > 0
  {
    PartedAll(g.active, ms);
  }

  lemma {:induction false} NoTimeNoChange(q: seq<Flight>)
    requires forall m | m in q :: m.remaining > 0
    ensures StillMoving(q, 0) == q && Completed(q, 0) == []
  {
    if q != [] {
      assert q[0] in q && q == [q[0]] + q[1..];
      NoTimeNoChange(q[1..]);
    }
  }

  lemma {:induction false} AgingShortens(q: seq<Flight>, ms: int)
    ensures |StillMoving(q, ms)| <= |q|
    ensures q != [] && ms != 0 ==> StillMoving(q, ms) != q
  {
    if q != [] { AgingShortens(q[1..], ms); }
  }

  /** Slicing a tick in two. The two ticks leave exactly the state of the one long tick unless the
      first of them ends the game while something is still in the air: then the second tick does
      nothing, where the long tick would have let those motions age or land. */
  lemma TickSlicing(g: Game, a: nat, b: nat)
    requires Steady(g)
    ensures Tick(Tick(g, a), b) == Tick(g, a + b) <==>
            b == 0 || g.over || !Tick(g, a).over || Tick(g, a).active == []
  {
    if !g.over {
      var h := Advance(g, a);
      AdvanceTwice(g, a, b);
      TickLeavesTime(g, a);
      if b == 0 || h.active == [] {
        AgeNothing(h, b);
      } else if h.over {
        AgingShortens(h.active, b);
        assert Advance(h, b).active == StillMoving(h.active, b);
      }
    }
  }

  lemma AgeNothing(g: Game, ms: nat)
    requires Sound(g) && forall m | m in g.active :: m.remaining > 0
    requires ms == 0 || g.active == []
    ensures Advance(g, ms) == g
  {
    NoTimeNoChange(g.active);
    assert Landings(g.active, ms) == [];
  }

  function Waits(parts: seq<nat>): (es: seq<Event>)
    ensures |es| == |parts|
  {
    if parts == [] then [] else [Wait(parts[0])] + Waits(parts[1..])
  }

  function Total(parts: seq<nat>): nat {
    if parts == [] then 0 else parts[0] + Total(parts[1..])
  }

  lemma RunWaits(g: Game, parts: seq<nat>)
    requires Sound(g) && parts != []
    ensures Run(g, Waits(parts)) == Run(Tick(g, parts[0]), Waits(parts[1..]))
  {
    assert Waits(parts)[1..] == Waits(parts[1..]);
  }

  lemma {:induction false} OverStays(g: Game, parts: seq<nat>)
    requires Sound(g) && g.over
    ensures Run(g, Waits(parts)) == g
    decreases |parts|
  {
    if parts != [] {
      RunWaits(g, parts);
      OverStays(g, parts[1..]);
    }
  }

  ghost predicate GoesOn(g: Game, parts: seq<nat>)
    requires Sound(g)
  {
    parts != [] && !Run(g, Waits(parts[..|parts| - 1])).over
  }

  lemma GoesOnTail(g: Game, parts: seq<nat>)
    requires Sound(g) && GoesOn(g, parts) && |parts| > 1
    ensures !Tick(g, parts[0]).over && GoesOn(Tick(g, parts[0]), parts[1..])
  {
    var h, front := Tick(g, parts[0]), parts[..|parts| - 1];
    RunWaits(g, front);
    assert front[1..] == parts[1..][..|parts[1..]| - 1];
    if h.over { OverStays(h, front[1..]); }
  }

  lemma TwoTicks(g: Game, a: nat, b: nat)
    requires Steady(g) && !Tick(g, a).over
    ensures Tick(Tick(g, a), b) == Tick(g, a + b)
  {
    TickSlicing(g, a, b);
  }

  lemma RunOneWait(g: Game, ms: nat)
    requires Sound(g)
    ensures Run(g, Waits([ms])) == Tick(g, ms) && Total([ms]) == ms
  {
  }

  lemma OneMoreTick(g: Game, parts: seq<nat>, b: nat)
    requires Sound(g) && Steady(g) && |parts| > 1 && !Tick(g, parts[0]).over
    requires Run(Tick(g, parts[0]), Waits(parts[1..])) == Tick(Tick(g, parts[0]), b)
    ensures Run(g, Waits(parts)) == Tick(g, parts[0] + b)
  {
    hide *;
    RunWaits(g, parts);
    TwoTicks(g, parts[0], b);
  }

  /** Any number of ticks of any sizes equals one tick of their sum, as long as the game was not
      already over before the last of them. So n ticks of 50 ms are one tick of 50n ms. */
  lemma {:induction false} ManyTicks(g: Game, parts: seq<nat>)
    requires Sound(g) && Steady(g) && GoesOn(g, parts)
    ensures Run(g, Waits(parts)) == Tick(g, Total(parts))
    decreases |parts|
  {
    hide Run, Tick, Next, Steady;
    if |parts| == 1 {
      RunOneWait(g, parts[0]);
      assert parts == [parts[0]];
    } else {
      GoesOnTail(g, parts);
      TickKeeps(g, parts[0]);
      ManyTicks(Tick(g, parts[0]), parts[1..]);
      OneMoreTick(g, parts, Total(parts[1..]));
    }
  }
}
