/** Head-on exclusion over whole runs, and what becomes of a piece whose launch is dropped. */
module Launches {
  import opened Basics
  import opened Flights
  import opened Play
  import opened Occupancy
  import opened Traces
  import opened HeadOn
  import MoveRules

  /** No motion in the air is head-on with one launched before it. */
  ghost predicate NoneHeadOn(q: seq<Flight>) {
    forall i, j | 0 <= i < j < |q| :: !MeetsHeadOn(q[i].start, q[i].end, q[j].start, q[j].end)
  }

  lemma {:induction false} AgingKeepsApart(q: seq<Flight>, ms: int, a: Position, b: Position)
    requires forall m | m in q :: !MeetsHeadOn(a, b, m.start, m.end)
    ensures forall m | m in StillMoving(q, ms) :: !MeetsHeadOn(a, b, m.start, m.end)
  {
    hide MeetsHeadOn;
    if q != [] {
      assert q[0] in q;
      AgingKeepsApart(q[1..], ms, a, b);
    }
  }

  lemma {:induction false} AgingKeepsNoneHeadOn(q: seq<Flight>, ms: int)
    requires NoneHeadOn(q)
    ensures NoneHeadOn(StillMoving(q, ms))
  {
    hide MeetsHeadOn;
    if q != [] {
      AgingKeepsNoneHeadOn(q[1..], ms);
      AgingKeepsApart(q[1..], ms, q[0].start, q[0].end);
    }
  }

  lemma BlockedIffMeets(q: seq<Flight>, start: Position, end: Position)
    ensures Blocked(q, start, end) <==>
            exists i :: 0 <= i < |q| && MeetsHeadOn(q[i].start, q[i].end, start, end)
  {
    hide MeetsHeadOn, OnCollisionCourse;
    forall i | 0 <= i < |q|
      ensures OnCollisionCourse(q[i].start, q[i].end, start, end) <==> MeetsHeadOn(q[i].start, q[i].end, start, end)
    {
      CourseIsHeadOn(q[i].start, q[i].end, start, end);
    }
  }

  lemma AppendApart(q: seq<Flight>, m: Flight)
    requires NoneHeadOn(q) && !Blocked(q, m.start, m.end)
    ensures NoneHeadOn(q + [m])
  {
  }

  lemma JumpNotBlocked(q: seq<Flight>, p: Position)
    ensures !Blocked(q, p, p)
  {
  }

  /** What a request does to the list of motions in the air: nothing, or exactly one new motion at
      the end of it; and the list stays free of head-on pairs. */
  lemma NextKeepsNoneHeadOn(g: Game, e: Event)
    requires Sound(g) && NoneHeadOn(g.active)
    ensures NoneHeadOn(Next(g, e).active)
    ensures e.Wait? || Next(g, e).active == g.active ||
            (|Next(g, e).active| == |g.active| + 1 && Next(g, e).active[..|g.active|] == g.active &&
             Next(g, e).active[|g.active|].id == g.launched + 1)
  {
    hide NoneHeadOn, Blocked;
    match e
    case Wait(ms) => AgingKeepsNoneHeadOn(g.active, ms);
    case JumpAt(p) =>
      JumpNotBlocked(g.active, p);
      if CanStart(g, p) { AppendApart(g.active, Launch(g, p, p, JUMP_MS, true)); }
    case Move(a, b, ms) =>
      if MoveAccepted(g, a, b) && !Blocked(g.active, a, b) {
        AppendApart(g.active, Launch(g, a, b, ms, false));
      }
    case Resign(_) =>
  }

  /** In every reachable state no motion in the air is head-on with an older one. */
  lemma {:induction false} RunKeepsNoneHeadOn(g: Game, es: seq<Event>)
    requires Sound(g) && NoneHeadOn(g.active)
    ensures NoneHeadOn(Run(g, es).active)
    decreases |es|
  {
    hide NoneHeadOn, Next, Sound;
    if es != [] {
      NextKeepsNoneHeadOn(g, es[0]);
      RunKeepsNoneHeadOn(Next(g, es[0]), es[1..]);
    }
  }

  /** Whether a request is accepted has nothing to do with what else is in the air. */
  lemma AcceptanceIgnoresTheAir(g: Game, q: seq<Flight>, a: Position, b: Position)
    requires Sound(g) && Named(g, q)
    ensures MoveAccepted(g.(active := q), a, b) <==> MoveAccepted(g, a, b)
    ensures CanStart(g.(active := q), a) <==> CanStart(g, a)
  {
    hide MoveRules.Legal;
    assert ViewOf(g.(active := q)) == ViewOf(g);
  }

  /** Who may take off: an idle piece of a game that is on, to jump, or to make a move of its own. A jump keeps the
      piece in the air over its square for a second, whatever else is in the air. */
  lemma WhoTakesOff(g: Game, a: Position, b: Position, ms: int)
    requires Sound(g)
    ensures var ready := !g.over && a in g.grid && g.pieces[g.grid[a]].status.Idle?;
            && (JumpRequest(g, a) != g <==> ready)
            && (MoveRequest(g, a, b, ms) != g <==> ready && MoveRules.Legal(ViewOf(g), a, b))
            && (ready ==>
                  var i := g.grid[a];
                  JumpRequest(g, a)
                  == g.(pieces := g.pieces[i := g.pieces[i].(status := Jumping)], launched := g.launched + 1,
                        active := g.active + [Flight(g.launched + 1, i, a, a, 1000, 1000, true)]))
  {
    hide MoveRules.Legal, Blocked;
  }

  // ---- stranded pieces ----

  /** MOVING, but no motion carries it. */
  ghost predicate Stranded(g: Game, pend: set<Flight>, i: nat) {
    i < |g.pieces| && g.pieces[i].status.Moving? && !Owns(pend, i)
  }

  /** An accepted move strands its piece exactly when an older motion is head-on with it. */
  lemma StrandedIffBlocked(g: Game, a: Position, b: Position, ms: int)
    requires Sound(g) && Steady(g) && MoveAccepted(g, a, b)
    ensures var r := MoveRequest(g, a, b, ms);
            Stranded(r, FlightsOf(r.active), g.grid[a]) <==>
            exists k :: 0 <= k < |g.active| && MeetsHeadOn(g.active[k].start, g.active[k].end, a, b)
  {
    hide MeetsHeadOn, Blocked;
    var r, i := MoveRequest(g, a, b, ms), g.grid[a];
    BlockedIffMeets(g.active, a, b);
    assert r == Depart(g, a, b, ms);
    if Blocked(g.active, a, b) {
      assert r.active == g.active;
      forall m | m in FlightsOf(g.active) ensures m.piece != i {
        assert FlightTied(g, m);
      }
    } else {
      assert r.active[|g.active|].piece == i;
      assert r.active[|g.active|] in FlightsOf(r.active);
    }
  }

  lemma LandKeepsStranded(g: Game, pend: set<Flight>, m: Flight, i: nat)
    requires Sound(g) && m.piece < |g.pieces| && Inv(g, pend) && m in pend && Stranded(g, pend, i)
    ensures Stranded(Land(g, m), pend - {m}, i) && Land(g, m).pieces[i] == g.pieces[i]
    ensures forall p | Land(g, m).On(p, i) :: g.On(p, i)
  {
    hide Inv, Land;
    InvParts(g, pend, m);
    LandEffect(g, pend, m);
  }

  lemma {:induction false} LandAllKeepsStranded(g: Game, q: seq<Flight>, air: set<Flight>, i: nat)
    requires Sound(g) && Inv(g, FlightsOf(q) + air) && Named(g, q) && Stranded(g, FlightsOf(q) + air, i)
    requires forall a, b | 0 <= a < b < |q| :: q[a] != q[b]
    requires forall m | m in q :: m !in air
    ensures Stranded(LandAll(g, q), air, i) && i < |g.pieces| && LandAll(g, q).pieces[i] == g.pieces[i]
    ensures forall p | LandAll(g, q).On(p, i) :: g.On(p, i)
    decreases |q|
  {
    hide Inv, Land, Sound, Owns;
    if q == [] {
      assert FlightsOf(q) + air == air;
    } else {
      PendingTail(q, air);
      LandKeepsInv(g, FlightsOf(q) + air, q[0]);
      LandKeepsStranded(g, FlightsOf(q) + air, q[0], i);
      LandAllKeepsStranded(Land(g, q[0]), q[1..], air, i);
    }
  }

  lemma NextKeepsStranded(g: Game, e: Event, i: nat)
    requires Sound(g) && Steady(g) && Stranded(g, FlightsOf(g.active), i)
    ensures var r := Next(g, e);
            && Stranded(r, FlightsOf(r.active), i) && r.pieces[i] == g.pieces[i]
            && forall p | r.On(p, i) :: g.On(p, i)
  {
    hide Inv, Steady, LandAll, Landings, StillMoving, Owns;
    var r := Next(g, e);
    if e.Wait? && !g.over {
      LandingsApart(g, e.ms);
      var q, air := Landings(g.active, e.ms), StillMoving(g.active, e.ms);
      AgingKeepsOwners(g.active, e.ms, i);
      LandAllKeepsStranded(Airborne(g, e.ms), q, FlightsOf(air), i);
    } else {
      TakeOffKeepsStranded(g, e, i);
    }
  }

  lemma TakeOffKeepsStranded(g: Game, e: Event, i: nat)
    requires Sound(g) && Stranded(g, FlightsOf(g.active), i) && !(e.Wait? && !g.over)
    ensures var r := Next(g, e);
            && Stranded(r, FlightsOf(r.active), i) && r.pieces[i] == g.pieces[i] && r.grid == g.grid
  {
  }

  /** A stranded piece is stranded for ever: whatever is played, it keeps its record, so it can never
      be captured (a stranded king cannot lose the game), and it never reaches a square it was not
      on already. It can only be overwritten. */
  lemma {:induction false} StrandedForever(g: Game, es: seq<Event>, i: nat)
    requires Sound(g) && Steady(g) && Stranded(g, FlightsOf(g.active), i)
    ensures var r := Run(g, es);
            && Stranded(r, FlightsOf(r.active), i) && r.pieces[i] == g.pieces[i]
            && forall p | r.On(p, i) :: g.On(p, i)
    decreases |es|
  {
    hide Steady, Next, Sound, Stranded;
    StrandedNamed(g, FlightsOf(g.active), i);
    if es != [] {
      NextKeeps(g, es[0]);
      NextKeepsStranded(g, es[0], i);
      StrandedForever(Next(g, es[0]), es[1..], i);
    }
  }

  lemma StrandedNamed(g: Game, pend: set<Flight>, i: nat)
    requires Stranded(g, pend, i)
    ensures i < |g.pieces|
  {
  }
}
