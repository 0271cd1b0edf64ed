/** The landings in a player's words: who lands first, what a mover finds, and when a pawn becomes a queen. */
module LandingLaws {
  import opened Basics
  import opened Flights
  import opened Play
  import opened Occupancy
  import opened Traces

  // ---- what becomes of a pawn ----

  /** Motion m completes the move of pawn i onto the last row of its colour. */
  ghost predicate Queens(g: Game, m: Flight, i: nat)
    requires Sound(g) && m.piece < |g.pieces|
  {
    && i == m.piece && g.pieces[i].kind.Pawn?
    && (OutcomeOf(g, m).Arrives? || OutcomeOf(g, m).Takes?)
    && m.end.row == if g.pieces[i].color.White? then 0 else g.rows - 1
  }

  /** Colour, type and label of p are those of a queen made of q, or those of q. */
  ghost predicate Became(q: PieceData, p: PieceData, queen: bool) {
    && p.color == q.color
    && p.kind == (if queen then Queen else q.kind)
    && p.pieceId == (if !queen then q.pieceId else if q.color.White? then "wQ" else "bQ")
  }

  lemma SettleTypes(g: Game, m: Flight, i: nat)
    requires Sound(g) && m.piece < |g.pieces| && i < |g.pieces|
    ensures Became(g.pieces[i], Settle(g, m).pieces[i],
                   i == m.piece && g.pieces[i].kind.Pawn?
                   && m.end.row == if g.pieces[i].color.White? then 0 else g.rows - 1)
  {
  }

  /** One landing: a piece keeps its colour, and its type and label change if and only if it is a pawn that
      completes its move on its last row. */
  lemma LandTypes(g: Game, m: Flight, i: nat)
    requires Sound(g) && m.piece < |g.pieces| && i < |g.pieces|
    ensures Became(g.pieces[i], Land(g, m).pieces[i], Queens(g, m, i))
    ensures Land(g, m).pieces[i].kind != g.pieces[i].kind <==> Queens(g, m, i)
  {
    hide Settle, Capture;
    match OutcomeOf(g, m)
    case Caught(t) => CaptureEffect(g, m.piece, g.pieces[t].color);
    case Arrives => SettleTypes(g, m, i);
    case Takes(t) =>
      CaptureEffect(g, t, g.pieces[m.piece].color);
      SettleTypes(Cleared(g, m.end, t, g.pieces[m.piece].color), m, i);
    case _ =>
  }

  // ---- over a run ----

  ghost predicate QueensAt(l: Landing, i: nat) {
    l.Live() && Sound(l.before) && l.Flight().piece < |l.before.pieces| && Queens(l.before, l.Flight(), i)
  }

  ghost predicate SomeQueens(t: seq<Landing>, i: nat) {
    exists k :: 0 <= k < |t| && QueensAt(t[k], i)
  }

  lemma JoinQueens(s: seq<Landing>, t: seq<Landing>, i: nat)
    ensures SomeQueens(s + t, i) <==> SomeQueens(s, i) || SomeQueens(t, i)
  {
    var u := s + t;
    assert forall k | 0 <= k < |s| :: u[k] == s[k];
    assert forall k | 0 <= k < |t| :: u[|s| + k] == t[k];
  }

  lemma OneQueens(l: Landing, i: nat)
    ensures SomeQueens([l], i) <==> QueensAt(l, i)
    ensures !SomeQueens([], i)
  {
    assert [l][0] == l;
  }

  lemma {:induction false} LandAllTypes(g: Game, q: seq<Flight>, clock: int, i: nat)
    requires Sound(g) && Named(g, q) && i < |g.pieces|
    ensures Became(g.pieces[i], LandAll(g, q).pieces[i], SomeQueens(LandTrace(g, q, clock), i))
    decreases |q|
  {
    hide Land, Queens, SomeQueens;
    if q == [] {
      OneQueens(Landing(g, q, clock), i);
    } else {
      var h, l := Land(g, q[0]), Landing(g, q, clock);
      LandTypes(g, q[0], i);
      LandAllTypes(h, q[1..], clock, i);
      OneQueens(l, i);
      JoinQueens([l], LandTrace(h, q[1..], clock), i);
    }
  }

  lemma RequestTypes(g: Game, e: Event, i: nat)
    requires Sound(g) && i < |g.pieces| && !(e.Wait? && !g.over)
    ensures Became(g.pieces[i], Next(g, e).pieces[i], false)
  {
  }

  lemma TickTypes(g: Game, e: Event, clock: int, i: nat)
    requires Sound(g) && i < |g.pieces|
    ensures Became(g.pieces[i], Next(g, e).pieces[i], SomeQueens(TraceOf(g, e, clock), i))
  {
    hide LandAll, LandTrace, Landings, StillMoving, SomeQueens;
    if e.Wait? && !g.over {
      LandAllTypes(Airborne(g, e.ms), Landings(g.active, e.ms), clock + e.ms, i);
    } else {
      RequestTypes(g, e, i);
      OneQueens(Landing(g, [], clock), i);
    }
  }

  /** A whole run: every piece keeps its colour, and its type and label, unless it was a pawn that completed a
      move on its last row; then it is a queen of its colour, and called one. */
  lemma {:induction false} RunTypes(g: Game, es: seq<Event>, clock: int, i: nat)
    requires Sound(g) && i < |g.pieces|
    ensures Became(g.pieces[i], Run(g, es).pieces[i], SomeQueens(Trace(g, es, clock), i))
    decreases |es|
  {
    hide Sound, Next, TraceOf, SomeQueens;
    if es == [] {
      OneQueens(Landing(g, [], clock), i);
    } else {
      var h, c := Next(g, es[0]), clock + Elapsed(g, es[0]);
      TickTypes(g, es[0], clock, i);
      RunTypes(h, es[1..], c, i);
      JoinQueens(TraceOf(g, es[0], clock), Trace(h, es[1..], c), i);
    }
  }

  // ---- what a mover finds ----

  /** Where a mover lands, by what stands there: on an empty square, and on a friend in the air or an enemy in
      flight, it takes the square; an idle friend sends it back, an idle enemy is captured, and an enemy that
      jumps captures it. A jumper comes down where it stands. */
  lemma WhatAMoverFinds(g: Game, pend: set<Flight>, m: Flight)
    requires Sound(g) && Inv(g, pend) && m in pend && m.piece < |g.pieces|
    ensures var r, i := Land(g, m), m.piece;
            && (m.isJump ==> r.grid == g.grid && r.pieces[i].status.Idle?)
            && (!m.isJump && m.end !in g.grid ==> r.On(m.end, i) && r.pieces[i].status.Idle?)
            && (!m.isJump && m.end in g.grid ==>
                  var j := g.grid[m.end];
                  var friend, s := g.pieces[j].color == g.pieces[i].color, g.pieces[j].status;
                  && (s.Idle? && friend ==> r.grid == g.grid && r.pieces[i].status.Idle? && r.pieces[j] == g.pieces[j])
                  && (s.Idle? && !friend ==>
                        r.On(m.end, i) && r.pieces[i].status.Idle? && r.pieces[j].status.Captured?)
                  && (s.Jumping? && !friend ==>
                        r.On(m.end, j) && r.pieces[i].status.Captured? && r.pieces[j] == g.pieces[j])
                  && ((s.Jumping? && friend) || s.Moving? ==>
                        r.On(m.end, i) && r.pieces[i].status.Idle? && (j != i ==> r.pieces[j] == g.pieces[j])))
  {
    hide Inv, Settle, Capture;
    InvParts(g, pend, m);
    GroundedPiecesOwnNothing(g, pend, m);
    match OutcomeOf(g, m)
    case Caught(t) => CaughtStays(g, pend, m);
    case Arrives => SettleEffect(g, m);
    case Takes(t) => TakesEffect(g, pend, m);
    case _ =>
  }

  lemma CaughtStays(g: Game, pend: set<Flight>, m: Flight)
    requires Sound(g) && Inv(g, pend) && m in pend && m.piece < |g.pieces| && OutcomeOf(g, m).Caught?
    ensures var r, j := Land(g, m), OutcomeOf(g, m).jumper;
            r.On(m.end, j) && r.pieces[m.piece].status.Captured? && r.pieces[j] == g.pieces[j]
  {
    hide Inv, Capture;
    CaughtEffect(g, pend, m);
    InvParts(g, pend, m);
    Elsewhere(g, pend, m);
  }

  lemma Elsewhere(g: Game, pend: set<Flight>, m: Flight)
    requires Inv(g, pend) && m in pend && !m.isJump && m.piece < |g.pieces|
    ensures !g.On(m.end, m.piece) && g.pieces[m.piece].status.Moving?
  {
    assert FlightOk(g, m) && FlightTied(g, m);
  }

  // ---- who lands first ----

  /** Of two landings of a run the one with the earlier arrival comes first; of equal arrivals, the one after
      the shorter flight; of equal flights, a move before a jump; and of all that equal, the motion launched
      later, which has the greater id. */
  lemma WhoLandsFirst(g: Game, es: seq<Event>, clock: int, j: nat, k: nat)
    requires Sound(g) && Steady(g) && InTime(g) && AllTimely(es)
    requires j < |Trace(g, es, clock)| && k < |Trace(g, es, clock)| && j != k
    ensures var a, b := Trace(g, es, clock)[j].Key(), Trace(g, es, clock)[k].Key();
            && (a.remaining < b.remaining ==> j < k)
            && (a.remaining == b.remaining && a.duration < b.duration ==> j < k)
            && (a.remaining == b.remaining && a.duration == b.duration && !a.isJump && b.isJump ==> j < k)
            && (a.remaining == b.remaining && a.duration == b.duration && a.isJump == b.isJump ==>
                  (a.id > b.id <==> j < k))
  {
    hide Trace, Steady, Sound, InTime;
    LandingOrder(g, es, clock);
    var t := Trace(g, es, clock);
    if j < k {
      assert Before(ByLanding, t[j].Key(), t[k].Key());
    } else {
      assert Before(ByLanding, t[k].Key(), t[j].Key());
    }
  }

  /** The same within one tick: what is due is resolved by arrival, flight, kind and age. */
  lemma LandingsOfTwo(g: Game, ms: int, a: Flight, b: Flight)
    requires Sound(g) && Steady(g) && a in g.active && b in g.active && a.id < b.id
    requires a.remaining == b.remaining <= ms && a.duration == b.duration && a.isJump == b.isJump
    requires forall m | m in g.active && m.remaining <= ms :: m == a || m == b
    ensures Landings(g.active, ms) == [b.After(ms), a.After(ms)]
  {
    hide Landings, Sound, Steady;
    SteadyOrdered(g);
    LandingsSorted(g.active, ms);
    var q := Landings(g.active, ms);
    var x, y := b.After(ms), a.After(ms);
    assert x.After(-ms) == b && y.After(-ms) == a;
    forall m ensures m in q <==> m in [x, y] {
      assert m.After(-ms).After(ms) == m;
    }
    SortedUnique(ByLanding, q, [x, y]);
  }

  /** Two movers reach one empty square at the same moment after equally long flights, and nobody else lands.
      Of two enemies the one launched first stands there in the end, and the other, who was there before him,
      is captured. Of two friends the one launched last stands there, and the other goes back. */
  lemma EqualFlights(g: Game, ms: int, a: Flight, b: Flight)
    requires Sound(g) && Steady(g) && !g.over && a in g.active && b in g.active && a.id < b.id
    requires a.remaining == b.remaining <= ms && a.duration == b.duration && !a.isJump && !b.isJump
    requires forall m | m in g.active && m.remaining <= ms :: m == a || m == b
    requires a.end == b.end && a.end !in g.grid
    ensures a.piece < |g.pieces| && b.piece < |g.pieces|
    ensures var r, i, j := Tick(g, ms), a.piece, b.piece;
            && r.pieces[i].status.Idle?
            && (g.pieces[i].color != g.pieces[j].color ==> r.On(a.end, i) && r.pieces[j].status.Captured?)
            && (g.pieces[i].color == g.pieces[j].color ==>
                  && r.On(a.end, j) && r.pieces[j].status.Idle?
                  && forall p | g.On(p, i) :: r.On(p, i))
  {
    hide Landings, StillMoving, Sound, Inv, Land;
    LandingsOfTwo(g, ms, a, b);
    LandingsApart(g, ms);
    var h, x, y := Airborne(g, ms), b.After(ms), a.After(ms);
    var air := FlightsOf(StillMoving(g.active, ms));
    var q := [x, y];
    assert q[1..] == [y] && [y][1..] == [];
    assert q[0] == x && q[1] == y;
    PendingTail(q, air);
    assert x in FlightsOf(q) + air && y in FlightsOf([y]) + air;
    InvParts(h, FlightsOf(q) + air, x);
    assert y in FlightsOf(q) + air;
    InvParts(h, FlightsOf(q) + air, y);
    FirstArrives(h, FlightsOf(q) + air, x, y);
    LandKeepsInv(h, FlightsOf(q) + air, x);
    var k := Land(h, x);
    SecondMeets(k, FlightsOf([y]) + air, y, x.piece);
    assert forall p | g.On(p, y.piece) :: h.On(p, y.piece) && k.On(p, y.piece);
    assert LandAll(h, q) == LandAll(k, [y]) && LandAll(k, [y]) == LandAll(Land(k, y), []);
  }

  /** The first of the two finds the square empty. */
  lemma FirstArrives(h: Game, pend: set<Flight>, x: Flight, y: Flight)
    requires Sound(h) && Inv(h, pend) && x in pend && y in pend && x != y
    requires x.piece < |h.pieces| && !x.isJump && x.end !in h.grid
    ensures y.piece < |h.pieces| && y.piece != x.piece
    ensures var k := Land(h, x);
            && k.On(x.end, x.piece) && k.pieces[x.piece].status.Idle?
            && k.pieces[x.piece].color == h.pieces[x.piece].color && k.pieces[y.piece] == h.pieces[y.piece]
            && forall p | h.On(p, y.piece) :: k.On(p, y.piece)
  {
    hide Inv, Settle;
    InvParts(h, pend, x);
    InvParts(h, pend, y);
    GroundedPiecesOwnNothing(h, pend, x);
    assert OutcomeOf(h, x) == Arrives;
    SettleEffect(h, x);
  }

  /** The second finds him there. */
  lemma SecondMeets(k: Game, pend: set<Flight>, y: Flight, j: nat)
    requires Sound(k) && Inv(k, pend) && y in pend && y.piece < |k.pieces| && !y.isJump
    requires k.On(y.end, j) && k.pieces[j].status.Idle? && j != y.piece
    ensures var r := Land(k, y);
            && r.pieces[y.piece].status.Idle?
            && (k.pieces[j].color != k.pieces[y.piece].color ==>
                  r.On(y.end, y.piece) && r.pieces[j].status.Captured?)
            && (k.pieces[j].color == k.pieces[y.piece].color ==> r.grid == k.grid && r.pieces[j] == k.pieces[j])
  {
    hide Inv, Settle, Capture;
    GroundedPiecesOwnNothing(k, pend, y);
    if k.pieces[j].color != k.pieces[y.piece].color {
      assert OutcomeOf(k, y) == Takes(j);
      TakesEffect(k, pend, y);
    } else {
      assert OutcomeOf(k, y) == Bounces;
    }
  }
}
