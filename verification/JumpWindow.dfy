/** When a jump protects its square. */
module JumpWindow {
  import opened Basics
  import opened Flights
  import opened Play
  import opened Occupancy
  import opened Traces

  function PendingAloft(l: Landing): set<Flight> {
    set m | m in l.Pending() :: m.Absolute(l.clock)
  }

  /** In the landing order of one tick, a motion that does not come before the k-th is not landed yet. */
  lemma LaterInQueue(q: seq<Flight>, k: nat, m: Flight)
    requires Sorted(ByLanding, q) && m in q && k < |q| && !Before(ByLanding, m, q[k])
    ensures m in q[k..]
  {
    var i :| 0 <= i < |q| && q[i] == m;
    if i >= k { assert q[k..][i - k] == m; }
  }

  /** Within one tick: a motion that is not due before the landing being resolved is still pending. */
  lemma PendingInTick(g: Game, e: Event, clock: int, k: nat, f: Flight)
    requires Sound(g) && Steady(g) && f in Aloft(g, clock) && k < |TraceOf(g, e, clock)|
    requires !Before(ByLanding, f, TraceOf(g, e, clock)[k].Key())
    ensures f in PendingAloft(TraceOf(g, e, clock)[k])
  {
    hide Steady, Sound, StillMoving, Landings, LandTrace, Sorted, Inv;
    SteadyOrdered(g);
    var c, l := clock + e.ms, TraceOf(g, e, clock)[k];
    TickTraceInv(g, e, clock, k);
    AloftHas(g, clock, f);
    var m, q := f.Absolute(-c), Landings(g.active, e.ms);
    assert m.After(-e.ms) == f.Absolute(-clock) && m.Absolute(c) == f;
    if m.remaining > 0 {
      Parted(g.active, e.ms, m);
    } else {
      LandingsSorted(g.active, e.ms);
      LaterInQueue(q, k, m);
    }
    assert m in l.Pending();
  }

  lemma {:induction false} PendingInRun(g: Game, es: seq<Event>, clock: int, k: nat, f: Flight)
    requires Sound(g) && Steady(g) && InTime(g) && AllTimely(es)
    requires f in Aloft(g, clock) && k < |Trace(g, es, clock)|
    requires !Before(ByLanding, f, Trace(g, es, clock)[k].Key())
    ensures f in PendingAloft(Trace(g, es, clock)[k])
    decreases |es|
  {
    hide Steady, Sound, Next, TraceOf, PendingAloft, Aloft, InTime;
    var t, h, c := TraceOf(g, es[0], clock), Next(g, es[0]), clock + Elapsed(g, es[0]);
    if k < |t| {
      PendingInTick(g, es[0], clock, k, f);
    } else {
      assert es == [es[0]] + es[1..];
      assert Timely(es[0]);
      NextKeeps(g, es[0]);
      NextKeepsTime(g, es[0]);
      AloftStep(g, es[0], clock, f);
      LandingsLieAhead(h, es[1..], c);
      PendingInRun(h, es[1..], c, k - |t|, f);
    }
  }

  /** A landing on a square whose enemy occupant still has a jump pending is caught. */
  lemma PendingJumpCatches(l: Landing, jump: Flight)
    requires l.Live() && Inv(l.before, l.Pending())
    requires jump in l.Pending() && jump.isJump && l.before.On(l.Flight().end, jump.piece) && !l.Flight().isJump
    requires l.before.pieces[jump.piece].color != l.before.pieces[l.Flight().piece].color
    ensures OutcomeOf(l.before, l.Flight()) == Caught(jump.piece)
  {
  }

  lemma JumperStays(g: Game, pend: set<Flight>, m: Flight, j: nat)
    requires Inv(g, pend) && m in pend && OutcomeOf(g, m) == Caught(j)
    ensures Land(g, m).pieces[m.piece].status.Captured? && Land(g, m).On(m.end, j)
    ensures Land(g, m).pieces[j] == g.pieces[j]
  {
    assert FlightTied(g, m);
    CaptureEffect(g, m.piece, g.pieces[j].color);
  }

  lemma MoverTakes(g: Game, m: Flight, j: nat)
    requires BoardInv(g) && m.piece < |g.pieces| && OutcomeOf(g, m) == Takes(j) && j != m.piece
    ensures Land(g, m).pieces[j].status.Captured? && Land(g, m).On(m.end, m.piece)
    ensures Land(g, m).pieces[m.piece].status.Idle?
  {
    hide Settle, Capture;
    ClearedEffect(g, m.end, j, g.pieces[m.piece].color);
    SettleEffect(Cleared(g, m.end, j, g.pieces[m.piece].color), m);
  }

  ghost predicate InWindow(l: Landing, jumpEnds: int)
    requires l.Live()
  {
    l.Key().remaining < jumpEnds || (l.Key().remaining == jumpEnds && l.Flight().duration <= JUMP_MS)
  }

  /** The jump just launched is in the air, and its piece stands where it was. */
  lemma Launched(g: Game, p: Position, clock: int)
    requires Sound(g) && Steady(g) && InTime(g) && CanStart(g, p)
    ensures var h := JumpRequest(g, p);
            && Steady(h) && InTime(h) && h.On(p, g.grid[p])
            && Launch(g, p, p, JUMP_MS, true).Absolute(clock) in Aloft(h, clock)
  {
    hide Steady, Sound;
    var h, launch := JumpRequest(g, p), Launch(g, p, p, JUMP_MS, true);
    NextKeeps(g, JumpAt(p));
    NextKeepsTime(g, JumpAt(p));
    assert h.active[|g.active|] == launch;
    AloftHas(h, clock, launch.Absolute(clock));
  }

  /** While the landing is inside the window, the jump launched by the request is still pending. */
  lemma JumpStillPending(g: Game, p: Position, es: seq<Event>, clock: int, k: nat) returns (jump: Flight)
    requires Sound(g) && Steady(g) && InTime(g) && AllTimely(es) && CanStart(g, p)
    requires k < |Trace(JumpRequest(g, p), es, clock)|
    requires !Trace(JumpRequest(g, p), es, clock)[k].Flight().isJump
    requires InWindow(Trace(JumpRequest(g, p), es, clock)[k], clock + JUMP_MS)
    ensures jump in Trace(JumpRequest(g, p), es, clock)[k].Pending() && jump.isJump && jump.piece == g.grid[p]
  {
    hide Steady, Trace, Sound, InTime;
    var h, l := JumpRequest(g, p), Trace(JumpRequest(g, p), es, clock)[k];
    var f := Launch(g, p, p, JUMP_MS, true).Absolute(clock);
    Launched(g, p, clock);
    PendingInRun(h, es, clock, k, f);
    jump :| jump in l.Pending() && jump.Absolute(l.clock) == f;
  }

  // ---- a jump that has ended ----

  ghost predicate Grounded(g: Game, i: nat) {
    i < |g.pieces| && (g.pieces[i].status.Idle? || g.pieces[i].status.Captured?)
  }

  /** Within one tick a piece with no motion left stays on the ground. */
  lemma {:induction false} StaysGrounded(g: Game, q: seq<Flight>, clock: int, air: set<Flight>, j: nat, k: nat)
    requires Sound(g) && Inv(g, FlightsOf(q) + air) && Named(g, q) && k < |q|
    requires forall a, b | 0 <= a < b < |q| :: q[a] != q[b]
    requires forall m | m in q :: m !in air
    requires Grounded(g, j) && !Owns(FlightsOf(q) + air, j)
    ensures Grounded(LandTrace(g, q, clock)[k].before, j)
    decreases k
  {
    hide Inv, Land, Sound, FlightsOf;
    if k > 0 {
      var pend := FlightsOf(q) + air;
      PendingTail(q, air);
      LandKeepsInv(g, pend, q[0]);
      LandEffect(g, pend, q[0]);
      StaysGrounded(Land(g, q[0]), q[1..], clock, air, j, k - 1);
    }
  }

  /** Within one tick a piece is on the ground from its own landing on. */
  lemma {:induction false} GroundedOnceLanded(g: Game, q: seq<Flight>, clock: int, air: set<Flight>, i: nat, k: nat)
    requires Sound(g) && Inv(g, FlightsOf(q) + air) && Named(g, q) && i < k < |q|
    requires forall a, b | 0 <= a < b < |q| :: q[a] != q[b]
    requires forall m | m in q :: m !in air
    ensures Grounded(LandTrace(g, q, clock)[k].before, q[i].piece)
    decreases k
  {
    hide Inv, Land, Sound, Grounded, FlightsOf, Owns, LandTrace;
    var pend, h := FlightsOf(q) + air, Land(g, q[0]);
    PendingTail(q, air);
    LandKeepsInv(g, pend, q[0]);
    LaterInTrace(g, q, clock, k);
    if i == 0 {
      LandsOnGround(g, pend, q[0]);
      StaysGrounded(h, q[1..], clock, air, q[0].piece, k - 1);
    } else {
      GroundedOnceLanded(h, q[1..], clock, air, i - 1, k - 1);
    }
  }

  lemma LaterInTrace(g: Game, q: seq<Flight>, clock: int, k: nat)
    requires Sound(g) && Named(g, q) && 0 < k < |q|
    ensures LandTrace(g, q, clock)[k] == LandTrace(Land(g, q[0]), q[1..], clock)[k - 1]
  {
    hide Land;
  }

  lemma LandsOnGround(g: Game, pend: set<Flight>, m: Flight)
    requires Sound(g) && m.piece < |g.pieces| && Inv(g, pend) && m in pend
    ensures Grounded(Land(g, m), m.piece) && !Owns(pend - {m}, m.piece)
  {
    hide Inv, Land;
    LandEffect(g, pend, m);
    InvParts(g, pend, m);
  }

  /** In the landing order of one tick, a motion that comes before the k-th has an earlier place. */
  lemma EarlierInQueue(q: seq<Flight>, k: nat, m: Flight) returns (i: nat)
    requires Sorted(ByLanding, q) && m in q && k < |q| && Before(ByLanding, m, q[k])
    ensures i < k && q[i] == m
  {
    i :| 0 <= i < |q| && q[i] == m;
  }

  /** Within one tick: a motion due before the landing being resolved has put its piece down. */
  lemma LandedInTick(g: Game, e: Event, clock: int, k: nat, f: Flight)
    requires Sound(g) && Steady(g) && f in Aloft(g, clock) && k < |TraceOf(g, e, clock)|
    requires Before(ByLanding, f, TraceOf(g, e, clock)[k].Key())
    ensures Grounded(TraceOf(g, e, clock)[k].before, f.piece)
  {
    hide Steady, Sound, StillMoving, Landings, LandTrace, Inv, Grounded;
    SteadyOrdered(g);
    var c, q := clock + e.ms, Landings(g.active, e.ms);
    AloftHas(g, clock, f);
    var m := f.Absolute(-c);
    assert m.After(-e.ms) == f.Absolute(-clock);
    LandingsSorted(g.active, e.ms);
    assert TraceOf(g, e, clock)[k].queue[0] == q[k];
    assert q[k].remaining <= 0 by { assert q[k] in q; }
    assert Before(ByLanding, m, q[k]) && m in q;
    var i := EarlierInQueue(q, k, m);
    LandingsApart(g, e.ms);
    GroundedOnceLanded(Airborne(g, e.ms), q, c, FlightsOf(StillMoving(g.active, e.ms)), i, k);
  }

  /** Over a run: a motion due at the same time as a landing, but before it in the landing order, has
      put its piece down in the same tick. */
  lemma {:induction false} LandedInRun(g: Game, es: seq<Event>, clock: int, k: nat, f: Flight)
    requires Sound(g) && Steady(g) && InTime(g) && AllTimely(es)
    requires f in Aloft(g, clock) && k < |Trace(g, es, clock)|
    requires f.remaining == Trace(g, es, clock)[k].Key().remaining
    requires Before(ByLanding, f, Trace(g, es, clock)[k].Key())
    ensures Grounded(Trace(g, es, clock)[k].before, f.piece)
    decreases |es|
  {
    hide Steady, Sound, Next, TraceOf, Grounded, Aloft, InTime;
    var t, h, c := TraceOf(g, es[0], clock), Next(g, es[0]), clock + Elapsed(g, es[0]);
    if k < |t| {
      LandedInTick(g, es[0], clock, k, f);
    } else {
      assert es == [es[0]] + es[1..];
      assert Timely(es[0]);
      NextKeeps(g, es[0]);
      NextKeepsTime(g, es[0]);
      AloftStep(g, es[0], clock, f);
      LandingsLieAhead(h, es[1..], c);
      LandedInRun(h, es[1..], c, k - |t|, f);
    }
  }

  /** A landing due exactly when the jump ends, after a longer flight, finds the jumper on the ground. */
  lemma JumperHasLanded(g: Game, p: Position, es: seq<Event>, clock: int, k: nat)
    requires Sound(g) && Steady(g) && InTime(g) && AllTimely(es) && CanStart(g, p)
    requires k < |Trace(JumpRequest(g, p), es, clock)|
    requires var l := Trace(JumpRequest(g, p), es, clock)[k];
             l.Key().remaining == clock + JUMP_MS && l.Flight().duration > JUMP_MS
    ensures Grounded(Trace(JumpRequest(g, p), es, clock)[k].before, g.grid[p])
  {
    hide Steady, Trace, Sound, InTime, Grounded;
    Launched(g, p, clock);
    LandedInRun(JumpRequest(g, p), es, clock, k, Launch(g, p, p, JUMP_MS, true).Absolute(clock));
  }

  lemma OnBoardIdle(g: Game, p: Position, j: nat)
    requires BoardInv(g) && g.On(p, j) && Grounded(g, j)
    ensures g.pieces[j].status.Idle?
  {
  }

  /** A mover lands on square p, where the enemy piece j stands. */
  ghost predicate Meets(l: Landing, p: Position, j: nat) {
    && l.Live() && !l.Flight().isJump && l.Flight().end == p
    && l.before.On(p, j) && j < |l.before.pieces| && l.Flight().piece < |l.before.pieces|
    && l.before.pieces[j].color != l.before.pieces[l.Flight().piece].color
  }

  /** The mover is captured, and j stands on p as before. */
  ghost predicate JumperWins(l: Landing, p: Position, j: nat)
    requires Meets(l, p, j) && Sound(l.before)
  {
    var after := Land(l.before, l.Flight());
    after.pieces[l.Flight().piece].status.Captured? && after.On(p, j) && after.pieces[j] == l.before.pieces[j]
  }

  /** j is captured, and the mover stands on p, idle. */
  ghost predicate MoverWins(l: Landing, p: Position, j: nat)
    requires Meets(l, p, j) && Sound(l.before)
  {
    var m, after := l.Flight(), Land(l.before, l.Flight());
    after.pieces[j].status.Captured? && after.On(p, m.piece) && after.pieces[m.piece].status.Idle?
  }

  lemma LaterLandingTakes(l: Landing, p: Position, j: nat)
    requires Meets(l, p, j) && Sound(l.before) && Inv(l.before, l.Pending()) && l.before.pieces[j].status.Idle?
    ensures MoverWins(l, p, j)
  {
    hide Land, OutcomeOf;
    GroundedPiecesOwnNothing(l.before, l.Pending(), l.Flight());
    IdleTarget(l, p, j);
    MoverTakes(l.before, l.Flight(), j);
  }

  lemma IdleTarget(l: Landing, p: Position, j: nat)
    requires Meets(l, p, j) && Sound(l.before) && l.before.pieces[j].status.Idle?
    requires !l.before.pieces[l.Flight().piece].status.Captured?
    ensures OutcomeOf(l.before, l.Flight()) == Takes(j)
  {
  }

  lemma JumperCatches(l: Landing, p: Position, j: nat, jump: Flight)
    requires Meets(l, p, j) && Sound(l.before) && Inv(l.before, l.Pending())
    requires jump in l.Pending() && jump.isJump && jump.piece == j
    ensures JumperWins(l, p, j)
  {
    hide Land, OutcomeOf, Inv;
    PendingJumpCatches(l, jump);
    JumperStays(l.before, l.Pending(), l.Flight(), j);
  }

  /** The jump window. Piece j jumps on square p at time `clock`; its jump ends at E = clock + 1000.
      Take any later run and any landing of an enemy on p while j is on p. Due before E, the mover is
      captured and j is untouched. Due exactly at E, the mover is captured if and only if it flew for
      at most 1000 ms, and otherwise captures j. Due later, it captures j if j is idle there. */
  lemma JumpProtects(g: Game, p: Position, es: seq<Event>, clock: int, k: nat)
    requires Sound(g) && Steady(g) && InTime(g) && AllTimely(es) && CanStart(g, p)
    requires k < |Trace(JumpRequest(g, p), es, clock)|
    requires Meets(Trace(JumpRequest(g, p), es, clock)[k], p, g.grid[p])
    ensures var l, j, end := Trace(JumpRequest(g, p), es, clock)[k], g.grid[p], clock + 1000;
            && Sound(l.before)
            && (l.Key().remaining < end ==> JumperWins(l, p, j))
            && (l.Key().remaining == end ==>
                  && (JumperWins(l, p, j) <==> l.Flight().duration <= 1000)
                  && (MoverWins(l, p, j) <==> l.Flight().duration > 1000))
            && (l.Key().remaining > end && l.before.pieces[j].status.Idle? ==> MoverWins(l, p, j))
  {
    hide Steady, Trace, Land, JumpRequest, InTime, Sound, Inv, OutcomeOf;
    var h, l, j := JumpRequest(g, p), Trace(JumpRequest(g, p), es, clock)[k], g.grid[p];
    NextKeeps(g, JumpAt(p));
    InvAtEveryLanding(h, es, clock, k);
    InvBoard(l.before, l.Pending());
    if InWindow(l, clock + JUMP_MS) {
      var jump := JumpStillPending(g, p, es, clock, k);
      JumperCatches(l, p, j, jump);
    } else {
      if l.Key().remaining == clock + JUMP_MS {
        JumperHasLanded(g, p, es, clock, k);
        OnBoardIdle(l.before, p, j);
      }
      if l.before.pieces[j].status.Idle? { LaterLandingTakes(l, p, j); }
    }
  }
}
