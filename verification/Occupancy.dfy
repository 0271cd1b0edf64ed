/** The occupancy invariant: it holds in every reachable state and at every point inside the
    landing loop. `pend` is the set of pending motions: the active ones plus the completed ones the
    loop has not processed yet. */
module Occupancy {
  import opened Basics
  import opened Flights
  import opened Play

  function FlightsOf(q: seq<Flight>): set<Flight> {
    set m | m in q
  }

  ghost predicate BoardInv(g: Game) {
    && Sound(g)
    // no piece stands on two squares
    && (forall p, q | p in g.grid && q in g.grid && g.grid[p] == g.grid[q] :: p == q)
    && (forall p | p in g.grid :: g.InBounds(p))
    // captured pieces are off the board
    && (forall p | p in g.grid :: !g.pieces[g.grid[p]].status.Captured?)
  }

  /** What is true of a pending motion on its own. */
  ghost predicate FlightOk(g: Game, m: Flight) {
    && m.piece < |g.pieces|
    && 1 <= m.id <= g.launched
    && g.InBounds(m.start) && g.InBounds(m.end)
    && (m.isJump <==> m.start == m.end)
  }

  /** What ties a pending motion to the board: its piece is in the air, and if the piece is on the
      board at all it is at the start of the motion. */
  ghost predicate FlightTied(g: Game, m: Flight)
    requires m.piece < |g.pieces|
  {
    && g.pieces[m.piece].status == (if m.isJump then Jumping else Moving)
    && (forall p | p in g.grid && g.grid[p] == m.piece :: p == m.start)
  }

  ghost predicate Owns(pend: set<Flight>, i: nat) {
    exists m :: m in pend && m.piece == i
  }

  ghost predicate Inv(g: Game, pend: set<Flight>) {
    && BoardInv(g)
    && (forall m | m in pend :: FlightOk(g, m) && FlightTied(g, m))
    // each piece owns at most one pending motion, and each motion has its own id
    && (forall m, n | m in pend && n in pend && m.piece == n.piece :: m == n)
    && (forall m, n | m in pend && n in pend && m.id == n.id :: m == n)
    && (forall i | 0 <= i < |g.pieces| && g.pieces[i].status.Jumping? :: Owns(pend, i))
  }

  lemma InvBoard(g: Game, pend: set<Flight>)
    requires Inv(g, pend)
    ensures BoardInv(g)
  {
  }

  /** Idle and captured pieces own no pending motion; so the skip for captured movers never runs. */
  lemma GroundedPiecesOwnNothing(g: Game, pend: set<Flight>, m: Flight)
    requires Inv(g, pend) && m in pend
    ensures !g.pieces[m.piece].status.Idle? && !g.pieces[m.piece].status.Captured?
    ensures OutcomeOf(g, m) != Skipped
  {
  }

  /** Enough to carry the invariant over one landing: only the mover may arrive on a new square, it
      is grounded, and no other piece changes status except an idle one that is captured. */
  lemma GroundMover(g: Game, r: Game, pend: set<Flight>, m: Flight)
    requires Inv(g, pend) && m in pend
    requires BoardInv(r)
    requires r.rows == g.rows && r.cols == g.cols && r.launched == g.launched && |r.pieces| == |g.pieces|
    requires r.pieces[m.piece].status.Idle? || r.pieces[m.piece].status.Captured?
    requires forall i | 0 <= i < |g.pieces| && i != m.piece ::
               r.pieces[i].status == g.pieces[i].status || (g.pieces[i].status.Idle? && r.pieces[i].status.Captured?)
    requires forall p | p in r.grid && r.grid[p] != m.piece :: p in g.grid && g.grid[p] == r.grid[p]
    ensures Inv(r, pend - {m})
  {
    var rest := pend - {m};
    forall i | 0 <= i < |r.pieces| && r.pieces[i].status.Jumping? ensures Owns(rest, i) {
      assert g.pieces[i].status.Jumping?;
      var n :| n in pend && n.piece == i;
      assert n in rest;
    }
    forall n | n in rest ensures FlightOk(r, n) && FlightTied(r, n) {
      assert FlightOk(g, n) && FlightTied(g, n) && n.piece != m.piece;
    }
  }

  /** Where every piece stands and how it stands after a mover has settled. */
  lemma SettleEffect(g: Game, m: Flight)
    requires Sound(g) && m.piece < |g.pieces|
    ensures var r := Settle(g, m);
            && r.grid == (if g.On(m.start, m.piece) then g.grid - {m.start} else g.grid)[m.end := m.piece]
            && r.pieces[m.piece].status.Idle? && r.pieces[m.piece].color == g.pieces[m.piece].color
            && (forall i | 0 <= i < |g.pieces| && i != m.piece :: r.pieces[i] == g.pieces[i])
            && r.rows == g.rows && r.cols == g.cols && r.launched == g.launched && r.active == g.active
            && r.white == g.white && r.black == g.black && r.over == g.over && r.winner == g.winner
  {
  }

  /** One piece has come to stand on p, wherever it stood before; the others stand where they stood. */
  lemma PutKeepsBoard(g: Game, r: Game, p: Position, i: nat)
    requires BoardInv(g) && Sound(r) && |r.pieces| == |g.pieces| && r.rows == g.rows && r.cols == g.cols
    requires r.On(p, i) && g.InBounds(p) && i < |g.pieces| && r.pieces[i].status.Idle?
    requires forall q | q in r.grid && q != p :: q in g.grid && g.grid[q] == r.grid[q] != i
    requires forall k | 0 <= k < |g.pieces| && k != i :: r.pieces[k] == g.pieces[k]
    ensures BoardInv(r)
  {
  }

  /** The square a mover takes is free for it: afterwards the board still holds no piece twice. */
  lemma SettleKeepsBoard(g: Game, m: Flight)
    requires BoardInv(g) && FlightOk(g, m)
    requires forall p | p in g.grid && g.grid[p] == m.piece :: p == m.start
    ensures BoardInv(Settle(g, m))
  {
    hide Settle;
    SettleEffect(g, m);
    PutKeepsBoard(g, Settle(g, m), m.end, m.piece);
  }

  lemma StayKeepsInv(g: Game, pend: set<Flight>, m: Flight)
    requires Inv(g, pend) && m in pend
    ensures Inv(SetStatus(g, m.piece, Idle), pend - {m})
  {
    var r := SetStatus(g, m.piece, Idle);
    assert BoardInv(r);
    GroundMover(g, r, pend, m);
  }

  /** A capture changes one status, the score and perhaps the result; it moves nothing. */
  lemma CaptureEffect(g: Game, i: nat, taker: Color)
    requires Sound(g) && i < |g.pieces|
    ensures var r := Capture(g, i, taker);
            && r.pieces == g.pieces[i := g.pieces[i].(status := Captured)]
            && r.grid == g.grid && r.rows == g.rows && r.cols == g.cols
            && r.launched == g.launched && r.active == g.active
  {
  }

  /** Lifting a piece off its only square leaves a good board even if the piece was just captured. */
  lemma LiftKeepsBoard(g: Game, p: Position, i: nat)
    requires Sound(g)
    requires forall q | q in g.grid && g.grid[q] == i :: q == p
    requires forall q, s | q in g.grid && s in g.grid && g.grid[q] == g.grid[s] :: q == s
    requires forall q | q in g.grid && g.grid[q] != i :: !g.pieces[g.grid[q]].status.Captured?
    requires forall q | q in g.grid :: g.InBounds(q)
    ensures var r := LiftFrom(g, p, i);
            && BoardInv(r)
            && forall q | q in r.grid :: q in g.grid && g.grid[q] == r.grid[q] && r.grid[q] != i
  {
  }

  lemma CaughtKeepsInv(g: Game, pend: set<Flight>, m: Flight, taker: Color)
    requires Inv(g, pend) && m in pend
    ensures Inv(LiftFrom(Capture(g, m.piece, taker), m.start, m.piece), pend - {m})
  {
    assert FlightTied(g, m);
    CaptureEffect(g, m.piece, taker);
    LiftKeepsBoard(Capture(g, m.piece, taker), m.start, m.piece);
    GroundMover(g, LiftFrom(Capture(g, m.piece, taker), m.start, m.piece), pend, m);
  }

  lemma ArrivesKeepsInv(g: Game, pend: set<Flight>, m: Flight)
    requires Inv(g, pend) && m in pend
    ensures Inv(Settle(g, m), pend - {m})
  {
    hide Settle;
    assert FlightOk(g, m) && FlightTied(g, m);
    SettleKeepsBoard(g, m);
    SettleEffect(g, m);
    GroundMover(g, Settle(g, m), pend, m);
  }

  lemma ClearedEffect(g: Game, p: Position, t: nat, taker: Color)
    requires BoardInv(g) && g.On(p, t)
    ensures var r := Cleared(g, p, t, taker);
            && r.pieces == g.pieces[t := g.pieces[t].(status := Captured)] && r.grid == g.grid - {p}
            && r.rows == g.rows && r.cols == g.cols && r.launched == g.launched && r.active == g.active
    ensures BoardInv(Cleared(g, p, t, taker))
  {
    CaptureEffect(g, t, taker);
    LiftKeepsBoard(Capture(g, t, taker), p, t);
  }

  lemma TakesKeepsInv(g: Game, pend: set<Flight>, m: Flight, t: nat)
    requires Inv(g, pend) && m in pend && g.On(m.end, t) && g.pieces[t].status.Idle?
    ensures Inv(Settle(Cleared(g, m.end, t, g.pieces[m.piece].color), m), pend - {m})
  {
    var c := Cleared(g, m.end, t, g.pieces[m.piece].color);
    assert FlightOk(g, m) && FlightTied(g, m);
    ClearedEffect(g, m.end, t, g.pieces[m.piece].color);
    SettleKeepsBoard(c, m);
    SettleEffect(c, m);
    GroundMover(g, Settle(c, m), pend, m);
  }

  /** The parts of the invariant most proofs need. */
  lemma InvParts(g: Game, pend: set<Flight>, m: Flight)
    requires Inv(g, pend) && m in pend
    ensures BoardInv(g) && m.piece < |g.pieces|
    ensures forall n | n in pend && n.piece == m.piece :: n == m
    ensures Owns(pend, m.piece)
    ensures forall i | 0 <= i < |g.pieces| && g.pieces[i].status.Jumping? :: Owns(pend, i)
    ensures forall i | 0 <= i < |g.pieces| && Owns(pend, i) :: g.pieces[i].status.Jumping? || g.pieces[i].status.Moving?
  {
  }

  /** Landing one pending motion keeps the invariant, with that motion no longer pending. */
  lemma LandKeepsInv(g: Game, pend: set<Flight>, m: Flight)
    requires Inv(g, pend) && m in pend
    ensures Inv(Land(g, m), pend - {m})
  {
    hide Inv, Settle, Capture, LiftFrom;
    InvParts(g, pend, m);
    GroundedPiecesOwnNothing(g, pend, m);
    match OutcomeOf(g, m)
    case JumpEnds => StayKeepsInv(g, pend, m);
    case Bounces => StayKeepsInv(g, pend, m);
    case Caught(t) => CaughtKeepsInv(g, pend, m, g.pieces[t].color);
    case Arrives => ArrivesKeepsInv(g, pend, m);
    case Takes(t) => TakesKeepsInv(g, pend, m, t);
  }

  lemma CaughtEffect(g: Game, pend: set<Flight>, m: Flight)
    requires Sound(g) && Inv(g, pend) && m in pend && m.piece < |g.pieces| && OutcomeOf(g, m).Caught?
    ensures var r := Land(g, m);
            && r.pieces == g.pieces[m.piece := g.pieces[m.piece].(status := Captured)]
            && r.grid == (if g.On(m.start, m.piece) then g.grid - {m.start} else g.grid)
  {
    hide Inv, Capture;
    CaptureEffect(g, m.piece, g.pieces[OutcomeOf(g, m).jumper].color);
  }

  lemma TakesEffect(g: Game, pend: set<Flight>, m: Flight)
    requires Sound(g) && Inv(g, pend) && m in pend && m.piece < |g.pieces| && OutcomeOf(g, m).Takes?
    ensures var r, t := Land(g, m), OutcomeOf(g, m).victim;
            && t != m.piece && t < |g.pieces| && g.On(m.end, t)
            && r.pieces[t] == g.pieces[t].(status := Captured)
            && r.pieces[m.piece].status.Idle? && r.pieces[m.piece].color == g.pieces[m.piece].color
            && (forall i | 0 <= i < |g.pieces| && i != m.piece && i != t :: r.pieces[i] == g.pieces[i])
            && r.grid == (if g.On(m.start, m.piece) then g.grid - {m.end} - {m.start} else g.grid - {m.end})
                         [m.end := m.piece]
  {
    hide Inv, Settle, Capture;
    InvParts(g, pend, m);
    var t, c := g.grid[m.end], g.pieces[m.piece].color;
    ClearedEffect(g, m.end, t, c);
    SettleEffect(Cleared(g, m.end, t, c), m);
  }

  /** The only squares a landing changes are the start of the mover and, if it settles, its end. */
  lemma LeavesOnly(g: Game, pend: set<Flight>, m: Flight, p: Position)
    requires Sound(g) && m.piece < |g.pieces| && Inv(g, pend) && m in pend
    requires p in g.grid && !Land(g, m).On(p, g.grid[p])
    ensures g.On(p, m.piece) || (p == m.end && (OutcomeOf(g, m).Arrives? || OutcomeOf(g, m).Takes?))
  {
    hide Settle, Inv, Capture;
    match OutcomeOf(g, m)
    case Caught(_) => CaughtEffect(g, pend, m);
    case Arrives => SettleEffect(g, m);
    case Takes(_) => TakesEffect(g, pend, m);
    case _ =>
  }

  /** What one landing does to the pieces and the squares, whichever branch it takes. */
  lemma LandEffect(g: Game, pend: set<Flight>, m: Flight)
    requires Sound(g) && m.piece < |g.pieces| && Inv(g, pend) && m in pend
    ensures BoardInv(Land(g, m))
    ensures OutcomeOf(g, m).Arrives? || OutcomeOf(g, m).Takes? ==> Land(g, m).On(m.end, m.piece)
    ensures OutcomeOf(g, m).JumpEnds? || OutcomeOf(g, m).Bounces? ==> Land(g, m).grid == g.grid
    ensures Land(g, m).pieces[m.piece].color == g.pieces[m.piece].color
    ensures Land(g, m).pieces[m.piece].status == if OutcomeOf(g, m).Caught? then Captured else Idle
    ensures forall i | 0 <= i < |g.pieces| && i != m.piece ::
              Land(g, m).pieces[i] == g.pieces[i] ||
              (OutcomeOf(g, m) == Takes(i) && Land(g, m).pieces[i] == g.pieces[i].(status := Captured))
    ensures forall p | p in Land(g, m).grid && Land(g, m).grid[p] != m.piece :: g.On(p, Land(g, m).grid[p])
    ensures forall p | p in g.grid && !Land(g, m).On(p, g.grid[p]) ::
              g.On(p, m.piece) || (p == m.end && (OutcomeOf(g, m).Arrives? || OutcomeOf(g, m).Takes?))
  {
    hide Inv, Settle, Capture, Sound, BoardInv;
    forall p | p in g.grid && !Land(g, m).On(p, g.grid[p])
      ensures g.On(p, m.piece) || (p == m.end && (OutcomeOf(g, m).Arrives? || OutcomeOf(g, m).Takes?))
    {
      LeavesOnly(g, pend, m, p);
    }
    GroundedPiecesOwnNothing(g, pend, m);
    LandKeepsInv(g, pend, m);
    InvBoard(Land(g, m), pend - {m});
    match OutcomeOf(g, m)
    case Caught(t) => CaughtEffect(g, pend, m);
    case Arrives => SettleEffect(g, m);
    case Takes(t) => TakesEffect(g, pend, m);
    case _ =>
  }

  /** The list of motions in the air is kept in order of launch. */
  ghost predicate Ordered(q: seq<Flight>) {
    forall i, j | 0 <= i < j < |q| :: q[i].id < q[j].id
  }

  /** The invariant between two calls. */
  ghost predicate Steady(g: Game) {
    Inv(g, FlightsOf(g.active)) && Ordered(g.active)
  }

  /** What is left pending when the first of the completed motions has landed. */
  lemma PendingTail(q: seq<Flight>, air: set<Flight>)
    requires q != [] && (forall i, j | 0 <= i < j < |q| :: q[i] != q[j]) && (forall m | m in q :: m !in air)
    ensures q[0] in FlightsOf(q) + air
    ensures FlightsOf(q) + air - {q[0]} == FlightsOf(q[1..]) + air
    ensures (forall i, j | 0 <= i < j < |q[1..]| :: q[1..][i] != q[1..][j]) && (forall m | m in q[1..] :: m !in air)
  {
    assert q == [q[0]] + q[1..];
    assert q[0] !in q[1..];
  }

  lemma {:induction false} LandAllKeepsInv(g: Game, q: seq<Flight>, air: set<Flight>)
    requires Sound(g) && Inv(g, FlightsOf(q) + air)
    requires forall i, j | 0 <= i < j < |q| :: q[i] != q[j]
    requires forall m | m in q :: m !in air
    requires Named(g, q)
    ensures Inv(LandAll(g, q), air)
    decreases |q|
  {
    hide Inv, Land;
    if q == [] {
      assert FlightsOf(q) + air == air;
    } else {
      PendingTail(q, air);
      LandKeepsInv(g, FlightsOf(q) + air, q[0]);
      LandAllKeepsInv(Land(g, q[0]), q[1..], air);
    }
  }

  lemma {:induction false} AgingKeepsIds(q: seq<Flight>, ms: int, low: nat)
    requires forall m | m in q :: low < m.id
    ensures forall m | m in StillMoving(q, ms) :: low < m.id
    ensures forall m | m in Completed(q, ms) :: low < m.id
  {
    if q != [] { AgingKeepsIds(q[1..], ms, low); }
  }

  lemma {:induction false} AgingKeepsOrder(q: seq<Flight>, ms: int)
    requires Ordered(q)
    ensures Ordered(StillMoving(q, ms)) && Ordered(Completed(q, ms))
  {
    if q != [] {
      AgingKeepsOrder(q[1..], ms);
      AgingKeepsIds(q[1..], ms, q[0].id);
    }
  }

  /** The landings of a tick are the completed motions, strictly sorted. */
  lemma LandingsSorted(q: seq<Flight>, ms: int)
    requires Ordered(q)
    ensures Sorted(ByLanding, Landings(q, ms))
    ensures forall m :: m in Landings(q, ms) <==> m.remaining <= 0 && m.After(-ms) in q
    ensures DistinctIds(Landings(q, ms))
  {
    AgingKeepsOrder(q, ms);
    var c := Completed(q, ms);
    SortSorts(ByArrival, c);
    var s := Sort(ByArrival, c);
    SameElementsDistinctIds(c, s);
    SortSorts(ByLanding, s);
    SameElementsDistinctIds(c, Landings(q, ms));
    PartedAll(q, ms);
  }

  /** A strictly sorted list of flights taken from a list with distinct ids has distinct ids. */
  lemma SameElementsDistinctIds(c: seq<Flight>, s: seq<Flight>)
    requires DistinctIds(c)
    requires Sorted(ByArrival, s) || Sorted(ByLanding, s)
    requires forall m :: m in s <==> m in c
    ensures DistinctIds(s)
  {
    forall i, j | 0 <= i < j < |s| ensures s[i].id != s[j].id {
      assert s[i] in c && s[j] in c && s[i] != s[j];
    }
  }

  /** The invariant does not look at the time left, so it survives letting every motion age. */
  lemma AgingKeepsInv(g: Game, pend: set<Flight>, aged: set<Flight>, ms: int)
    requires Inv(g, pend)
    requires forall m | m in aged :: m.After(-ms) in pend
    requires forall m | m in pend :: m.After(ms) in aged
    ensures Inv(g, aged)
  {
    forall m | m in aged ensures FlightOk(g, m) && FlightTied(g, m) {
      var o := m.After(-ms);
      assert FlightOk(g, o) && FlightTied(g, o);
    }
    forall m, n | m in aged && n in aged && (m.piece == n.piece || m.id == n.id) ensures m == n {
      assert m.After(-ms) == n.After(-ms);
    }
    forall i | 0 <= i < |g.pieces| && g.pieces[i].status.Jumping? ensures Owns(aged, i) {
      var o :| o in pend && o.piece == i;
      assert o.After(ms) in aged;
    }
  }

  /** Where the landing loop starts. */
  lemma AirborneInv(g: Game, ms: int)
    requires Steady(g)
    ensures Sorted(ByLanding, Landings(g.active, ms)) && DistinctIds(Landings(g.active, ms))
    ensures Inv(Airborne(g, ms), FlightsOf(Landings(g.active, ms)) + FlightsOf(StillMoving(g.active, ms)))
    ensures FlightsOf(Landings(g.active, ms)) !! FlightsOf(StillMoving(g.active, ms))
    ensures Ordered(StillMoving(g.active, ms))
  {
    hide Inv, Sorted, DistinctIds, Landings, StillMoving, Completed;
    InvBoard(g, FlightsOf(g.active));
    LandingsSorted(g.active, ms);
    AgingKeepsOrder(g.active, ms);
    PartedAll(g.active, ms);
    var was := FlightsOf(g.active);
    var aged := FlightsOf(Landings(g.active, ms)) + FlightsOf(StillMoving(g.active, ms));
    forall m | m in was ensures m.After(ms) in aged {
      assert m.After(ms).After(-ms) == m;
    }
    AgingKeepsInv(g, was, aged, ms);
    InvFrame(g, Airborne(g, ms), aged);
  }

  lemma AgingKeepsOwners(q: seq<Flight>, ms: int, i: nat)
    ensures Owns(FlightsOf(Landings(q, ms)) + FlightsOf(StillMoving(q, ms)), i) <==> Owns(FlightsOf(q), i)
  {
    hide Landings, StillMoving;
    LandingsKeep(q, ms);
    PartedAll(q, ms);
    var aged := FlightsOf(Landings(q, ms)) + FlightsOf(StillMoving(q, ms));
    if Owns(aged, i) {
      var m :| m in aged && m.piece == i;
      assert m.After(-ms) in FlightsOf(q);
    }
    if Owns(FlightsOf(q), i) {
      var m :| m in FlightsOf(q) && m.piece == i;
      assert m.After(ms).After(-ms) == m;
      assert m.After(ms) in aged;
    }
  }

  lemma TickKeeps(g: Game, ms: int)
    requires Steady(g)
    ensures Steady(Tick(g, ms))
  {
    if !g.over {
      AirborneInv(g, ms);
      var q := Landings(g.active, ms);
      forall i, j | 0 <= i < j < |q| ensures q[i] != q[j] {
        assert q[i].id != q[j].id;
      }
      forall m | m in q ensures m !in FlightsOf(StillMoving(g.active, ms)) {
        assert m in FlightsOf(q);
      }
      LandAllKeepsInv(Airborne(g, ms), q, FlightsOf(StillMoving(g.active, ms)));
    }
  }

  /** A piece that stands idle on the board may be sent into the air, with or without a motion:
      a launch dropped by the head-on test leaves it MOVING and owning none. */
  lemma LaunchKeepsPieces(g: Game, pend: set<Flight>, i: nat, p: Position, s: Status)
    requires Inv(g, pend) && i < |g.pieces| && g.pieces[i].status.Idle? && g.On(p, i) && !s.Captured?
    ensures var r := SetStatus(g, i, s).(launched := g.launched + 1);
            && BoardInv(r)
            && forall n | n in pend :: FlightOk(r, n) && FlightTied(r, n) && n.piece != i && n.id < r.launched
  {
    var r := SetStatus(g, i, s).(launched := g.launched + 1);
    forall n | n in pend ensures FlightOk(r, n) && FlightTied(r, n) && n.piece != i && n.id < r.launched {
      assert FlightOk(g, n) && FlightTied(g, n);
    }
  }

  lemma DroppedLaunchKeepsInv(g: Game, pend: set<Flight>, i: nat, p: Position)
    requires Inv(g, pend) && i < |g.pieces| && g.pieces[i].status.Idle? && g.On(p, i)
    ensures Inv(SetStatus(g, i, Moving).(launched := g.launched + 1), pend)
  {
    LaunchKeepsPieces(g, pend, i, p, Moving);
  }

  lemma LaunchKeepsInv(g: Game, pend: set<Flight>, m: Flight, s: Status)
    requires Inv(g, pend)
    requires m.piece < |g.pieces| && g.pieces[m.piece].status.Idle? && g.On(m.start, m.piece)
    requires m.id == g.launched + 1 && g.InBounds(m.end) && (m.isJump <==> m.start == m.end)
    requires s == if m.isJump then Jumping else Moving
    ensures Inv(SetStatus(g, m.piece, s).(launched := g.launched + 1), pend + {m})
  {
    LaunchKeepsPieces(g, pend, m.piece, m.start, s);
    var r, air := SetStatus(g, m.piece, s).(launched := g.launched + 1), pend + {m};
    assert FlightOk(r, m) && FlightTied(r, m);
    forall i | 0 <= i < |r.pieces| && r.pieces[i].status.Jumping? ensures Owns(air, i) {
      if i == m.piece {
        assert m in air;
      } else {
        var n :| n in pend && n.piece == i;
        assert n in air;
      }
    }
  }

  /** The invariant looks at the board, the pieces and the launch counter only. */
  lemma InvFrame(g: Game, r: Game, pend: set<Flight>)
    requires Inv(g, pend)
    requires r.grid == g.grid && r.pieces == g.pieces && r.rows == g.rows && r.cols == g.cols
    requires r.launched == g.launched && Sound(r)
    ensures Inv(r, pend)
  {
  }

  lemma NewestLast(g: Game, m: Flight)
    requires Steady(g) && m.id == g.launched + 1
    ensures Ordered(g.active + [m])
  {
    forall n | n in g.active ensures n.id < m.id {
      assert n in FlightsOf(g.active) && FlightOk(g, n);
    }
  }

  lemma LaunchKeeps(g: Game, m: Flight, s: Status)
    requires Steady(g)
    requires m.piece < |g.pieces| && g.pieces[m.piece].status.Idle? && g.On(m.start, m.piece)
    requires m.id == g.launched + 1 && g.InBounds(m.end) && (m.isJump <==> m.start == m.end)
    requires s == if m.isJump then Jumping else Moving
    ensures var r := SetStatus(g, m.piece, s).(launched := g.launched + 1);
            Steady(r.(active := g.active + [m]))
  {
    hide Inv, Ordered;
    var was := FlightsOf(g.active);
    LaunchKeepsInv(g, was, m, s);
    var r := SetStatus(g, m.piece, s).(launched := g.launched + 1);
    assert FlightsOf(g.active + [m]) == was + {m};
    InvFrame(r, r.(active := g.active + [m]), was + {m});
    NewestLast(g, m);
  }

  lemma IdleOnBoard(g: Game, p: Position)
    requires Steady(g) && p in g.grid
    ensures g.InBounds(p) && g.grid[p] < |g.pieces|
  {
  }

  lemma JumpKeeps(g: Game, p: Position)
    requires Sound(g) && Steady(g)
    ensures Steady(JumpRequest(g, p))
  {
    hide BoardInv, FlightOk, FlightTied, Owns, Ordered;
    if CanStart(g, p) {
      IdleOnBoard(g, p);
      LaunchKeeps(g, Launch(g, p, p, JUMP_MS, true), Jumping);
    }
  }

  lemma DepartKeeps(g: Game, a: Position, b: Position, ms: int)
    requires Steady(g) && CanStart(g, a) && a != b && g.InBounds(b)
    ensures Steady(Depart(g, a, b, ms))
  {
    var m := Launch(g, a, b, ms, false);
    var moving := SetStatus(g, m.piece, Moving).(launched := g.launched + 1);
    if Blocked(g.active, a, b) {
      DroppedLaunchKeepsInv(g, FlightsOf(g.active), m.piece, a);
      assert Depart(g, a, b, ms) == moving;
    } else {
      LaunchKeeps(g, m, Moving);
      assert Depart(g, a, b, ms) == moving.(active := g.active + [m]);
    }
  }

  lemma AcceptedMove(g: Game, a: Position, b: Position)
    requires Sound(g) && MoveAccepted(g, a, b)
    ensures CanStart(g, a) && a != b && g.InBounds(b)
  {
  }

  lemma MoveKeeps(g: Game, a: Position, b: Position, ms: int)
    requires Steady(g)
    ensures Steady(MoveRequest(g, a, b, ms))
  {
    if MoveAccepted(g, a, b) {
      AcceptedMove(g, a, b);
      DepartKeeps(g, a, b, ms);
    }
  }

  /** Every request and every tick keeps the invariant, whatever it asks for. */
  lemma NextKeeps(g: Game, e: Event)
    requires Steady(g)
    ensures Steady(Next(g, e))
  {
    match e
    case JumpAt(p) => JumpKeeps(g, p);
    case Move(a, b, ms) => MoveKeeps(g, a, b, ms);
    case Wait(ms) => TickKeeps(g, ms);
    case Resign(c) => InvFrame(g, Forfeit(g, c), FlightsOf(g.active));
  }

  lemma InitialSteady(g: Game)
    requires Initial(g)
    ensures Steady(g)
  {
  }

  lemma {:induction false} RunKeeps(g: Game, es: seq<Event>)
    requires Steady(g)
    ensures Steady(Run(g, es))
    decreases |es|
  {
    if es != [] {
      NextKeeps(g, es[0]);
      RunKeeps(Next(g, es[0]), es[1..]);
    }
  }

  /** The occupancy invariant of every reachable state. */
  lemma OccupancyHolds(g: Game, es: seq<Event>)
    requires Initial(g)
    ensures Steady(Run(g, es))
  {
    InitialSteady(g);
    RunKeeps(g, es);
  }

  /** The board never changes size. */
  lemma {:induction false} RowsKept(g: Game, es: seq<Event>)
    requires Sound(g)
    ensures Run(g, es).rows == g.rows && Run(g, es).cols == g.cols
    decreases |es|
  {
    if es != [] { RowsKept(Next(g, es[0]), es[1..]); }
  }
}
