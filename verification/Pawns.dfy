/** Pawns make progress: they never rest on the promotion row, and every completed pawn landing uses
    up part of a fixed supply of rows. */
module Pawns {
  import opened Basics
  import opened Flights
  import opened Play
  import opened Occupancy
  import opened Traces
  import Census
  import MoveRules

  /** Rows between a square and the promotion row of colour c. */
  function RowsLeft(g: Game, c: Color, p: Position): int {
    if c.White? then p.row else g.rows - 1 - p.row
  }

  ghost predicate LivePawn(g: Game, i: nat)
    requires i < |g.pieces|
  {
    g.pieces[i].kind.Pawn? && !g.pieces[i].status.Captured?
  }

  ghost predicate Advances(g: Game, m: Flight)
    requires m.piece < |g.pieces|
  {
    !m.isJump && g.pieces[m.piece].kind.Pawn? ==>
      RowsLeft(g, g.pieces[m.piece].color, m.end) < RowsLeft(g, g.pieces[m.piece].color, m.start)
  }

  ghost predicate PawnInv(g: Game, pend: set<Flight>)
    requires Sound(g)
  {
    // a pawn in flight flies forward
    && (forall m | m in pend :: m.piece < |g.pieces| && Advances(g, m))
    // no pawn stands on its promotion row
    && (forall p | p in g.grid && g.pieces[g.grid[p]].kind.Pawn? ::
          RowsLeft(g, g.pieces[g.grid[p]].color, p) > 0)
  }

  // ---- the invariant over a run ----

  lemma SettleKeepsPawns(g: Game, m: Flight)
    requires Sound(g) && m.piece < |g.pieces| && g.InBounds(m.end)
    requires forall p | p in g.grid && g.pieces[g.grid[p]].kind.Pawn? && g.grid[p] != m.piece ::
               RowsLeft(g, g.pieces[g.grid[p]].color, p) > 0
    requires forall p | p in g.grid && g.grid[p] == m.piece :: p == m.start
    ensures var r := Settle(g, m);
            forall p | p in r.grid && r.pieces[r.grid[p]].kind.Pawn? ::
              RowsLeft(r, r.pieces[r.grid[p]].color, p) > 0
  {
  }

  lemma OthersKeepAdvancing(g: Game, r: Game, pend: set<Flight>, m: Flight)
    requires Sound(g) && m.piece < |g.pieces| && Inv(g, pend) && m in pend && PawnInv(g, pend)
    requires |r.pieces| == |g.pieces| && r.rows == g.rows
    requires forall i | 0 <= i < |g.pieces| && i != m.piece ::
               r.pieces[i].kind == g.pieces[i].kind && r.pieces[i].color == g.pieces[i].color
    ensures forall n | n in pend - {m} :: n.piece < |r.pieces| && Advances(r, n)
  {
  }

  lemma ArrivesKeepsPawns(g: Game, pend: set<Flight>, m: Flight)
    requires Sound(g) && m.piece < |g.pieces| && Inv(g, pend) && m in pend && PawnInv(g, pend)
    ensures PawnInv(Settle(g, m), pend - {m})
  {
    hide Inv, Settle, Advances;
    FlightPlaces(g, pend, m);
    SettleEffect(g, m);
    SettleKeepsPawns(g, m);
    OthersKeepAdvancing(g, Settle(g, m), pend, m);
  }

  lemma TakesKeepsPawns(g: Game, pend: set<Flight>, m: Flight, t: nat, c: Color)
    requires Sound(g) && m.piece < |g.pieces| && Inv(g, pend) && m in pend && PawnInv(g, pend)
    requires g.On(m.end, t) && t != m.piece
    ensures PawnInv(Settle(Cleared(g, m.end, t, c), m), pend - {m})
  {
    hide Inv, Settle, Advances, Cleared;
    FlightPlaces(g, pend, m);
    InvBoard(g, pend);
    ClearedEffect(g, m.end, t, c);
    SettleEffect(Cleared(g, m.end, t, c), m);
    SettleKeepsPawns(Cleared(g, m.end, t, c), m);
    OthersKeepAdvancing(g, Settle(Cleared(g, m.end, t, c), m), pend, m);
  }

  lemma StayKeepsPawns(g: Game, pend: set<Flight>, m: Flight)
    requires Sound(g) && m.piece < |g.pieces| && Inv(g, pend) && m in pend && PawnInv(g, pend)
    requires OutcomeOf(g, m).JumpEnds? || OutcomeOf(g, m).Bounces? || OutcomeOf(g, m).Caught?
    ensures PawnInv(Land(g, m), pend - {m})
  {
    hide Inv, Advances, Capture;
    if OutcomeOf(g, m).Caught? { CaughtEffect(g, pend, m); }
    OthersKeepAdvancing(g, Land(g, m), pend, m);
  }

  lemma LandKeepsPawns(g: Game, pend: set<Flight>, m: Flight)
    requires Sound(g) && m.piece < |g.pieces| && Inv(g, pend) && m in pend && PawnInv(g, pend)
    ensures PawnInv(Land(g, m), pend - {m})
  {
    hide Inv, Settle, Capture, PawnInv;
    GroundedPiecesOwnNothing(g, pend, m);
    match OutcomeOf(g, m)
    case Arrives => ArrivesKeepsPawns(g, pend, m);
    case Takes(t) =>
      TakesEffect(g, pend, m);
      TakesKeepsPawns(g, pend, m, t, g.pieces[m.piece].color);
    case Caught(_) => StayKeepsPawns(g, pend, m);
    case JumpEnds => StayKeepsPawns(g, pend, m);
    case Bounces => StayKeepsPawns(g, pend, m);
  }

  lemma FlightPlaces(g: Game, pend: set<Flight>, m: Flight)
    requires Inv(g, pend) && m in pend
    ensures m.piece < |g.pieces| && g.InBounds(m.end) && g.InBounds(m.start)
    ensures forall p | p in g.grid && g.grid[p] == m.piece :: p == m.start
  {
  }

  lemma PawnReachAdvances(g: Game, a: Position, b: Position)
    requires Sound(g) && MoveAccepted(g, a, b) && g.pieces[g.grid[a]].kind.Pawn?
    ensures RowsLeft(g, g.pieces[g.grid[a]].color, b) < RowsLeft(g, g.pieces[g.grid[a]].color, a)
  {
  }

  lemma RequestKeepsPawns(g: Game, e: Event)
    requires Sound(g) && PawnInv(g, FlightsOf(g.active)) && !(e.Wait? && !g.over)
    ensures PawnInv(Next(g, e), FlightsOf(Next(g, e).active))
  {
    hide MoveRules.Legal, Blocked;
    var r := Next(g, e);
    forall m | m in FlightsOf(r.active) ensures m.piece < |r.pieces| && Advances(r, m) {
      if m in FlightsOf(g.active) {
        assert Advances(g, m);
      } else if !m.isJump && g.pieces[m.piece].kind.Pawn? {
        PawnReachAdvances(g, m.start, m.end);
      }
    }
  }

  // ---- the supply of rows ----

  /** Rows a pawn still has to go: from its square, or from where it took off if it is off the board. */
  ghost function Distance(g: Game, pend: set<Flight>, i: nat): nat
    requires i < |g.pieces|
  {
    if !LivePawn(g, i) then 0
    else if Census.OnBoard(g, i) then
      var p :| p in g.grid && g.grid[p] == i;
      Max(0, RowsLeft(g, g.pieces[i].color, p))
    else if Owns(pend, i) then
      var m :| m in pend && m.piece == i;
      Max(0, RowsLeft(g, g.pieces[i].color, m.start))
    else 0
  }

  ghost function Supply(g: Game, pend: set<Flight>, n: nat): nat
    requires n <= |g.pieces|
  {
    if n == 0 then 0 else Supply(g, pend, n - 1) + Distance(g, pend, n - 1)
  }

  lemma DistanceOnBoard(g: Game, pend: set<Flight>, i: nat, p: Position)
    requires BoardInv(g) && i < |g.pieces| && g.On(p, i)
    ensures Distance(g, pend, i) == if LivePawn(g, i) then Max(0, RowsLeft(g, g.pieces[i].color, p)) else 0
  {
  }

  lemma DistanceOffBoard(g: Game, pend: set<Flight>, i: nat, m: Flight)
    requires i < |g.pieces| && !Census.OnBoard(g, i) && m in pend && m.piece == i
    requires forall n | n in pend && n.piece == i :: n == m
    ensures Distance(g, pend, i) == if LivePawn(g, i) then Max(0, RowsLeft(g, g.pieces[i].color, m.start)) else 0
  {
  }

  lemma {:induction false} SupplyFalls(g: Game, pend: set<Flight>, r: Game, rest: set<Flight>,
                                       n: nat, k: nat, drop: nat)
    requires |r.pieces| == |g.pieces| && n <= |g.pieces| && drop <= 1
    requires forall i | 0 <= i < n :: Distance(r, rest, i) <= Distance(g, pend, i)
    requires k < |g.pieces| && Distance(r, rest, k) + drop <= Distance(g, pend, k)
    ensures Supply(r, rest, n) + (if k < n then drop else 0) <= Supply(g, pend, n)
  {
    hide Distance;
    if n > 0 { SupplyFalls(g, pend, r, rest, n - 1, k, drop); }
  }

  /** Pieces other than the mover keep their distance, or lose it by being captured or overwritten. */
  lemma BystanderDistance(g: Game, pend: set<Flight>, r: Game, m: Flight, i: nat)
    requires BoardInv(g) && BoardInv(r) && m in pend && m.piece < |g.pieces| && i < |g.pieces| && i != m.piece
    requires |r.pieces| == |g.pieces| && r.rows == g.rows
    requires forall n, l | n in pend && l in pend && n.piece == l.piece :: n == l
    requires r.pieces[i] == g.pieces[i] || r.pieces[i].status.Captured?
    requires forall p | p in r.grid && r.grid[p] == i :: g.On(p, i)
    requires forall p, n | g.On(p, i) && n in pend && n.piece == i :: p == n.start
    ensures Distance(r, pend - {m}, i) <= Distance(g, pend, i)
  {
    hide Distance;
    if !LivePawn(r, i) {
      DeadDistance(r, pend - {m}, i);
    } else if Census.OnBoard(r, i) {
      var p :| p in r.grid && r.grid[p] == i;
      DistanceOnBoard(r, pend - {m}, i, p);
      DistanceOnBoard(g, pend, i, p);
    } else if Owns(pend - {m}, i) {
      var n :| n in pend - {m} && n.piece == i;
      DistanceOffBoard(r, pend - {m}, i, n);
      if Census.OnBoard(g, i) {
        var p :| p in g.grid && g.grid[p] == i;
        assert g.On(p, i);
        DistanceOnBoard(g, pend, i, p);
      } else {
        DistanceOffBoard(g, pend, i, n);
      }
    } else {
      LostDistance(r, pend - {m}, i);
    }
  }

  lemma DeadDistance(g: Game, pend: set<Flight>, i: nat)
    requires i < |g.pieces| && !LivePawn(g, i)
    ensures Distance(g, pend, i) == 0
  {
  }

  lemma LostDistance(g: Game, pend: set<Flight>, i: nat)
    requires i < |g.pieces| && !Census.OnBoard(g, i) && !Owns(pend, i)
    ensures Distance(g, pend, i) == 0
  {
  }

  /** The mover's own distance before it lands. */
  lemma MoverDistance(g: Game, pend: set<Flight>, m: Flight)
    requires Sound(g) && Inv(g, pend) && m in pend && m.piece < |g.pieces| && LivePawn(g, m.piece)
    ensures Distance(g, pend, m.piece) == Max(0, RowsLeft(g, g.pieces[m.piece].color, m.start))
  {
  }

  /** A pawn that completes its move. */
  ghost predicate PawnLands(g: Game, m: Flight)
    requires Sound(g) && m.piece < |g.pieces|
  {
    g.pieces[m.piece].kind.Pawn? && (OutcomeOf(g, m).Arrives? || OutcomeOf(g, m).Takes?)
  }

  lemma MoverAfter(g: Game, pend: set<Flight>, m: Flight)
    requires Sound(g) && m.piece < |g.pieces| && Inv(g, pend) && m in pend && PawnInv(g, pend)
    ensures Distance(Land(g, m), pend - {m}, m.piece) + (if PawnLands(g, m) then 1 else 0)
            <= Distance(g, pend, m.piece)
  {
    hide Distance, Inv, Settle, Capture;
    InvParts(g, pend, m);
    FlightPlaces(g, pend, m);
    GroundedPiecesOwnNothing(g, pend, m);
    LandKeepsInv(g, pend, m);
    var r, rest, i := Land(g, m), pend - {m}, m.piece;
    LandEffect(g, pend, m);
    if !LivePawn(r, i) {
      DeadDistance(r, rest, i);
      if g.pieces[i].kind.Pawn? { MoverDistance(g, pend, m); assert Advances(g, m); }
    } else {
      LandedPawn(g, pend, m);
      MoverDistance(g, pend, m);
      if OutcomeOf(g, m).Arrives? || OutcomeOf(g, m).Takes? {
        assert Advances(g, m);
        DistanceOnBoard(r, rest, i, m.end);
      } else if g.On(m.start, i) {
        DistanceOnBoard(r, rest, i, m.start);
      } else {
        assert !Owns(rest, i);
        LostDistance(r, rest, i);
      }
    }
  }

  /** A mover that is still a pawn after landing was one before. */
  lemma SettledPawn(g: Game, m: Flight)
    requires Sound(g) && m.piece < |g.pieces| && Settle(g, m).pieces[m.piece].kind.Pawn?
    ensures g.pieces[m.piece].kind.Pawn?
  {
  }

  lemma LandedPawn(g: Game, pend: set<Flight>, m: Flight)
    requires Sound(g) && m.piece < |g.pieces| && Inv(g, pend) && m in pend && LivePawn(Land(g, m), m.piece)
    ensures LivePawn(g, m.piece) && !OutcomeOf(g, m).Caught?
  {
    hide Inv, Settle, Capture;
    GroundedPiecesOwnNothing(g, pend, m);
    LandEffect(g, pend, m);
    match OutcomeOf(g, m)
    case Arrives => SettledPawn(g, m);
    case Takes(t) =>
      var c := g.pieces[m.piece].color;
      CaptureEffect(g, t, c);
      TakesEffect(g, pend, m);
      SettledPawn(Cleared(g, m.end, t, c), m);
    case _ =>
  }

  lemma LandUsesRows(g: Game, pend: set<Flight>, m: Flight)
    requires Sound(g) && m.piece < |g.pieces| && Inv(g, pend) && m in pend && PawnInv(g, pend)
    ensures Supply(Land(g, m), pend - {m}, |g.pieces|) + (if PawnLands(g, m) then 1 else 0)
            <= Supply(g, pend, |g.pieces|)
  {
    hide Distance, Inv, Land, PawnLands, Supply, BoardInv, PawnInv;
    var r, rest := Land(g, m), pend - {m};
    LandEffect(g, pend, m);
    InvBoard(g, pend);
    OwnersPlaced(g, pend);
    MoverAfter(g, pend, m);
    forall i | 0 <= i < |g.pieces| ensures Distance(r, rest, i) <= Distance(g, pend, i) {
      if i != m.piece { BystanderDistance(g, pend, r, m, i); }
    }
    SupplyFalls(g, pend, r, rest, |g.pieces|, m.piece, if PawnLands(g, m) then 1 else 0);
  }

  lemma OwnersPlaced(g: Game, pend: set<Flight>)
    requires Inv(g, pend)
    ensures forall n, l | n in pend && l in pend && n.piece == l.piece :: n == l
    ensures forall p, n, i | g.On(p, i) && n in pend && n.piece == i :: p == n.start
  {
  }

  // ---- runs ----

  ghost predicate PawnLandsAt(l: Landing) {
    l.Live() && Sound(l.before) && l.Flight().piece < |l.before.pieces| && PawnLands(l.before, l.Flight())
  }

  /** How many completed pawn landings a list of landings holds. */
  ghost function PawnLandings(t: seq<Landing>): nat {
    if t == [] then 0 else (if PawnLandsAt(t[0]) then 1 else 0) + PawnLandings(t[1..])
  }

  lemma {:induction false} PawnLandingsAdd(s: seq<Landing>, t: seq<Landing>)
    ensures PawnLandings(s + t) == PawnLandings(s) + PawnLandings(t)
  {
    hide PawnLandsAt;
    if s == [] {
      assert s + t == t;
    } else {
      assert (s + t)[1..] == s[1..] + t;
      PawnLandingsAdd(s[1..], t);
    }
  }

  lemma {:induction false} LandAllUsesRows(g: Game, q: seq<Flight>, clock: int, air: set<Flight>)
    requires Sound(g) && Inv(g, FlightsOf(q) + air) && Named(g, q) && PawnInv(g, FlightsOf(q) + air)
    requires forall a, b | 0 <= a < b < |q| :: q[a] != q[b]
    requires forall m | m in q :: m !in air
    ensures PawnInv(LandAll(g, q), air)
    ensures Supply(LandAll(g, q), air, |g.pieces|) + PawnLandings(LandTrace(g, q, clock))
            <= Supply(g, FlightsOf(q) + air, |g.pieces|)
    decreases |q|
  {
    hide Inv, Land, Sound, PawnInv, Supply, PawnLands;
    if q == [] {
      assert FlightsOf(q) + air == air;
    } else {
      var h, pend := Land(g, q[0]), FlightsOf(q) + air;
      PendingTail(q, air);
      LandKeepsInv(g, pend, q[0]);
      LandKeepsPawns(g, pend, q[0]);
      LandUsesRows(g, pend, q[0]);
      LandAllUsesRows(h, q[1..], clock, air);
      assert LandTrace(g, q, clock)[1..] == LandTrace(h, q[1..], clock);
    }
  }

  /** Distances depend on the motions only through where they started. */
  lemma SameDistance(g: Game, pend: set<Flight>, r: Game, aged: set<Flight>, i: nat)
    requires Sound(g) && Inv(g, pend) && Inv(r, aged) && i < |g.pieces| && |r.pieces| == |g.pieces|
    requires r.grid == g.grid && r.rows == g.rows
    requires r.pieces[i].kind == g.pieces[i].kind && r.pieces[i].color == g.pieces[i].color
    requires r.pieces[i].status.Captured? <==> g.pieces[i].status.Captured?
    requires Census.OnBoard(g, i) || (forall m | m in aged && m.piece == i ::
               exists n :: n in pend && n.piece == i && n.start == m.start)
    ensures Distance(r, aged, i) <= Distance(g, pend, i)
  {
    hide Distance, Inv;
    InvBoard(g, pend);
    InvBoard(r, aged);
    if !LivePawn(r, i) {
      DeadDistance(r, aged, i);
    } else if Census.OnBoard(g, i) {
      var p :| p in g.grid && g.grid[p] == i;
      DistanceOnBoard(g, pend, i, p);
      DistanceOnBoard(r, aged, i, p);
    } else if Owns(aged, i) {
      var m :| m in aged && m.piece == i;
      var n :| n in pend && n.piece == i && n.start == m.start;
      OwnersPlaced(g, pend);
      OwnersPlaced(r, aged);
      assert !Census.OnBoard(r, i);
      DistanceOffBoard(g, pend, i, n);
      DistanceOffBoard(r, aged, i, m);
    } else {
      assert !Census.OnBoard(r, i);
      LostDistance(r, aged, i);
    }
  }

  lemma {:induction false} SameSupply(g: Game, pend: set<Flight>, r: Game, aged: set<Flight>, n: nat)
    requires |r.pieces| == |g.pieces| && n <= |g.pieces|
    requires forall i | 0 <= i < n :: Distance(r, aged, i) <= Distance(g, pend, i)
    ensures Supply(r, aged, n) <= Supply(g, pend, n)
  {
    hide Distance;
    if n > 0 { SameSupply(g, pend, r, aged, n - 1); }
  }

  lemma AgingKeepsPawns(g: Game, ms: int)
    requires Sound(g) && Steady(g) && PawnInv(g, FlightsOf(g.active))
    ensures var r, aged := Airborne(g, ms), FlightsOf(Landings(g.active, ms)) + FlightsOf(StillMoving(g.active, ms));
            && PawnInv(r, aged)
            && Supply(r, aged, |g.pieces|) <= Supply(g, FlightsOf(g.active), |g.pieces|)
  {
    hide Landings, StillMoving, Distance, Inv, Supply;
    LandingsKeep(g.active, ms);
    PartedAll(g.active, ms);
    LandingsApart(g, ms);
    var was := FlightsOf(g.active);
    var r, aged := Airborne(g, ms), FlightsOf(Landings(g.active, ms)) + FlightsOf(StillMoving(g.active, ms));
    forall m | m in aged ensures m.piece < |r.pieces| && Advances(r, m) && m.After(-ms) in was {
      assert m.After(-ms) in was;
      assert Advances(g, m.After(-ms));
    }
    forall i | 0 <= i < |g.pieces| ensures Distance(r, aged, i) <= Distance(g, was, i) {
      forall m | m in aged && m.piece == i ensures exists n :: n in was && n.piece == i && n.start == m.start {
        assert m.After(-ms) in was;
      }
      SameDistance(g, was, r, aged, i);
    }
    SameSupply(g, was, r, aged, |g.pieces|);
  }

  lemma RequestUsesNoRows(g: Game, e: Event)
    requires Sound(g) && Steady(g) && !(e.Wait? && !g.over)
    ensures Supply(Next(g, e), FlightsOf(Next(g, e).active), |g.pieces|)
            <= Supply(g, FlightsOf(g.active), |g.pieces|)
  {
    hide Distance, Inv, Supply;
    var r := Next(g, e);
    var was, now := FlightsOf(g.active), FlightsOf(r.active);
    NextKeeps(g, e);
    forall i | 0 <= i < |g.pieces| ensures Distance(r, now, i) <= Distance(g, was, i) {
      forall m | m in now && m.piece == i && !Census.OnBoard(g, i)
        ensures exists n :: n in was && n.piece == i && n.start == m.start
      {
        NewMotionOnBoard(g, e, m);
        assert m in was;
      }
      SameDistance(g, was, r, now, i);
    }
    SameSupply(g, was, r, now, |g.pieces|);
  }

  lemma NewMotionOnBoard(g: Game, e: Event, m: Flight)
    requires Sound(g) && !(e.Wait? && !g.over) && m in FlightsOf(Next(g, e).active)
    ensures m in FlightsOf(g.active) || Census.OnBoard(g, m.piece)
  {
  }

  lemma NextUsesRows(g: Game, e: Event, clock: int)
    requires Sound(g) && Steady(g) && PawnInv(g, FlightsOf(g.active))
    ensures var r := Next(g, e);
            && PawnInv(r, FlightsOf(r.active))
            && Supply(r, FlightsOf(r.active), |g.pieces|) + PawnLandings(TraceOf(g, e, clock))
               <= Supply(g, FlightsOf(g.active), |g.pieces|)
  {
    hide Steady, Inv, Sound, PawnInv, Supply, LandAll, LandTrace, Landings, StillMoving, PawnLandsAt;
    if e.Wait? && !g.over {
      LandingsApart(g, e.ms);
      AgingKeepsPawns(g, e.ms);
      LandAllUsesRows(Airborne(g, e.ms), Landings(g.active, e.ms), clock + e.ms,
                      FlightsOf(StillMoving(g.active, e.ms)));
    } else {
      RequestKeepsPawns(g, e);
      RequestUsesNoRows(g, e);
    }
  }

  lemma {:induction false} RunUsesRows(g: Game, es: seq<Event>, clock: int)
    requires Sound(g) && Steady(g) && PawnInv(g, FlightsOf(g.active))
    ensures var r := Run(g, es);
            && PawnInv(r, FlightsOf(r.active))
            && Supply(r, FlightsOf(r.active), |g.pieces|) + PawnLandings(Trace(g, es, clock))
               <= Supply(g, FlightsOf(g.active), |g.pieces|)
    decreases |es|
  {
    hide Steady, Sound, PawnInv, Supply, Next, TraceOf, PawnLandings;
    if es == [] {
      NoPawnLandings();
    } else {
      var h, c := Next(g, es[0]), clock + Elapsed(g, es[0]);
      NextUsesRows(g, es[0], clock);
      NextKeeps(g, es[0]);
      RunUsesRows(h, es[1..], c);
      PawnLandingsAdd(TraceOf(g, es[0], clock), Trace(h, es[1..], c));
    }
  }

  lemma NoPawnLandings()
    ensures PawnLandings([]) == 0
  {
  }

  ghost predicate NoPawnOnPromotionRow(g: Game)
    requires Sound(g)
  {
    forall p | p in g.grid && g.pieces[g.grid[p]].kind.Pawn? ::
      p.row != PromotionRow(g, g.pieces[g.grid[p]].color)
  }

  /** Pawn progress in a game played from the start: if no pawn starts on its promotion row, none is
      ever on it, and the number of completed pawn landings plus the rows still to go never exceeds
      the rows the pawns had to go at the start. */
  lemma PawnProgress(g: Game, es: seq<Event>)
    requires Sound(g) && Initial(g) && NoPawnOnPromotionRow(g)
    ensures var r := Run(g, es);
            && NoPawnOnPromotionRow(r)
            && PawnLandings(Trace(g, es, 0)) + Supply(r, FlightsOf(r.active), |g.pieces|)
               <= Supply(g, {}, |g.pieces|)
  {
    hide Steady, Supply, Run, Trace, PawnLandings;
    InitialSteady(g);
    assert FlightsOf(g.active) == {};
    RunUsesRows(g, es, 0);
    OccupancyHolds(g, es);
    RowsKept(g, es);
  }
}
