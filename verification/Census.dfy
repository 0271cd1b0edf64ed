/** No piece vanishes, except through exactly three kinds of landing. */
module Census {
  import opened Basics
  import opened Flights
  import opened Play
  import opened Occupancy
  import opened Traces

  ghost predicate OnBoard(g: Game, i: nat) {
    exists p :: p in g.grid && g.grid[p] == i
  }

  /** A piece is accounted for when it is on the board, captured, or owner of a pending motion. */
  ghost predicate Accounted(g: Game, pend: set<Flight>, i: nat)
    requires i < |g.pieces|
  {
    OnBoard(g, i) || g.pieces[i].status.Captured? || Owns(pend, i)
  }

  /** The three ways in which landing m loses piece i:
      its own jump ends after a friend's landing has overwritten it on its square;
      its own move bounces off an idle friend after its start square was overwritten;
      or another mover overwrites it while it is MOVING without a motion, because its launch was
      dropped by the head-on test. */
  ghost predicate Displaces(g: Game, pend: set<Flight>, m: Flight, i: nat)
    requires Sound(g) && m.piece < |g.pieces|
  {
    match OutcomeOf(g, m)
    case JumpEnds => i == m.piece && !g.On(m.start, i)
    case Bounces => i == m.piece && !g.On(m.start, i)
    case Arrives => g.On(m.end, i) && g.pieces[i].status.Moving? && !Owns(pend, i)
    case _ => false
  }

  lemma OnlyOwner(pend: set<Flight>, m: Flight, i: nat)
    requires m in pend
    requires forall n | n in pend && n.piece == m.piece :: n == m
    ensures Owns(pend - {m}, i) <==> Owns(pend, i) && i != m.piece
  {
  }

  lemma SettleCensus(g: Game, m: Flight, i: nat)
    requires BoardInv(g) && m.piece < |g.pieces| && i < |g.pieces|
    ensures var r := Settle(g, m);
            OnBoard(r, i) <==> i == m.piece || (OnBoard(g, i) && !g.On(m.end, i))
  {
    SettleEffect(g, m);
    var r := Settle(g, m);
    if i == m.piece {
      assert r.grid[m.end] == i;
    } else if OnBoard(g, i) && !g.On(m.end, i) {
      var p :| p in g.grid && g.grid[p] == i;
      assert p in r.grid && r.grid[p] == i;
    }
  }

  lemma StayCensus(g: Game, pend: set<Flight>, m: Flight, i: nat)
    requires Inv(g, pend) && m in pend && i < |g.pieces|
    requires Land(g, m) == SetStatus(g, m.piece, Idle) && (OutcomeOf(g, m).JumpEnds? || OutcomeOf(g, m).Bounces?)
    ensures Accounted(Land(g, m), pend - {m}, i) <==> Accounted(g, pend, i) && !Displaces(g, pend, m, i)
  {
  }

  lemma CaughtCensus(g: Game, pend: set<Flight>, m: Flight, i: nat)
    requires Inv(g, pend) && m in pend && i < |g.pieces| && OutcomeOf(g, m).Caught?
    ensures Accounted(Land(g, m), pend - {m}, i) <==> Accounted(g, pend, i) && !Displaces(g, pend, m, i)
  {
    hide Inv, Land, OutcomeOf;
    InvParts(g, pend, m);
    OnlyOwner(pend, m, i);
    CaughtEffect(g, pend, m);
    if i != m.piece && OnBoard(g, i) {
      var p :| p in g.grid && g.grid[p] == i;
      assert p in Land(g, m).grid && Land(g, m).grid[p] == i;
    }
  }

  lemma TakesCensus(g: Game, pend: set<Flight>, m: Flight, i: nat)
    requires Inv(g, pend) && m in pend && i < |g.pieces| && OutcomeOf(g, m).Takes?
    ensures Accounted(Land(g, m), pend - {m}, i) <==> Accounted(g, pend, i) && !Displaces(g, pend, m, i)
  {
    hide Inv, Land, OutcomeOf;
    InvParts(g, pend, m);
    OnlyOwner(pend, m, i);
    TakesEffect(g, pend, m);
    var r, t := Land(g, m), g.grid[m.end];
    if i == m.piece {
      assert r.On(m.end, i);
    } else if i != t && OnBoard(g, i) {
      var p :| p in g.grid && g.grid[p] == i;
      assert r.On(p, i);
    }
  }

  lemma ArrivesCensus(g: Game, pend: set<Flight>, m: Flight, i: nat)
    requires Inv(g, pend) && m in pend && i < |g.pieces| && OutcomeOf(g, m).Arrives?
    ensures Accounted(Land(g, m), pend - {m}, i) <==> Accounted(g, pend, i) && !Displaces(g, pend, m, i)
  {
    hide Settle, Inv;
    InvParts(g, pend, m);
    OnlyOwner(pend, m, i);
    SettleEffect(g, m);
    SettleCensus(g, m, i);
    assert Land(g, m) == Settle(g, m);
    if g.On(m.end, i) && i != m.piece {
      assert !g.pieces[i].status.Captured?;
      assert g.pieces[i].status.Moving? || Owns(pend, i);
    }
  }

  /** One landing: exactly the displaced pieces stop being accounted for. */
  lemma LandCensus(g: Game, pend: set<Flight>, m: Flight, i: nat)
    requires Inv(g, pend) && m in pend && i < |g.pieces|
    ensures Accounted(Land(g, m), pend - {m}, i) <==> Accounted(g, pend, i) && !Displaces(g, pend, m, i)
  {
    hide Accounted, Displaces, Settle, Capture;
    GroundedPiecesOwnNothing(g, pend, m);
    match OutcomeOf(g, m)
    case JumpEnds => StayCensus(g, pend, m, i);
    case Bounces => StayCensus(g, pend, m, i);
    case Caught(_) => CaughtCensus(g, pend, m, i);
    case Takes(_) => TakesCensus(g, pend, m, i);
    case Arrives => ArrivesCensus(g, pend, m, i);
  }

  ghost predicate DisplacedAt(l: Landing, i: nat) {
    l.Live() && Sound(l.before) && l.Flight().piece < |l.before.pieces| &&
    Displaces(l.before, l.Pending(), l.Flight(), i)
  }

  ghost predicate NoneDisplaces(t: seq<Landing>, i: nat) {
    forall k | 0 <= k < |t| :: !DisplacedAt(t[k], i)
  }

  lemma JoinNone(s: seq<Landing>, t: seq<Landing>, i: nat)
    ensures NoneDisplaces(s + t, i) <==> NoneDisplaces(s, i) && NoneDisplaces(t, i)
  {
    var u := s + t;
    assert forall k | 0 <= k < |s| :: u[k] == s[k];
    assert forall k | 0 <= k < |t| :: u[|s| + k] == t[k];
  }

  lemma {:induction false} LandAllCensus(g: Game, q: seq<Flight>, clock: int, air: set<Flight>, i: nat)
    requires Sound(g) && Inv(g, FlightsOf(q) + air) && FlightsOf(g.active) == air
    requires forall i, j | 0 <= i < j < |q| :: q[i] != q[j]
    requires forall m | m in q :: m !in air
    requires Named(g, q) && i < |g.pieces|
    ensures var t := LandTrace(g, q, clock);
            Accounted(LandAll(g, q), air, i) <==>
            Accounted(g, FlightsOf(q) + air, i) && NoneDisplaces(t, i)
    decreases |q|
  {
    hide Accounted, DisplacedAt, Inv, Land, NoneDisplaces;
    if q == [] {
      NothingDisplaces(i);
      assert FlightsOf(q) + air == air;
    } else {
      var h, pend, l := Land(g, q[0]), FlightsOf(q) + air, Landing(g, q, clock);
      PendingTail(q, air);
      LandKeepsInv(g, pend, q[0]);
      LandCensus(g, pend, q[0], i);
      LandAllCensus(h, q[1..], clock, air, i);
      OneDisplaces(l, i);
      JoinNone([l], LandTrace(h, q[1..], clock), i);
    }
  }

  lemma NothingDisplaces(i: nat)
    ensures NoneDisplaces([], i)
  {
  }

  lemma OneDisplaces(l: Landing, i: nat)
    requires l.Live() && Sound(l.before) && l.Flight().piece < |l.before.pieces|
    ensures NoneDisplaces([l], i) <==> !Displaces(l.before, l.Pending(), l.Flight(), i)
  {
    assert DisplacedAt(l, i) <==> Displaces(l.before, l.Pending(), l.Flight(), i);
    assert [l][0] == l;
  }

  lemma TickCensus(g: Game, e: Event, clock: int, i: nat)
    requires Sound(g) && Steady(g) && i < |g.pieces|
    ensures var t := TraceOf(g, e, clock);
            Accounted(Next(g, e), FlightsOf(Next(g, e).active), i) <==>
            Accounted(g, FlightsOf(g.active), i) && NoneDisplaces(t, i)
  {
    hide Steady, Sound, LandAll, LandTrace, Landings, StillMoving, NoneDisplaces, Inv, Owns;
    if e.Wait? && !g.over {
      var q, air := Landings(g.active, e.ms), FlightsOf(StillMoving(g.active, e.ms));
      LandingsApart(g, e.ms);
      LandAllCensus(Airborne(g, e.ms), q, clock + e.ms, air, i);
      AgingKeepsOwners(g.active, e.ms, i);
    } else {
      NothingDisplaces(i);
      LaunchCensus(g, e, i);
    }
  }

  /** Requests lose nobody: a piece that takes off is on the board. */
  lemma LaunchCensus(g: Game, e: Event, i: nat)
    requires Sound(g) && Steady(g) && i < |g.pieces| && !(e.Wait? && !g.over)
    ensures Accounted(Next(g, e), FlightsOf(Next(g, e).active), i) <==> Accounted(g, FlightsOf(g.active), i)
  {
    hide Inv;
    var r := Next(g, e);
    assert r.grid == g.grid;
    assert OnBoard(r, i) <==> OnBoard(g, i);
    if r.active != g.active {
      assert r.active == g.active + [r.active[|g.active|]];
      var m := r.active[|g.active|];
      assert g.grid[m.start] == m.piece;
      assert FlightsOf(r.active) == FlightsOf(g.active) + {m};
      if Owns(FlightsOf(g.active), i) {
        var n :| n in FlightsOf(g.active) && n.piece == i;
        assert n in FlightsOf(r.active);
      }
    }
    assert !OnBoard(g, i) ==> r.pieces[i].status == g.pieces[i].status;
  }

  /** The census of a whole run: a piece is accounted for at the end exactly if it was at the start
      and no landing of the run displaced it. */
  lemma {:induction false} RunCensus(g: Game, es: seq<Event>, clock: int, i: nat)
    requires Sound(g) && Steady(g) && i < |g.pieces|
    ensures var r, t := Run(g, es), Trace(g, es, clock);
            Accounted(r, FlightsOf(r.active), i) <==>
            Accounted(g, FlightsOf(g.active), i) && NoneDisplaces(t, i)
    decreases |es|
  {
    hide Steady, Sound, Next, TraceOf, NoneDisplaces, Accounted;
    if es == [] {
      NothingDisplaces(i);
    } else {
      var h, c := Next(g, es[0]), clock + Elapsed(g, es[0]);
      TickCensus(g, es[0], clock, i);
      NextKeeps(g, es[0]);
      RunCensus(h, es[1..], c, i);
      JoinNone(TraceOf(g, es[0], clock), Trace(h, es[1..], c), i);
    }
  }

  /** In a game played from the start, a piece is missing exactly if some landing displaced it; in
      runs without such landings the board, the captured and the airborne pieces are all the pieces. */
  lemma MissingIffDisplaced(g: Game, es: seq<Event>, i: nat)
    requires Sound(g) && Initial(g) && i < |g.pieces|
    ensures var r, t := Run(g, es), Trace(g, es, 0);
            Accounted(r, FlightsOf(r.active), i) <==> NoneDisplaces(t, i)
  {
    hide Run, Trace, DisplacedAt;
    InitialSteady(g);
    RunCensus(g, es, 0, i);
    var p :| g.On(p, i);
    assert OnBoard(g, i);
  }

  /** Where the first kind of loss comes from: while its jump is pending, a piece leaves its square
      only by a friend's landing there. */
  lemma JumperOverwrittenByFriend(g: Game, pend: set<Flight>, m: Flight, jump: Flight)
    requires Sound(g) && m.piece < |g.pieces| && Inv(g, pend) && m in pend
    requires jump in pend && jump != m && jump.isJump
    requires g.On(jump.start, jump.piece) && !Land(g, m).On(jump.start, jump.piece)
    ensures !m.isJump && m.end == jump.start && g.pieces[m.piece].color == g.pieces[jump.piece].color
  {
    hide Settle, Inv, Capture, Land;
    JumperStatus(g, pend, m, jump);
    GroundedPiecesOwnNothing(g, pend, m);
    LandEffect(g, pend, m);
  }

  lemma JumperStatus(g: Game, pend: set<Flight>, m: Flight, jump: Flight)
    requires Inv(g, pend) && m in pend && jump in pend && jump != m && jump.isJump
    ensures jump.piece < |g.pieces| && g.pieces[jump.piece].status.Jumping? && m.piece != jump.piece
    ensures forall p | g.On(p, jump.piece) :: p == jump.start
  {
  }
}
