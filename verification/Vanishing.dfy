/** Short games that show the three ways in which a piece is lost, and a launch that is dropped. In each
    the moves take the time the server gives them, and every tick lands one motion at most. */
module Vanishing {
  import opened Basics
  import opened Flights
  import opened Play
  import opened Occupancy
  import MoveRules
  import HeadOn
  import Census
  import Launches

  function Rook(c: Color, s: Status): PieceData {
    PieceData(if c.White? then "wR" else "bR", c, Kind.Rook, s)
  }

  // ---- evaluating a run ----

  /** A rook goes one square up a column onto a square that holds no friend. */
  lemma RookSteps(v: View, a: Position, b: Position)
    requires a in v.cells && v.cells[a].kind.Rook? && v.InBounds(b) && a.col == b.col && b.row == a.row - 1
    requires b in v.cells ==> v.cells[b].color != v.cells[a].color
    ensures MoveRules.Legal(v, a, b)
  {
    assert MoveRules.RayReach(v, v.cells[a].color, a, b, -1, 0);
  }

  /** A rook goes along its row, over pieces in the air, to a square that holds no friend. */
  lemma RookGoes(v: View, a: Position, b: Position)
    requires a in v.cells && v.cells[a].kind.Rook? && v.InBounds(b) && a.row == b.row && a.col != b.col
    requires b in v.cells ==> v.cells[b].color != v.cells[a].color
    requires forall p | p in v.cells && p.row == a.row && p != a && p != b :: v.cells[p].status.Moving?
    ensures MoveRules.Legal(v, a, b)
  {
    var d := Sign(b.col - a.col);
    assert d == 1 || d == -1;
    forall k | 1 <= k < MoveRules.Distance(a, b) ensures MoveRules.Passable(v, a.Step(k, 0, d)) {
      assert a.Step(k, 0, d) == Position(a.row, a.col + k * d);
      assert k * d == k || k * d == -k;
    }
    assert MoveRules.RayReach(v, v.cells[a].color, a, b, 0, d);
  }

  lemma NothingBlocks(a: Position, b: Position)
    ensures !Blocked([], a, b)
  {
  }

  /** The k-th event of a run. */
  lemma RunEvent(g: Game, es: seq<Event>, k: nat)
    requires Sound(g) && k < |es|
    ensures Run(g, es[..k + 1]) == Next(Run(g, es[..k]), es[k])
  {
    hide Next, Run;
    assert es[..k + 1] == es[..k] + [es[k]];
    RunOneMore(g, es[..k], es[k]);
  }

  lemma RunNothing(g: Game, es: seq<Event>)
    requires Sound(g)
    ensures Run(g, es[..0]) == g && es[..|es|] == es
  {
  }

  lemma NobodyLands(g: Game, ms: int)
    requires Sound(g) && !g.over && Completed(g.active, ms) == []
    ensures Tick(g, ms) == g.(active := StillMoving(g.active, ms))
  {
  }

  lemma OneLands(g: Game, ms: int, m: Flight)
    requires Sound(g) && !g.over && Completed(g.active, ms) == [m] && m.piece < |g.pieces|
    ensures Sound(g.(active := StillMoving(g.active, ms)))
    ensures Tick(g, ms) == Land(g.(active := StillMoving(g.active, ms)), m)
  {
    hide Land;
    var h := Airborne(g, ms);
    assert [m][1..] == [];
    SortOne(ByArrival, m);
    SortOne(ByLanding, m);
    assert LandAll(h, [m]) == Land(h, m);
  }

  lemma OneDue(m: Flight, ms: int)
    requires m.remaining <= ms
    ensures Completed([m], ms) == [m.After(ms)] && StillMoving([m], ms) == []
  {
  }

  lemma NotDue(m: Flight, ms: int)
    requires m.remaining > ms
    ensures Completed([m], ms) == [] && StillMoving([m], ms) == [m.After(ms)]
  {
  }

  lemma OneOfTwoDue(m: Flight, n: Flight, ms: int)
    ensures m.remaining <= ms < n.remaining ==>
              Completed([m, n], ms) == [m.After(ms)] && StillMoving([m, n], ms) == [n.After(ms)]
    ensures n.remaining <= ms < m.remaining ==>
              Completed([m, n], ms) == [n.After(ms)] && StillMoving([m, n], ms) == [m.After(ms)]
  {
    assert [m, n][1..] == [n];
    if n.remaining <= ms { OneDue(n, ms); } else { NotDue(n, ms); }
  }

  // ---- a dropped launch, and the piece it leaves behind ----

  const LEFT := Position(0, 0)
  const RIGHT := Position(0, 2)

  /** Two rooks face each other on a row of three squares. */
  const DUEL := Game(1, 3, map[LEFT := 0, RIGHT := 1], [Rook(White, Idle), Rook(Black, Idle)], [], 0, 0, 0, false, None)

  function WhiteFlight(left: int): Flight {
    Flight(1, 0, LEFT, RIGHT, left, 2000, false)
  }

  function Duel(black: Status, active: seq<Flight>, launched: nat): Game {
    DUEL.(pieces := [Rook(White, Moving), Rook(Black, black)], active := active, launched := launched)
  }

  lemma DuelIsInitial()
    ensures Sound(DUEL) && Initial(DUEL)
  {
    assert DUEL.On(LEFT, 0) && DUEL.On(RIGHT, 1);
  }

  lemma DuelBegins()
    requires Sound(DUEL)
    ensures Next(DUEL, Move(LEFT, RIGHT, 2000)) == Duel(Idle, [WhiteFlight(2000)], 1)
  {
    hide MoveRules.Legal, Blocked;
    RookGoes(ViewOf(DUEL), LEFT, RIGHT);
    NothingBlocks(LEFT, RIGHT);
  }

  lemma DuelDrops()
    ensures var g := Duel(Idle, [WhiteFlight(2000)], 1);
            && Sound(g) && MoveAccepted(g, RIGHT, LEFT)
            && Next(g, Move(RIGHT, LEFT, 2000)) == Duel(Moving, [WhiteFlight(2000)], 2)
  {
    hide MoveRules.Legal, Blocked;
    var g := Duel(Idle, [WhiteFlight(2000)], 1);
    var v := ViewOf(g);
    assert v.cells[RIGHT] == g.pieces[1] && v.cells[LEFT] == g.pieces[0];
    RookGoes(v, RIGHT, LEFT);
    DuelBlocks();
  }

  lemma DuelBlocks()
    ensures Blocked([WhiteFlight(2000)], RIGHT, LEFT)
  {
    assert HeadOn.OnCollisionCourse([WhiteFlight(2000)][0].start, [WhiteFlight(2000)][0].end, RIGHT, LEFT);
  }

  /** The white rook arrives on the square of the stranded black one. */
  lemma DuelEnds()
    ensures var g := Duel(Moving, [WhiteFlight(2000)], 2);
            && Sound(g) && Launches.Stranded(g, FlightsOf(g.active), 1)
            && var r := Next(g, Wait(2000));
               |r.pieces| == 2 && !Census.Accounted(r, FlightsOf(r.active), 1)
  {
    hide Completed, StillMoving, LandAll, Landings;
    var g := Duel(Moving, [WhiteFlight(2000)], 2);
    OneDue(WhiteFlight(2000), 2000);
    OneLands(g, 2000, WhiteFlight(0));
  }

  /** The black rook's move is accepted and dropped; it stays MOVING without a motion, and when the white
      rook arrives on its square it is gone: not on the board, not captured, not in the air. */
  lemma DroppedLaunchIsOverwritten()
    ensures Sound(DUEL) && Initial(DUEL)
    ensures var es := [Move(LEFT, RIGHT, 2000), Move(RIGHT, LEFT, 2000), Wait(2000)];
            var g, h, r := Run(DUEL, es[..1]), Run(DUEL, es[..2]), Run(DUEL, es);
            && MoveAccepted(g, RIGHT, LEFT)
            && Launches.Stranded(h, FlightsOf(h.active), 1)
            && |r.pieces| == 2 && !Census.Accounted(r, FlightsOf(r.active), 1)
  {
    hide *;
    DuelIsInitial();
    DuelBegins();
    DuelDrops();
    DuelEnds();
    var es := [Move(LEFT, RIGHT, 2000), Move(RIGHT, LEFT, 2000), Wait(2000)];
    RunNothing(DUEL, es);
    RunEvent(DUEL, es, 0);
    RunEvent(DUEL, es, 1);
    RunEvent(DUEL, es, 2);
  }

  // ---- a jumper overwritten by a friend ----

  const MIDDLE := Position(0, 1)

  /** A rook and a king on a row of three squares. */
  const ESCORT := Game(1, 3, map[LEFT := 0, MIDDLE := 1], [Rook(White, Idle), King(Idle)], [], 0, 0, 0, false, None)

  function King(s: Status): PieceData {
    PieceData("wK", White, Kind.King, s)
  }

  function KingFlight(left: int): Flight {
    Flight(1, 1, MIDDLE, RIGHT, left, 1000, false)
  }

  function RookFlight(left: int): Flight {
    Flight(2, 0, LEFT, RIGHT, left, 2000, false)
  }

  function KingJump(left: int): Flight {
    Flight(3, 1, RIGHT, RIGHT, left, 1000, true)
  }

  function Escort(grid: map<Position, nat>, rook: Status, king: Status, active: seq<Flight>, launched: nat): Game {
    ESCORT.(grid := grid, pieces := [Rook(White, rook), King(king)], active := active, launched := launched)
  }

  lemma EscortIsInitial()
    ensures Sound(ESCORT) && Initial(ESCORT)
  {
    assert ESCORT.On(LEFT, 0) && ESCORT.On(MIDDLE, 1);
  }

  lemma KingGoes()
    requires Sound(ESCORT)
    ensures Next(ESCORT, Move(MIDDLE, RIGHT, 1000)) == Escort(ESCORT.grid, Idle, Moving, [KingFlight(1000)], 1)
  {
    hide Blocked;
    NothingBlocks(MIDDLE, RIGHT);
    assert MoveRules.KingReach(ViewOf(ESCORT), MIDDLE, RIGHT);
  }

  lemma RookFollows()
    ensures var g := Escort(ESCORT.grid, Idle, Moving, [KingFlight(1000)], 1);
            && Sound(g)
            && Next(g, Move(LEFT, RIGHT, 2000))
               == Escort(ESCORT.grid, Moving, Moving, [KingFlight(1000), RookFlight(2000)], 2)
  {
    hide MoveRules.Legal, Blocked;
    var g := Escort(ESCORT.grid, Idle, Moving, [KingFlight(1000)], 1);
    var v := ViewOf(g);
    assert v.cells[LEFT] == g.pieces[0] && v.cells[MIDDLE] == g.pieces[1];
    RookGoes(v, LEFT, RIGHT);
    KingDoesNotBlock();
  }

  lemma KingDoesNotBlock()
    ensures !Blocked([KingFlight(1000)], LEFT, RIGHT)
  {
  }

  lemma KingArrives()
    ensures var g := Escort(ESCORT.grid, Moving, Moving, [KingFlight(1000), RookFlight(2000)], 2);
            && Sound(g)
            && Next(g, Wait(1000)) == Escort(map[LEFT := 0, RIGHT := 1], Moving, Idle, [RookFlight(1000)], 2)
  {
    hide Completed, StillMoving, LandAll, Landings;
    var g := Escort(ESCORT.grid, Moving, Moving, [KingFlight(1000), RookFlight(2000)], 2);
    OneOfTwoDue(KingFlight(1000), RookFlight(2000), 1000);
    OneLands(g, 1000, KingFlight(0));
  }

  lemma KingJumps()
    ensures var g := Escort(map[LEFT := 0, RIGHT := 1], Moving, Idle, [RookFlight(1000)], 2);
            && Sound(g) && Sound(Next(g, Wait(500)))
            && Next(Next(g, Wait(500)), JumpAt(RIGHT))
               == Escort(map[LEFT := 0, RIGHT := 1], Moving, Jumping, [RookFlight(500), KingJump(1000)], 3)
  {
    hide Completed, StillMoving, LandAll, Landings;
    var g := Escort(map[LEFT := 0, RIGHT := 1], Moving, Idle, [RookFlight(1000)], 2);
    NotDue(RookFlight(1000), 500);
    NobodyLands(g, 500);
  }

  lemma RookOverwrites()
    ensures var g := Escort(map[LEFT := 0, RIGHT := 1], Moving, Jumping, [RookFlight(500), KingJump(1000)], 3);
            && Sound(g)
            && Next(g, Wait(500)) == Escort(map[RIGHT := 0], Idle, Jumping, [KingJump(500)], 3)
  {
    hide Completed, StillMoving, LandAll, Landings;
    var g := Escort(map[LEFT := 0, RIGHT := 1], Moving, Jumping, [RookFlight(500), KingJump(1000)], 3);
    OneOfTwoDue(RookFlight(500), KingJump(1000), 500);
    OneLands(g, 500, RookFlight(0));
  }

  lemma KingIsLost()
    ensures var g := Escort(map[RIGHT := 0], Idle, Jumping, [KingJump(500)], 3);
            && Sound(g)
            && var r := Next(g, Wait(500));
               && |r.pieces| == 2 && r.pieces[1].kind.King? && !r.over
               && !Census.Accounted(r, FlightsOf(r.active), 1)
  {
    hide Completed, StillMoving, LandAll, Landings;
    var g := Escort(map[RIGHT := 0], Idle, Jumping, [KingJump(500)], 3);
    OneDue(KingJump(500), 500);
    OneLands(g, 500, KingJump(0));
  }

  /** A king jumps, its own rook lands on it, and when the jump ends the king is gone, though it was
      never captured and the game goes on. */
  lemma JumpingKingIsOverwritten()
    ensures Sound(ESCORT) && Initial(ESCORT)
    ensures var es := [Move(MIDDLE, RIGHT, 1000), Move(LEFT, RIGHT, 2000), Wait(1000), Wait(500),
                       JumpAt(RIGHT), Wait(500), Wait(500)];
            var r := Run(ESCORT, es);
            && |r.pieces| == 2 && r.pieces[1].kind.King? && !r.over
            && !Census.Accounted(r, FlightsOf(r.active), 1)
  {
    hide *;
    EscortIsInitial();
    KingGoes();
    RookFollows();
    KingArrives();
    KingJumps();
    RookOverwrites();
    KingIsLost();
    var es := [Move(MIDDLE, RIGHT, 1000), Move(LEFT, RIGHT, 2000), Wait(1000), Wait(500),
               JumpAt(RIGHT), Wait(500), Wait(500)];
    RunNothing(ESCORT, es);
    RunEvent(ESCORT, es, 0);
    RunEvent(ESCORT, es, 1);
    RunEvent(ESCORT, es, 2);
    RunEvent(ESCORT, es, 3);
    RunEvent(ESCORT, es, 4);
    RunEvent(ESCORT, es, 5);
    RunEvent(ESCORT, es, 6);
  }

  // ---- a mover bounced back to a square that is no longer its own ----

  const CORNER := Position(0, 0)
  const TARGET := Position(0, 3)
  const GUARD := Position(1, 3)
  const ENEMY := Position(1, 0)

  /** A white rook with an enemy rook behind it and a friend beside the square it flies to. */
  const RELAY := Game(2, 4, map[CORNER := 0, GUARD := 1, ENEMY := 2],
                      [Rook(White, Idle), Rook(White, Idle), Rook(Black, Idle)], [], 0, 0, 0, false, None)

  function FarFlight(left: int): Flight {
    Flight(1, 0, CORNER, TARGET, left, 3000, false)
  }

  function EnemyFlight(left: int): Flight {
    Flight(2, 2, ENEMY, CORNER, left, 1000, false)
  }

  function GuardFlight(left: int): Flight {
    Flight(3, 1, GUARD, TARGET, left, 1000, false)
  }

  function Relay(grid: map<Position, nat>, guard: Status, enemy: Status, active: seq<Flight>, launched: nat): Game {
    RELAY.(grid := grid, pieces := [Rook(White, Moving), Rook(White, guard), Rook(Black, enemy)],
           active := active, launched := launched)
  }

  lemma RelayIsInitial()
    ensures Sound(RELAY) && Initial(RELAY)
  {
    assert RELAY.On(CORNER, 0) && RELAY.On(GUARD, 1) && RELAY.On(ENEMY, 2);
  }

  lemma FarRookGoes()
    requires Sound(RELAY)
    ensures Next(RELAY, Move(CORNER, TARGET, 3000)) == Relay(RELAY.grid, Idle, Idle, [FarFlight(3000)], 1)
  {
    hide MoveRules.Legal, Blocked;
    RookGoes(ViewOf(RELAY), CORNER, TARGET);
    NothingBlocks(CORNER, TARGET);
  }

  lemma FarRookDoesNotBlock(left: int)
    ensures !Blocked([FarFlight(left)], ENEMY, CORNER) && !Blocked([FarFlight(left)], GUARD, TARGET)
  {
  }

  lemma EnemyGoes()
    ensures var g := Relay(RELAY.grid, Idle, Idle, [FarFlight(3000)], 1);
            && Sound(g)
            && Next(g, Move(ENEMY, CORNER, 1000))
               == Relay(RELAY.grid, Idle, Moving, [FarFlight(3000), EnemyFlight(1000)], 2)
  {
    hide MoveRules.Legal, Blocked;
    var g := Relay(RELAY.grid, Idle, Idle, [FarFlight(3000)], 1);
    var v := ViewOf(g);
    assert v.cells[ENEMY] == g.pieces[2] && v.cells[CORNER] == g.pieces[0];
    RookSteps(v, ENEMY, CORNER);
    FarRookDoesNotBlock(3000);
  }

  lemma EnemyArrives()
    ensures var g := Relay(RELAY.grid, Idle, Moving, [FarFlight(3000), EnemyFlight(1000)], 2);
            && Sound(g)
            && Next(g, Wait(1000)) == Relay(map[CORNER := 2, GUARD := 1], Idle, Idle, [FarFlight(2000)], 2)
  {
    hide Completed, StillMoving, LandAll, Landings;
    var g := Relay(RELAY.grid, Idle, Moving, [FarFlight(3000), EnemyFlight(1000)], 2);
    OneOfTwoDue(FarFlight(3000), EnemyFlight(1000), 1000);
    OneLands(g, 1000, EnemyFlight(0));
  }

  lemma GuardGoes()
    ensures var g := Relay(map[CORNER := 2, GUARD := 1], Idle, Idle, [FarFlight(2000)], 2);
            && Sound(g)
            && Next(g, Move(GUARD, TARGET, 1000))
               == Relay(map[CORNER := 2, GUARD := 1], Moving, Idle, [FarFlight(2000), GuardFlight(1000)], 3)
  {
    hide MoveRules.Legal, Blocked;
    var g := Relay(map[CORNER := 2, GUARD := 1], Idle, Idle, [FarFlight(2000)], 2);
    var v := ViewOf(g);
    assert v.cells[GUARD] == g.pieces[1];
    RookSteps(v, GUARD, TARGET);
    FarRookDoesNotBlock(2000);
  }

  lemma GuardArrives()
    ensures var g := Relay(map[CORNER := 2, GUARD := 1], Moving, Idle, [FarFlight(2000), GuardFlight(1000)], 3);
            && Sound(g)
            && Next(g, Wait(1000)) == Relay(map[CORNER := 2, TARGET := 1], Idle, Idle, [FarFlight(1000)], 3)
  {
    hide Completed, StillMoving, LandAll, Landings;
    var g := Relay(map[CORNER := 2, GUARD := 1], Moving, Idle, [FarFlight(2000), GuardFlight(1000)], 3);
    OneOfTwoDue(FarFlight(2000), GuardFlight(1000), 1000);
    OneLands(g, 1000, GuardFlight(0));
  }

  lemma FarRookIsLost()
    ensures var g := Relay(map[CORNER := 2, TARGET := 1], Idle, Idle, [FarFlight(1000)], 3);
            && Sound(g)
            && var r := Next(g, Wait(1000));
               && |r.pieces| == 3 && r.pieces[0].status.Idle?
               && !Census.Accounted(r, FlightsOf(r.active), 0)
  {
    hide Completed, StillMoving, LandAll, Landings;
    var g := Relay(map[CORNER := 2, TARGET := 1], Idle, Idle, [FarFlight(1000)], 3);
    OneDue(FarFlight(1000), 1000);
    OneLands(g, 1000, FarFlight(0));
  }

  /** While a rook is in the air an enemy takes the square it left; a friend reaches its target first, so
      it bounces, and it is nowhere. */
  lemma BouncedMoverIsLost()
    ensures Sound(RELAY) && Initial(RELAY)
    ensures var es := [Move(CORNER, TARGET, 3000), Move(ENEMY, CORNER, 1000), Wait(1000),
                       Move(GUARD, TARGET, 1000), Wait(1000), Wait(1000)];
            var r := Run(RELAY, es);
            && |r.pieces| == 3 && r.pieces[0].status.Idle?
            && !Census.Accounted(r, FlightsOf(r.active), 0)
  {
    hide *;
    RelayIsInitial();
    FarRookGoes();
    EnemyGoes();
    EnemyArrives();
    GuardGoes();
    GuardArrives();
    FarRookIsLost();
    var es := [Move(CORNER, TARGET, 3000), Move(ENEMY, CORNER, 1000), Wait(1000),
               Move(GUARD, TARGET, 1000), Wait(1000), Wait(1000)];
    RunNothing(RELAY, es);
    RunEvent(RELAY, es, 0);
    RunEvent(RELAY, es, 1);
    RunEvent(RELAY, es, 2);
    RunEvent(RELAY, es, 3);
    RunEvent(RELAY, es, 4);
    RunEvent(RELAY, es, 5);
  }
}
