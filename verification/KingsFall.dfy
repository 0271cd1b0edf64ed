/** A short game in which both kings fall: the size of the clock ticks decides who has won. */
module KingsFall {
  import opened Basics
  import opened Flights
  import opened Play
  import MoveRules
  import Scores

  const WHITE_KING := Position(0, 0)
  const BLACK_KING := Position(1, 1)
  const WHITE_ROOK := Position(1, 0)
  const BLACK_ROOK := Position(0, 1)

  /** Two kings on one diagonal of a board of four squares, two rooks on the other. */
  const OPENING := Game(
    2, 2,
    map[WHITE_KING := 0, BLACK_KING := 1, WHITE_ROOK := 2, BLACK_ROOK := 3],
    [PieceData("wK", White, King, Idle), PieceData("bK", Black, King, Idle),
     PieceData("wR", White, Rook, Idle), PieceData("bR", Black, Rook, Idle)],
    [], 0, 0, 0, false, None)

  lemma OpeningIsInitial()
    ensures Sound(OPENING) && Initial(OPENING)
  {
    assert OPENING.On(WHITE_KING, 0) && OPENING.On(BLACK_KING, 1);
    assert OPENING.On(WHITE_ROOK, 2) && OPENING.On(BLACK_ROOK, 3);
  }

  function WhiteFlight(left: int): Flight {
    Flight(1, 2, WHITE_ROOK, BLACK_KING, left, 1000, false)
  }

  function BlackFlight(left: int): Flight {
    Flight(2, 3, BLACK_ROOK, WHITE_KING, left, 1000, false)
  }

  /** The game with the white rook, and perhaps the black one, on its way to the other side's king. */
  function Aloft(active: seq<Flight>): (g: Game)
    requires forall m | m in active :: m.piece < 4
    ensures Sound(g)
  {
    OPENING.(pieces := [OPENING.pieces[0], OPENING.pieces[1], PieceData("wR", White, Rook, Moving),
                        PieceData("bR", Black, Rook, if |active| > 1 then Moving else Idle)],
             active := active, launched := |active|)
  }

  lemma WhiteTakesOff()
    requires Sound(OPENING)
    ensures MoveRequest(OPENING, WHITE_ROOK, BLACK_KING, 1000) == Aloft([WhiteFlight(1000)])
  {
    assert MoveRules.Legal(ViewOf(OPENING), WHITE_ROOK, BLACK_KING);
  }

  lemma BlackMayGo()
    ensures MoveRules.Legal(ViewOf(Aloft([WhiteFlight(999)])), BLACK_ROOK, WHITE_KING)
    ensures !Blocked(Aloft([WhiteFlight(999)]).active, BLACK_ROOK, WHITE_KING)
  {
    var g := Aloft([WhiteFlight(999)]);
    var v := ViewOf(g);
    assert v.cells[BLACK_ROOK] == g.pieces[3] && v.cells[WHITE_KING] == g.pieces[0];
  }

  lemma BlackTakesOff()
    ensures MoveRequest(Aloft([WhiteFlight(999)]), BLACK_ROOK, WHITE_KING, 1000)
            == Aloft([WhiteFlight(999), BlackFlight(1000)])
  {
    hide MoveRules.Legal, Blocked;
    BlackMayGo();
  }

  /** A second piece may take off while another is in the air: what is refused is a second launch of
      the same piece. */
  lemma SecondPieceTakesOff()
    ensures var g := Aloft([WhiteFlight(999)]);
            && g.active != []
            && MoveAccepted(g, BLACK_ROOK, WHITE_KING)
            && forall to :: !MoveAccepted(g, WHITE_ROOK, to)
  {
  }

  lemma TwoAge(w: int, b: int, ms: int)
    ensures w <= ms && b > ms ==>
              StillMoving([WhiteFlight(w), BlackFlight(b)], ms) == [BlackFlight(b - ms)]
              && Landings([WhiteFlight(w), BlackFlight(b)], ms) == [WhiteFlight(w - ms)]
    ensures w < b <= ms ==>
              StillMoving([WhiteFlight(w), BlackFlight(b)], ms) == []
              && Landings([WhiteFlight(w), BlackFlight(b)], ms) == [WhiteFlight(w - ms), BlackFlight(b - ms)]
  {
    var q := [WhiteFlight(w), BlackFlight(b)];
    assert q[1..] == [BlackFlight(b)];
    assert StillMoving([BlackFlight(b)], ms) == if b <= ms then [] else [BlackFlight(b - ms)];
    assert Completed([BlackFlight(b)], ms) == if b <= ms then [BlackFlight(b - ms)] else [];
    if w <= ms < b {
      assert Completed(q, ms) == [WhiteFlight(w - ms)];
      SortOne(ByArrival, WhiteFlight(w - ms));
      SortOne(ByLanding, WhiteFlight(w - ms));
    } else if w < b <= ms {
      assert Completed(q, ms) == [WhiteFlight(w - ms), BlackFlight(b - ms)];
      SortTwo(ByArrival, WhiteFlight(w - ms), BlackFlight(b - ms));
      SortTwo(ByLanding, WhiteFlight(w - ms), BlackFlight(b - ms));
    }
  }

  lemma SortTwo(o: Order, a: Flight, b: Flight)
    requires Before(o, a, b)
    ensures Sort(o, [a, b]) == [a, b]
  {
    assert [a, b][1..] == [b];
    assert Sort(o, [b]) == [b];
    assert !Before(o, b, a);
  }

  predicate KingTakenBy(g: Game, m: Flight, c: Color)
    requires Sound(g)
  {
    m.piece < |g.pieces| && Scores.KingTaker(g, m) == Some(c)
  }

  lemma BlackLands(g: Game, late: int)
    requires Sound(g) && |g.pieces| == 4 && WHITE_KING in g.grid && g.grid[WHITE_KING] == 0
    requires g.pieces[0] == OPENING.pieces[0] && g.pieces[3] == PieceData("bR", Black, Rook, Moving)
    ensures KingTakenBy(g, BlackFlight(late), Black)
  {
  }

  lemma WhiteFirst()
    ensures Tick(Aloft([WhiteFlight(999), BlackFlight(1000)]), 999).over
    ensures Tick(Aloft([WhiteFlight(999), BlackFlight(1000)]), 999).winner == Some(White)
  {
    hide Land, OutcomeOf, Scores.KingTaker, Scores.LastKingTaker;
    var g, q := Aloft([WhiteFlight(999), BlackFlight(1000)]), [WhiteFlight(0)];
    TwoAge(999, 1000, 999);
    var h := Airborne(g, 999);
    assert h == g.(active := [BlackFlight(1)]);
    WhiteLandsIn(h, 0);
    Scores.LandDecides(h, q[0]);
    assert LandAll(h, q) == Land(h, q[0]);
  }

  lemma WhiteLandsIn(g: Game, late: int)
    requires Sound(g) && g == Aloft([WhiteFlight(999), BlackFlight(1000)]).(active := g.active)
    ensures KingTakenBy(g, WhiteFlight(late), White)
    ensures var h := Land(g, WhiteFlight(late));
            && |h.pieces| == 4 && WHITE_KING in h.grid && h.grid[WHITE_KING] == 0
            && h.pieces[0] == OPENING.pieces[0] && h.pieces[3] == PieceData("bR", Black, Rook, Moving)
  {
  }

  lemma BlackLast()
    ensures Tick(Aloft([WhiteFlight(999), BlackFlight(1000)]), 1000).winner == Some(Black)
  {
    hide Land, OutcomeOf, Scores.KingTaker, Scores.LastKingTaker;
    var g, q := Aloft([WhiteFlight(999), BlackFlight(1000)]), [WhiteFlight(-1), BlackFlight(0)];
    TwoAge(999, 1000, 1000);
    var h := Airborne(g, 1000);
    assert h == g.(active := []);
    WhiteLandsIn(h, -1);
    var k := Land(h, q[0]);
    BlackLands(k, 0);
    Scores.LandDecides(k, BlackFlight(0));
    assert q[1..] == [BlackFlight(0)];
    assert LandAll(k, [BlackFlight(0)]) == Land(k, BlackFlight(0));
  }

  lemma RunStep(g: Game, e: Event, es: seq<Event>)
    requires Sound(g)
    ensures Run(g, [e] + es) == Run(Next(g, e), es)
  {
  }

  lemma AfterTakeOff(es: seq<Event>)
    requires Sound(OPENING)
    ensures Run(OPENING, [Move(WHITE_ROOK, BLACK_KING, 1000), Wait(1), Move(BLACK_ROOK, WHITE_KING, 1000)] + es)
            == Run(Aloft([WhiteFlight(999), BlackFlight(1000)]), es)
  {
    hide Run, Land, LandAll, MoveRules.Legal, Blocked, MoveRequest;
    var m1, m2 := Move(WHITE_ROOK, BLACK_KING, 1000), Move(BLACK_ROOK, WHITE_KING, 1000);
    assert [m1, Wait(1), m2] + es == [m1] + ([Wait(1)] + ([m2] + es));
    RunStep(OPENING, m1, [Wait(1)] + ([m2] + es));
    WhiteTakesOff();
    QuietTick();
    RunStep(Aloft([WhiteFlight(1000)]), Wait(1), [m2] + es);
    RunStep(Aloft([WhiteFlight(999)]), m2, es);
    BlackTakesOff();
  }

  lemma QuietTick()
    ensures Tick(Aloft([WhiteFlight(1000)]), 1) == Aloft([WhiteFlight(999)])
  {
  }

  /** Ticked up to the first capture, white has won, and stays the winner; ticked past both captures at
      once, black has. */
  lemma TicksDecideTheWinner()
    ensures Sound(OPENING) && Initial(OPENING)
    ensures var start := [Move(WHITE_ROOK, BLACK_KING, 1000), Wait(1), Move(BLACK_ROOK, WHITE_KING, 1000)];
            && Run(OPENING, start + [Wait(999), Wait(1)]).winner == Some(White)
            && Run(OPENING, start + [Wait(1000)]).winner == Some(Black)
  {
    hide Run, Initial, Sound, LandAll;
    OpeningIsInitial();
    var g := Aloft([WhiteFlight(999), BlackFlight(1000)]);
    AfterTakeOff([Wait(999), Wait(1)]);
    AfterTakeOff([Wait(1000)]);
    RunBoth(g, Wait(999), Wait(1));
    RunOne(g, Wait(1000));
    WhiteFirst();
    BlackLast();
  }

  lemma RunBoth(g: Game, d: Event, e: Event)
    requires Sound(g)
    ensures Run(g, [d, e]) == Next(Next(g, d), e)
  {
    hide Next, Run;
    RunOne(g, d);
    RunOneMore(g, [d], e);
    assert [d] + [e] == [d, e];
  }
}
