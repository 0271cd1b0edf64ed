/** The score ledger and the end of the game. */
module Scores {
  import opened Basics
  import opened Flights
  import opened Play
  import opened Occupancy
  import opened Traces

  // ---- captures are permanent ----

  lemma LandKeepsCaptured(g: Game, pend: set<Flight>, m: Flight, i: nat)
    requires Sound(g) && m.piece < |g.pieces| && Inv(g, pend) && m in pend
    requires i < |g.pieces| && g.pieces[i].status.Captured?
    ensures Land(g, m).pieces[i] == g.pieces[i]
  {
    hide Inv, Land;
    GroundedPiecesOwnNothing(g, pend, m);
    LandEffect(g, pend, m);
  }

  lemma {:induction false} LandAllKeepsCaptured(g: Game, q: seq<Flight>, air: set<Flight>, i: nat)
    requires Sound(g) && Inv(g, FlightsOf(q) + air) && Named(g, q)
    requires forall a, b | 0 <= a < b < |q| :: q[a] != q[b]
    requires forall m | m in q :: m !in air
    requires i < |g.pieces| && g.pieces[i].status.Captured?
    ensures LandAll(g, q).pieces[i] == g.pieces[i]
    decreases |q|
  {
    hide Inv, Land, Sound;
    if q != [] {
      PendingTail(q, air);
      LandKeepsInv(g, FlightsOf(q) + air, q[0]);
      LandKeepsCaptured(g, FlightsOf(q) + air, q[0], i);
      LandAllKeepsCaptured(Land(g, q[0]), q[1..], air, i);
    }
  }

  lemma NextKeepsCaptured(g: Game, e: Event, i: nat)
    requires Sound(g) && Steady(g) && i < |g.pieces| && g.pieces[i].status.Captured?
    ensures Next(g, e).pieces[i] == g.pieces[i]
  {
    hide Steady, Inv, LandAll, Landings, StillMoving, Sound;
    if e.Wait? && !g.over {
      LandingsApart(g, e.ms);
      LandAllKeepsCaptured(Airborne(g, e.ms), Landings(g.active, e.ms), FlightsOf(StillMoving(g.active, e.ms)), i);
    }
  }

  /** A captured piece stays captured and keeps the type it had: its record never changes again. */
  lemma {:induction false} CapturedForever(g: Game, es: seq<Event>, i: nat)
    requires Sound(g) && Steady(g) && i < |g.pieces| && g.pieces[i].status.Captured?
    ensures Run(g, es).pieces[i] == g.pieces[i]
    decreases |es|
  {
    hide Steady, Next, Sound;
    if es != [] {
      NextKeeps(g, es[0]);
      NextKeepsCaptured(g, es[0], i);
      CapturedForever(Next(g, es[0]), es[1..], i);
    }
  }

  // ---- the ledger ----

  /** What a captured piece of colour c is worth to the other side. */
  function Worth(p: PieceData, c: Color): nat {
    if p.status.Captured? && p.color == c then PieceValue(p.kind) else 0
  }

  function Losses(ps: seq<PieceData>, c: Color): nat {
    if ps == [] then 0 else Losses(ps[..|ps| - 1], c) + Worth(ps[|ps| - 1], c)
  }

  lemma {:induction false} LossesUpdate(ps: seq<PieceData>, i: nat, p: PieceData, c: Color)
    requires i < |ps|
    ensures Losses(ps[i := p], c) == Losses(ps, c) - Worth(ps[i], c) + Worth(p, c)
  {
    var n := |ps| - 1;
    if i == n {
      assert ps[i := p][..n] == ps[..n];
    } else {
      assert ps[i := p][..n] == ps[..n][i := p];
      LossesUpdate(ps[..n], i, p, c);
    }
  }

  lemma {:induction false} NoLosses(ps: seq<PieceData>, c: Color)
    requires forall i | 0 <= i < |ps| :: !ps[i].status.Captured?
    ensures Losses(ps, c) == 0
  {
    if ps != [] { NoLosses(ps[..|ps| - 1], c); }
  }

  /** Each side's score is the value of the opponent's captured pieces, by the type each was
      captured as. */
  ghost predicate Balanced(g: Game) {
    g.white == Losses(g.pieces, Black) && g.black == Losses(g.pieces, White)
  }

  lemma StatusKeepsBalance(g: Game, i: nat, s: Status)
    requires Sound(g) && Balanced(g) && i < |g.pieces| && !g.pieces[i].status.Captured? && !s.Captured?
    ensures Balanced(SetStatus(g, i, s))
  {
    LossesUpdate(g.pieces, i, g.pieces[i].(status := s), White);
    LossesUpdate(g.pieces, i, g.pieces[i].(status := s), Black);
  }

  lemma CaptureKeepsBalance(g: Game, i: nat, taker: Color)
    requires Sound(g) && Balanced(g) && i < |g.pieces| && !g.pieces[i].status.Captured?
    requires taker != g.pieces[i].color
    ensures Balanced(Capture(g, i, taker))
  {
    LossesUpdate(g.pieces, i, g.pieces[i].(status := Captured), White);
    LossesUpdate(g.pieces, i, g.pieces[i].(status := Captured), Black);
  }

  lemma SettleKeepsBalance(g: Game, m: Flight)
    requires Sound(g) && Balanced(g) && m.piece < |g.pieces| && !g.pieces[m.piece].status.Captured?
    ensures Balanced(Settle(g, m))
  {
    var p := Settle(g, m).pieces[m.piece];
    LossesUpdate(g.pieces, m.piece, p, White);
    LossesUpdate(g.pieces, m.piece, p, Black);
    assert Settle(g, m).pieces == g.pieces[m.piece := p];
  }

  lemma LandKeepsBalance(g: Game, pend: set<Flight>, m: Flight)
    requires Sound(g) && m.piece < |g.pieces| && Inv(g, pend) && m in pend && Balanced(g)
    ensures Balanced(Land(g, m))
  {
    hide Balanced, Inv, Settle, Capture;
    GroundedPiecesOwnNothing(g, pend, m);
    match OutcomeOf(g, m)
    case JumpEnds => StatusKeepsBalance(g, m.piece, Idle);
    case Bounces => StatusKeepsBalance(g, m.piece, Idle);
    case Caught(t) =>
      CaptureKeepsBalance(g, m.piece, g.pieces[t].color);
      GridKeepsBalance(Capture(g, m.piece, g.pieces[t].color), Land(g, m));
    case Arrives => SettleKeepsBalance(g, m);
    case Takes(t) =>
      var c := g.pieces[m.piece].color;
      CaptureKeepsBalance(g, t, c);
      CaptureEffect(g, t, c);
      GridKeepsBalance(Capture(g, t, c), Cleared(g, m.end, t, c));
      SettleKeepsBalance(Cleared(g, m.end, t, c), m);
  }

  lemma GridKeepsBalance(g: Game, r: Game)
    requires Balanced(g) && r.pieces == g.pieces && r.white == g.white && r.black == g.black
    ensures Balanced(r)
  {
  }

  lemma {:induction false} LandAllKeepsBalance(g: Game, q: seq<Flight>, air: set<Flight>)
    requires Sound(g) && Inv(g, FlightsOf(q) + air) && Named(g, q) && Balanced(g)
    requires forall a, b | 0 <= a < b < |q| :: q[a] != q[b]
    requires forall m | m in q :: m !in air
    ensures Balanced(LandAll(g, q))
    decreases |q|
  {
    hide Inv, Land, Sound, Balanced;
    if q != [] {
      PendingTail(q, air);
      LandKeepsInv(g, FlightsOf(q) + air, q[0]);
      LandKeepsBalance(g, FlightsOf(q) + air, q[0]);
      LandAllKeepsBalance(Land(g, q[0]), q[1..], air);
    }
  }

  lemma RequestKeepsBalance(g: Game, e: Event)
    requires Sound(g) && Balanced(g) && !e.Wait?
    ensures Balanced(Next(g, e))
  {
    hide Balanced;
    var r := Next(g, e);
    match e
    case JumpAt(p) =>
      if CanStart(g, p) {
        StatusKeepsBalance(g, g.grid[p], Jumping);
        GridKeepsBalance(SetStatus(g, g.grid[p], Jumping), r);
      }
    case Move(a, b, ms) =>
      if MoveAccepted(g, a, b) {
        StatusKeepsBalance(g, g.grid[a], Moving);
        GridKeepsBalance(SetStatus(g, g.grid[a], Moving), r);
      }
    case Resign(c) => GridKeepsBalance(g, r);
  }

  lemma NextKeepsBalance(g: Game, e: Event)
    requires Sound(g) && Steady(g) && Balanced(g)
    ensures Balanced(Next(g, e))
  {
    hide Steady, Inv, LandAll, Landings, StillMoving, Sound, Balanced;
    if !e.Wait? {
      RequestKeepsBalance(g, e);
    } else if !g.over {
      LandingsApart(g, e.ms);
      GridKeepsBalance(g, Airborne(g, e.ms));
      LandAllKeepsBalance(Airborne(g, e.ms), Landings(g.active, e.ms), FlightsOf(StillMoving(g.active, e.ms)));
    }
  }

  lemma {:induction false} RunKeepsBalance(g: Game, es: seq<Event>)
    requires Sound(g) && Steady(g) && Balanced(g)
    ensures Balanced(Run(g, es))
    decreases |es|
  {
    hide Steady, Next, Sound, Balanced;
    if es != [] {
      NextKeeps(g, es[0]);
      NextKeepsBalance(g, es[0]);
      RunKeepsBalance(Next(g, es[0]), es[1..]);
    }
  }

  ghost predicate IsLost(p: PieceData, c: Color, k: Kind) {
    p.status.Captured? && p.color == c && p.kind == k
  }

  /** How many captured pieces of the colour have the type. */
  ghost function Lost(ps: seq<PieceData>, c: Color, k: Kind): nat {
    |set i | 0 <= i < |ps| && IsLost(ps[i], c, k)|
  }

  lemma LostStep(ps: seq<PieceData>, p: PieceData, c: Color, k: Kind)
    ensures Lost(ps + [p], c, k) == Lost(ps, c, k) + if IsLost(p, c, k) then 1 else 0
  {
    hide IsLost;
    var n, all := |ps|, ps + [p];
    var before := set i | 0 <= i < n && IsLost(ps[i], c, k);
    var after := set i | 0 <= i < |all| && IsLost(all[i], c, k);
    forall i ensures i in after <==> i in before || (i == n && IsLost(p, c, k)) {
      if 0 <= i < n { assert all[i] == ps[i]; }
    }
    assert after == if IsLost(p, c, k) then before + {n} else before;
  }

  lemma NoneLost(c: Color, k: Kind)
    ensures Lost([], c, k) == 0
  {
  }

  lemma {:induction false} LossesCounted(ps: seq<PieceData>, c: Color)
    ensures Losses(ps, c)
            == Lost(ps, c, Pawn) + 3 * (Lost(ps, c, Knight) + Lost(ps, c, Bishop))
               + 5 * Lost(ps, c, Rook) + 9 * Lost(ps, c, Queen)
  {
    hide Lost;
    if ps == [] {
      forall k ensures Lost(ps, c, k) == 0 { NoneLost(c, k); }
    } else {
      var q, p := ps[..|ps| - 1], ps[|ps| - 1];
      assert ps == q + [p];
      LossesCounted(q, c);
      forall k
        ensures Lost(ps, c, k) == Lost(q, c, k) + if IsLost(p, c, k) then 1 else 0
      {
        LostStep(q, p, c, k);
      }
    }
  }

  /** The ledger of every reachable state: a point for each captured pawn of the other side, three for a knight or
      bishop, five for a rook, nine for a queen, nothing for a king, each by the type it was captured as. */
  lemma ScoresAreLosses(g: Game, es: seq<Event>)
    requires Sound(g) && Initial(g)
    ensures var r := Run(g, es);
            && r.white == Lost(r.pieces, Black, Pawn) + 3 * Lost(r.pieces, Black, Knight)
                          + 3 * Lost(r.pieces, Black, Bishop) + 5 * Lost(r.pieces, Black, Rook)
                          + 9 * Lost(r.pieces, Black, Queen)
            && r.black == Lost(r.pieces, White, Pawn) + 3 * Lost(r.pieces, White, Knight)
                          + 3 * Lost(r.pieces, White, Bishop) + 5 * Lost(r.pieces, White, Rook)
                          + 9 * Lost(r.pieces, White, Queen)
  {
    hide Run, Lost;
    LossesCounted(Run(g, es).pieces, Black);
    LossesCounted(Run(g, es).pieces, White);
    InitialSteady(g);
    NoLosses(g.pieces, White);
    NoLosses(g.pieces, Black);
    RunKeepsBalance(g, es);
  }

  // ---- the end of the game ----

  ghost predicate KingTaken(g: Game, i: int) {
    0 <= i < |g.pieces| && g.pieces[i].kind.King? && g.pieces[i].status.Captured?
  }

  /** Without a forfeit the game is over exactly when some king is captured, and the winner is the
      opponent of some captured king. */
  ghost predicate Decided(g: Game) {
    && (g.over <==> exists i :: KingTaken(g, i))
    && (g.over ==> exists i :: KingTaken(g, i) && g.winner == Some(g.pieces[i].color.Other()))
  }

  lemma CaptureKeepsDecided(g: Game, i: nat, taker: Color)
    requires Sound(g) && Decided(g) && i < |g.pieces| && !g.pieces[i].status.Captured?
    requires taker != g.pieces[i].color
    ensures Decided(Capture(g, i, taker))
  {
    CaptureEffect(g, i, taker);
    var r := Capture(g, i, taker);
    forall k ensures KingTaken(r, k) <==> KingTaken(g, k) || (k == i && g.pieces[i].kind.King?) {
    }
    if g.pieces[i].kind.King? {
      assert KingTaken(r, i);
    } else if g.over {
      var k :| KingTaken(g, k) && g.winner == Some(g.pieces[k].color.Other());
      assert KingTaken(r, k);
    }
  }

  /** A change that takes no king, makes no king and leaves the result alone. */
  lemma QuietKeepsDecided(g: Game, r: Game)
    requires Decided(g) && r.over == g.over && r.winner == g.winner && |r.pieces| == |g.pieces|
    requires forall i | 0 <= i < |g.pieces| ::
               (g.pieces[i].status.Captured? <==> r.pieces[i].status.Captured?)
               && (g.pieces[i].kind.King? <==> r.pieces[i].kind.King?) && g.pieces[i].color == r.pieces[i].color
    ensures Decided(r)
  {
    forall k ensures KingTaken(r, k) <==> KingTaken(g, k) {
    }
    if g.over {
      var k :| KingTaken(g, k) && g.winner == Some(g.pieces[k].color.Other());
      assert KingTaken(r, k);
    }
  }

  lemma SettleQuiet(g: Game, m: Flight)
    requires Sound(g) && m.piece < |g.pieces| && !g.pieces[m.piece].status.Captured? && Decided(g)
    ensures Decided(Settle(g, m))
  {
    hide Decided;
    QuietKeepsDecided(g, Settle(g, m));
  }

  lemma LandKeepsDecided(g: Game, pend: set<Flight>, m: Flight)
    requires Sound(g) && m.piece < |g.pieces| && Inv(g, pend) && m in pend && Decided(g)
    ensures Decided(Land(g, m))
  {
    hide Decided, Inv, Settle, Capture;
    GroundedPiecesOwnNothing(g, pend, m);
    match OutcomeOf(g, m)
    case JumpEnds => QuietKeepsDecided(g, Land(g, m));
    case Bounces => QuietKeepsDecided(g, Land(g, m));
    case Caught(t) =>
      CaptureKeepsDecided(g, m.piece, g.pieces[t].color);
      QuietKeepsDecided(Capture(g, m.piece, g.pieces[t].color), Land(g, m));
    case Arrives => SettleQuiet(g, m);
    case Takes(t) =>
      var c := g.pieces[m.piece].color;
      CaptureKeepsDecided(g, t, c);
      CaptureEffect(g, t, c);
      QuietKeepsDecided(Capture(g, t, c), Cleared(g, m.end, t, c));
      SettleQuiet(Cleared(g, m.end, t, c), m);
  }

  lemma {:induction false} LandAllKeepsDecided(g: Game, q: seq<Flight>, air: set<Flight>)
    requires Sound(g) && Inv(g, FlightsOf(q) + air) && Named(g, q) && Decided(g)
    requires forall a, b | 0 <= a < b < |q| :: q[a] != q[b]
    requires forall m | m in q :: m !in air
    ensures Decided(LandAll(g, q))
    decreases |q|
  {
    hide Inv, Land, Sound, Decided;
    if q != [] {
      PendingTail(q, air);
      LandKeepsInv(g, FlightsOf(q) + air, q[0]);
      LandKeepsDecided(g, FlightsOf(q) + air, q[0]);
      LandAllKeepsDecided(Land(g, q[0]), q[1..], air);
    }
  }

  lemma NextKeepsDecided(g: Game, e: Event)
    requires Sound(g) && Steady(g) && Decided(g) && !e.Resign?
    ensures Decided(Next(g, e))
  {
    hide Steady, Inv, LandAll, Landings, StillMoving, Sound, Decided;
    if e.Wait? {
      if !g.over {
        LandingsApart(g, e.ms);
        QuietKeepsDecided(g, Airborne(g, e.ms));
        LandAllKeepsDecided(Airborne(g, e.ms), Landings(g.active, e.ms), FlightsOf(StillMoving(g.active, e.ms)));
      }
    } else {
      QuietKeepsDecided(g, Next(g, e));
    }
  }

  ghost predicate NoForfeit(es: seq<Event>) {
    forall e | e in es :: !e.Resign?
  }

  lemma {:induction false} RunKeepsDecided(g: Game, es: seq<Event>)
    requires Sound(g) && Steady(g) && Decided(g) && NoForfeit(es)
    ensures Decided(Run(g, es))
    decreases |es|
  {
    hide Steady, Next, Sound, Decided;
    if es != [] {
      assert es == [es[0]] + es[1..];
      assert !es[0].Resign?;
      NextKeeps(g, es[0]);
      NextKeepsDecided(g, es[0]);
      RunKeepsDecided(Next(g, es[0]), es[1..]);
    }
  }

  /** In a game played from the start without a forfeit: over iff a king is captured, and then the
      winner is the opponent of a captured king. */
  lemma OverIffKingTaken(g: Game, es: seq<Event>)
    requires Sound(g) && Initial(g) && NoForfeit(es)
    ensures var r := Run(g, es);
            && (r.over <==> exists i :: KingTaken(r, i))
            && (r.over ==> exists i :: KingTaken(r, i) && r.winner == Some(r.pieces[i].color.Other()))
  {
    hide Run;
    InitialSteady(g);
    assert forall i :: !KingTaken(g, i);
    RunKeepsDecided(g, es);
  }

  /** Once a call has returned with the game over, nothing changes it any more: not the board, not
      the scores, not the winner, not the motions in the air. */
  lemma {:induction false} NothingAfterTheEnd(g: Game, es: seq<Event>)
    requires Sound(g) && g.over
    ensures Run(g, es) == g
    decreases |es|
  {
    if es != [] {
      assert Next(g, es[0]) == g;
      NothingAfterTheEnd(g, es[1..]);
    }
  }

  // ---- which king capture decides ----

  /** The colour that captures a king in this landing, if one does. */
  function KingTaker(g: Game, m: Flight): Option<Color>
    requires Sound(g) && m.piece < |g.pieces|
  {
    match OutcomeOf(g, m)
    case Caught(j) => if g.pieces[m.piece].kind.King? then Some(g.pieces[j].color) else None
    case Takes(t) => if g.pieces[t].kind.King? then Some(g.pieces[m.piece].color) else None
    case _ => None
  }

  function LastKingTaker(g: Game, q: seq<Flight>): Option<Color>
    requires Sound(g) && Named(g, q)
    decreases |q|
  {
    if q == [] then None
    else match LastKingTaker(Land(g, q[0]), q[1..])
         case Some(c) => Some(c)
         case None => KingTaker(g, q[0])
  }

  lemma OutcomeNames(g: Game, m: Flight)
    requires Sound(g) && m.piece < |g.pieces|
    ensures OutcomeOf(g, m).Caught? ==> OutcomeOf(g, m).jumper < |g.pieces|
    ensures OutcomeOf(g, m).Takes? ==> OutcomeOf(g, m).victim < |g.pieces|
  {
  }

  lemma SettleDecidesNothing(g: Game, m: Flight)
    requires Sound(g) && m.piece < |g.pieces|
    ensures Settle(g, m).winner == g.winner && Settle(g, m).over == g.over
  {
  }

  lemma LiftDecidesNothing(g: Game, p: Position, i: nat)
    requires Sound(g)
    ensures LiftFrom(g, p, i).winner == g.winner && LiftFrom(g, p, i).over == g.over
  {
  }

  lemma CaptureDecides(g: Game, i: nat, taker: Color)
    requires Sound(g) && i < |g.pieces|
    ensures Capture(g, i, taker).winner == (if g.pieces[i].kind.King? then Some(taker) else g.winner)
    ensures Capture(g, i, taker).over == (g.over || g.pieces[i].kind.King?)
  {
  }

  lemma LandDecides(g: Game, m: Flight)
    requires Sound(g) && m.piece < |g.pieces|
    ensures Land(g, m).winner == (if KingTaker(g, m).Some? then KingTaker(g, m) else g.winner)
    ensures Land(g, m).over == (g.over || KingTaker(g, m).Some?)
  {
    hide Settle, Capture, LiftFrom, OutcomeOf;
    OutcomeNames(g, m);
    match OutcomeOf(g, m)
    case Skipped =>
    case JumpEnds =>
    case Bounces =>
    case Arrives => SettleDecidesNothing(g, m);
    case Caught(t) =>
      CaptureDecides(g, m.piece, g.pieces[t].color);
      LiftDecidesNothing(Capture(g, m.piece, g.pieces[t].color), m.start, m.piece);
    case Takes(t) =>
      CaptureDecides(g, t, g.pieces[m.piece].color);
      SettleDecidesNothing(Cleared(g, m.end, t, g.pieces[m.piece].color), m);
  }

  /** The landing loop does not stop at a king capture: the last one in the tick names the winner. */
  lemma {:induction false} LastCaptureWins(g: Game, q: seq<Flight>)
    requires Sound(g) && Named(g, q)
    ensures LandAll(g, q).winner == (if LastKingTaker(g, q).Some? then LastKingTaker(g, q) else g.winner)
    ensures LandAll(g, q).over == (g.over || LastKingTaker(g, q).Some?)
    decreases |q|
  {
    hide Land, Sound, KingTaker;
    if q != [] {
      LandDecides(g, q[0]);
      LastCaptureWins(Land(g, q[0]), q[1..]);
    }
  }
}
