/** Boards reached by play can be printed and read back, also after promotions. */
module PlayedBoards {
  import opened Basics
  import opened Flights
  import opened Play
  import opened Occupancy
  import opened BoardText

  /** Every piece, wherever it is, carries a label that denotes its current colour and type. */
  ghost predicate Labelled(g: Game) {
    forall i | 0 <= i < |g.pieces| :: Denotes(g.pieces[i])
  }

  lemma QueenLabelDenotes(p: PieceData)
    requires p.kind.Queen? && p.pieceId == QueenLabel(p.color)
    ensures Denotes(p)
  {
    assert Lower("w") == "w" && Lower("b") == "b" && Lower("Q") == "q";
    assert "wQ"[..1] == "w" && "wQ"[1..] == "Q" && "bQ"[..1] == "b" && "bQ"[1..] == "Q";
  }

  lemma StatusKeepsLabel(p: PieceData, s: Status)
    requires Denotes(p)
    ensures Denotes(p.(status := s))
  {
  }

  /** A change of status, or a promotion. */
  ghost predicate Relabels(p: PieceData, r: PieceData) {
    r == p.(status := r.status) || (r.kind.Queen? && r.color == p.color && r.pieceId == QueenLabel(p.color))
  }

  lemma SettleRelabels(g: Game, m: Flight, i: nat)
    requires Sound(g) && m.piece < |g.pieces| && i < |g.pieces|
    ensures Relabels(g.pieces[i], Settle(g, m).pieces[i])
  {
  }

  lemma CaptureRelabels(g: Game, t: nat, c: Color, i: nat)
    requires Sound(g) && t < |g.pieces| && i < |g.pieces|
    ensures Capture(g, t, c).pieces[i] == g.pieces[i].(status := Capture(g, t, c).pieces[i].status)
  {
  }

  lemma LandChangesLabel(g: Game, m: Flight, i: nat)
    requires Sound(g) && m.piece < |g.pieces| && i < |g.pieces|
    ensures Relabels(g.pieces[i], Land(g, m).pieces[i])
  {
    hide Settle, Capture;
    match OutcomeOf(g, m)
    case Caught(t) => CaptureRelabels(g, m.piece, g.pieces[t].color, i);
    case Arrives => SettleRelabels(g, m, i);
    case Takes(t) =>
      CaptureRelabels(g, t, g.pieces[m.piece].color, i);
      SettleRelabels(Cleared(g, m.end, t, g.pieces[m.piece].color), m, i);
    case _ =>
  }

  lemma LandKeepsLabels(g: Game, m: Flight)
    requires Sound(g) && m.piece < |g.pieces| && Labelled(g)
    ensures Labelled(Land(g, m))
  {
    hide Denotes, Land;
    var r := Land(g, m);
    forall i | 0 <= i < |r.pieces| ensures Denotes(r.pieces[i]) {
      LandChangesLabel(g, m, i);
      StatusKeepsLabel(g.pieces[i], r.pieces[i].status);
      if r.pieces[i] != g.pieces[i].(status := r.pieces[i].status) { QueenLabelDenotes(r.pieces[i]); }
    }
  }

  lemma {:induction false} LandAllKeepsLabels(g: Game, q: seq<Flight>)
    requires Sound(g) && Named(g, q) && Labelled(g)
    ensures Labelled(LandAll(g, q))
    decreases |q|
  {
    hide Labelled, Land, Sound;
    if q != [] {
      LandKeepsLabels(g, q[0]);
      LandAllKeepsLabels(Land(g, q[0]), q[1..]);
    }
  }

  lemma NextKeepsLabels(g: Game, e: Event)
    requires Sound(g) && Labelled(g)
    ensures Labelled(Next(g, e))
  {
    hide Denotes, LandAll, Landings, StillMoving, Blocked;
    if e.Wait? && !g.over {
      LandAllKeepsLabels(Airborne(g, e.ms), Landings(g.active, e.ms));
    } else {
      var r := Next(g, e);
      forall i | 0 <= i < |r.pieces| ensures Denotes(r.pieces[i]) {
        StatusKeepsLabel(g.pieces[i], r.pieces[i].status);
        assert r.pieces[i] == g.pieces[i].(status := r.pieces[i].status);
      }
    }
  }

  lemma {:induction false} RunKeepsLabels(g: Game, es: seq<Event>)
    requires Sound(g) && Labelled(g)
    ensures Labelled(Run(g, es))
    decreases |es|
  {
    hide Labelled, Next, Sound;
    if es != [] {
      NextKeepsLabels(g, es[0]);
      RunKeepsLabels(Next(g, es[0]), es[1..]);
    }
  }

  /** Set up a game from a text, play any run, print the board: parsing the printed lines gives the
      same dimensions and the same label, colour and type on every square. */
  lemma PlayedBoardReadsBack(lines: seq<string>, g: Game, es: seq<Event>)
    requires Sound(g) && Initial(g) && ParseBoard(lines) == Ok(ViewOf(g))
    ensures var v := ViewOf(Run(g, es)); ParseBoard(PrintBoard(v)) == Ok(Grounded(v))
  {
    hide ParseBoard, PrintBoard, Run, Denotes;
    var r := Run(g, es);
    ParsedLabelled(lines, g);
    RunKeepsLabels(g, es);
    OccupancyHolds(g, es);
    RowsKept(g, es);
    SteadyPrintable(r);
    PrintParse(ViewOf(r));
  }

  lemma ParsedLabelled(lines: seq<string>, g: Game)
    requires Sound(g) && Initial(g) && ParseBoard(lines) == Ok(ViewOf(g))
    ensures Labelled(g) && (g.rows == 0 ==> g.cols == 0)
  {
    hide ParseBoard, Denotes;
    ParsedPrintable(lines, ViewOf(g));
    forall i | 0 <= i < |g.pieces| ensures Denotes(g.pieces[i]) {
      assert g.pieces[i].status.Idle? && exists p :: g.On(p, i);
      var p :| g.On(p, i);
      assert ViewOf(g).cells[p] == g.pieces[i];
    }
  }

  lemma SteadyPrintable(g: Game)
    requires Sound(g) && Steady(g) && Labelled(g) && (g.rows == 0 ==> g.cols == 0)
    ensures Printable(ViewOf(g))
  {
  }
}
