/** A player at the mouse: clicks choose a piece and then a square for it. */
module Controller {
  import opened Basics
  import opened Play
  import Adapter
  import Engine
  import MoveRules
  import Objects

  const CELL_SIZE := 100

  /** The square under a pixel; division rounds down, also left of and above the board. */
  function ToPosition(rows: nat, cols: nat, x: int, y: int): Option<Position> {
    var p := Position(y / CELL_SIZE, x / CELL_SIZE);
    if 0 <= p.row < rows && 0 <= p.col < cols then Some(p) else None
  }

  /** The pixels of a square: a hundred across and a hundred down, the column across and the row down. */
  ghost predicate Under(p: Position, x: int, y: int) {
    100 * p.col <= x < 100 * p.col + 100 && 100 * p.row <= y < 100 * p.row + 100
  }

  lemma SquareUnder(rows: nat, cols: nat, x: int, y: int, p: Position)
    ensures ToPosition(rows, cols, x, y) == Some(p) <==>
            0 <= p.row < rows && 0 <= p.col < cols && Under(p, x, y)
  {
  }

  datatype Session = Session(game: Game, selected: Option<Position>)

  /** What a click on a square does. */
  function ClickOn(s: Session, p: Position): (r: Session)
    requires Sound(s.game)
    ensures Sound(r.game)
  {
    var g := s.game;
    if s.selected.None? then (if p in g.grid then s.(selected := Some(p)) else s)
    else
      var a := s.selected.value;
      if p == a then Session(JumpRequest(g, a), None)
      else if p in g.grid && a in g.grid && g.pieces[g.grid[p]].color == g.pieces[g.grid[a]].color
      then s.(selected := Some(p))
      else if a in g.grid then Session(MoveRequest(g, a, p, Adapter.ChebyshevDurationMs(a, p)), None)
      else Session(g, None)
  }

  function Clicked(s: Session, x: int, y: int): (r: Session)
    requires Sound(s.game)
    ensures Sound(r.game)
  {
    match ToPosition(s.game.rows, s.game.cols, x, y)
    case None => s
    case Some(p) => ClickOn(s, p)
  }

  /** On p stands a piece of the colour of the one on a. */
  ghost predicate Friends(g: Game, a: Position, p: Position)
    requires Sound(g)
  {
    p in g.grid && a in g.grid && g.pieces[g.grid[p]].color == g.pieces[g.grid[a]].color
  }

  /** The square p is on the board, and the click was on it. */
  ghost predicate Hit(s: Session, x: int, y: int, p: Position) {
    0 <= p.row < s.game.rows && 0 <= p.col < s.game.cols && Under(p, x, y)
  }

  /** What a click asks the game for. The second on the chosen square asks for a jump; one on another square,
      for a move there, a second for every square of distance, unless a friend stands there or the chosen
      square is empty by now; any other click, for nothing. */
  lemma ClickAsksOnce(s: Session, x: int, y: int) returns (es: seq<Event>)
    requires Sound(s.game)
    ensures |es| <= 1 && AllTimely(es) && Clicked(s, x, y).game == Run(s.game, es)
    ensures es != [] ==> s.selected.Some? && Clicked(s, x, y).selected.None?
    ensures forall a :: es == [JumpAt(a)] <==> s.selected == Some(a) && Hit(s, x, y, a)
    ensures forall a, p, ms :: es == [Move(a, p, ms)] <==>
              && s.selected == Some(a) && a in s.game.grid && Hit(s, x, y, p) && p != a && !Friends(s.game, a, p)
              && ms == 1000 * MoveRules.Distance(a, p)
    ensures es == [] || es[0].JumpAt? || es[0].Move?
  {
    hide JumpRequest, MoveRequest, Run;
    es := [];
    forall p ensures ToPosition(s.game.rows, s.game.cols, x, y) == Some(p) <==> Hit(s, x, y, p) {
      SquareUnder(s.game.rows, s.game.cols, x, y, p);
    }
    var p := ToPosition(s.game.rows, s.game.cols, x, y);
    if p.Some? && s.selected.Some? && Clicked(s, x, y).selected.None? {
      var a, b := s.selected.value, p.value;
      if a == b {
        es := [JumpAt(a)];
      } else if a in s.game.grid {
        es := [Move(a, b, Adapter.ChebyshevDurationMs(a, b))];
      }
    }
    if es != [] { RunOne(s.game, es[0]); } else { RunNone(s.game); }
  }

  /** What is chosen after a click: a click off the board changes nothing; the first on a piece chooses it; the
      second chooses a friend instead, and otherwise ends the choice. */
  lemma ClickChooses(s: Session, x: int, y: int)
    requires Sound(s.game)
    ensures (forall p :: !Hit(s, x, y, p)) ==> Clicked(s, x, y) == s
    ensures forall p | Hit(s, x, y, p) ::
              Clicked(s, x, y).selected
              == match s.selected
                 case None => if p in s.game.grid then Some(p) else None
                 case Some(a) => if p != a && Friends(s.game, a, p) then Some(p) else None
  {
    hide JumpRequest, MoveRequest;
    forall p ensures ToPosition(s.game.rows, s.game.cols, x, y) == Some(p) <==> Hit(s, x, y, p) {
      SquareUnder(s.game.rows, s.game.cols, x, y, p);
    }
    var p := ToPosition(s.game.rows, s.game.cols, x, y);
    if p.Some? { assert Hit(s, x, y, p.value); }
  }

  class Controller {
    const engine: Engine.GameEngine
    var selected: Option<Position>

    ghost function State(): Session
      reads this, engine
    {
      Session(engine.model, selected)
    }

    constructor (engine: Engine.GameEngine)
      ensures this.engine == engine && selected == None
    {
      this.engine, selected := engine, None;
    }

    method Click(x: int, y: int)
      requires engine.Valid()
      modifies this`selected
      modifies engine`model, engine.arbiter, engine.roster, engine.scoreboard
      ensures engine.Valid() && Sound(old(engine.model)) && State() == Clicked(old(State()), x, y)
      ensures fresh((set m | m in engine.arbiter.active) - old(set m | m in engine.arbiter.active))
    {
      hide ClickOn, Engine.GameEngine.Tied;
      engine.BoardIsModel();
      engine.BoardSize();
      var square := ToPosition(engine.board.rows, engine.board.cols, x, y);
      if square.None? { return; }
      var p := square.value;
      if selected.None? {
        FirstClick(p);
      } else {
        SecondClick(selected.value, p);
      }
    }

    method FirstClick(p: Position)
      requires engine.Valid() && selected.None?
      modifies this`selected
      ensures Sound(engine.model) && State() == ClickOn(old(State()), p)
    {
      engine.LookAt(p);
      if engine.board.GetPiece(p) != null { selected := Some(p); }
    }

    method SecondClick(start: Position, p: Position)
      requires engine.Valid() && selected == Some(start)
      modifies this`selected
      modifies engine`model, engine.arbiter, engine.roster, engine.scoreboard
      ensures engine.Valid() && Sound(old(engine.model)) && State() == ClickOn(old(State()), p)
      ensures fresh((set m | m in engine.arbiter.active) - old(set m | m in engine.arbiter.active))
    {
      hide JumpRequest, MoveRequest, CanStart, MoveAccepted, Adapter.ChebyshevDurationMs, Objects.JumpText,
           Objects.MoveText, Engine.GameEngine.Tied;
      engine.LookAt(p);
      engine.LookAt(start);
      var clicked, chosen := engine.board.GetPiece(p), engine.board.GetPiece(start);
      if p == start {
        var ok := engine.HandleJumpRequest(start);
        selected := None;
      } else if clicked != null && chosen != null && clicked.color == chosen.color {
        selected := Some(p);
      } else {
        if chosen != null {
          var ok := engine.HandleMoveRequest(start, p, Adapter.ChebyshevDurationMs(start, p));
        }
        selected := None;
      }
    }
  }
}
