/** A script: a board, then clicks, jumps, waits and requests to print the board. This is where the parser,
    the controller, the engine and the printer meet, over one set of objects. */
module Script {
  import opened Basics
  import opened BoardText
  import opened Openings
  import opened Play
  import opened Clicks = Controller
  import BoardIO
  import Engine
  import PlayedBoards

  datatype Command =
    | ClickCommand(x: int, y: int)
    | JumpCommand(x: int, y: int)
    | WaitCommand(ms: int)
    | PrintCommand

  /** What a command does. */
  function Step(s: Session, c: Command): (r: Session)
    requires Sound(s.game)
    ensures Sound(r.game)
  {
    match c
    case ClickCommand(x, y) => Clicked(s, x, y)
    case JumpCommand(x, y) =>
      var p := ToPosition(s.game.rows, s.game.cols, x, y);
      if p.Some? then s.(game := JumpRequest(s.game, p.value)) else s
    case WaitCommand(ms) => s.(game := Tick(s.game, ms))
    case PrintCommand => s
  }

  function Played(s: Session, cs: seq<Command>): (r: Session)
    requires Sound(s.game)
    ensures Sound(r.game)
    decreases |cs|
  {
    if cs == [] then s else Played(Step(s, cs[0]), cs[1..])
  }

  /** The boards at the moments when they are printed. */
  function Shown(s: Session, cs: seq<Command>): seq<View>
    requires Sound(s.game)
    decreases |cs|
  {
    if cs == [] then []
    else (if cs[0].PrintCommand? then [ViewOf(s.game)] else []) + Shown(Step(s, cs[0]), cs[1..])
  }

  lemma ShownStep(s: Session, cs: seq<Command>, i: nat)
    requires Sound(s.game) && i < |cs|
    ensures Shown(s, cs[i..])
            == (if cs[i].PrintCommand? then [ViewOf(s.game)] else []) + Shown(Step(s, cs[i]), cs[i + 1..])
    ensures Played(s, cs[i..]) == Played(Step(s, cs[i]), cs[i + 1..])
  {
    hide Step;
    assert cs[i..][1..] == cs[i + 1..];
  }

  lemma NothingShown(s: Session)
    requires Sound(s.game)
    ensures Shown(s, []) == [] && Played(s, []) == s
  {
  }

  ghost predicate ReadsBack(v: View) {
    ParseBoard(PrintBoard(v)) == Ok(Grounded(v))
  }

  ghost predicate WaitsForward(cs: seq<Command>) {
    forall c | c in cs && c.WaitCommand? :: c.ms >= 0
  }

  /** A command makes no event of the game, or one. */
  lemma StepRuns(s: Session, c: Command) returns (es: seq<Event>)
    requires Sound(s.game)
    ensures Step(s, c).game == Run(s.game, es) && (WaitsForward([c]) ==> AllTimely(es))
  {
    hide Run, JumpRequest, Tick, Clicked;
    match c {
      case ClickCommand(x, y) =>
        es := ClickAsksOnce(s, x, y);
      case JumpCommand(x, y) =>
        var p := ToPosition(s.game.rows, s.game.cols, x, y);
        es := if p.Some? then [JumpAt(p.value)] else [];
      case WaitCommand(ms) =>
        assert c in [c];
        es := [Wait(ms)];
      case PrintCommand =>
        es := [];
    }
    if es == [] { RunNone(s.game); } else { RunOne(s.game, es[0]); }
    assert es == [] || es == [es[0]];
  }

  lemma NoneTimely()
    ensures AllTimely([])
  {
  }

  lemma TimelyParts(es: seq<Event>, fs: seq<Event>, cs: seq<Command>)
    requires cs != [] && (WaitsForward([cs[0]]) ==> AllTimely(es)) && (WaitsForward(cs[1..]) ==> AllTimely(fs))
    ensures WaitsForward(cs) ==> AllTimely(es + fs)
  {
    assert cs == [cs[0]] + cs[1..];
  }

  /** Whatever is clicked, the game is a run of the model, so all that is proved of runs holds of it; and
      if no wait is negative, a timely run. */
  lemma {:induction false} PlayedIsRun(s: Session, cs: seq<Command>) returns (es: seq<Event>)
    requires Sound(s.game)
    ensures Played(s, cs).game == Run(s.game, es) && (WaitsForward(cs) ==> AllTimely(es))
    decreases |cs|
  {
    hide Run, Step, AllTimely, WaitsForward, Sound;
    if cs == [] {
      RunNone(s.game);
      NoneTimely();
      es := [];
    } else {
      var first := StepRuns(s, cs[0]);
      var rest := PlayedIsRun(Step(s, cs[0]), cs[1..]);
      RunTwo(s.game, first, rest);
      TimelyParts(first, rest, cs);
      es := first + rest;
    }
  }

  lemma {:induction false} ShownReadBack(
      lines: seq<string>, opening: Game, s: Session, es: seq<Event>, cs: seq<Command>)
    requires Sound(opening) && Initial(opening) && ParseBoard(lines) == Ok(ViewOf(opening))
    requires s.game == Run(opening, es)
    ensures forall v | v in Shown(s, cs) :: ReadsBack(v)
    decreases |cs|
  {
    hide ParseBoard, PrintBoard, Grounded, Initial, Run, Step, AllTimely;
    if cs != [] {
      PlayedBoards.PlayedBoardReadsBack(lines, opening, es);
      var more := StepRuns(s, cs[0]);
      RunTwo(opening, es, more);
      ShownReadBack(lines, opening, Step(s, cs[0]), es + more, cs[1..]);
    }
  }

  /** Whatever a script plays, every board it prints reads back as the board the game had at that moment,
      with the pieces in the air back on the ground. */
  lemma ScriptReadsBack(lines: seq<string>, cs: seq<Command>)
    requires ParseBoard(lines).Ok?
    ensures var g := OpeningOf(ParseBoard(lines).value);
            Sound(g) && Initial(g) && forall v | v in Shown(Session(g, None), cs) :: ReadsBack(v)
  {
    hide ParseBoard, Initial, OpeningOf, Shown, ReadsBack;
    OpeningIsInitial(lines);
    var g := OpeningOf(ParseBoard(lines).value);
    RunNone(g);
    ShownReadBack(lines, g, Session(g, None), [], cs);
  }

  class ScriptRunner {
    const engine: Engine.GameEngine
    const player: Clicks.Controller

    ghost predicate Valid()
      reads this, engine, engine.board, engine.arbiter, engine.arbiter.active, engine.scoreboard, engine.roster
    {
      player.engine == engine && engine.Valid()
    }

    ghost function State(): Session
      reads engine, player
    {
      Session(engine.model, player.selected)
    }

    constructor (engine: Engine.GameEngine)
      requires engine.Valid()
      ensures Valid() && this.engine == engine && fresh(player) && State() == Session(engine.model, None)
    {
      this.engine := engine;
      player := new Clicks.Controller(engine);
    }

    /** One command on the objects; the lines printed, if it is a print command. */
    method Execute(c: Command) returns (page: Option<seq<string>>)
      requires Valid()
      modifies player, engine, engine.board, engine.arbiter, engine.arbiter.active, engine.scoreboard, engine.roster
      ensures Valid() && Sound(old(engine.model)) && State() == Step(old(State()), c)
      ensures page == if c.PrintCommand? then Some(PrintBoard(old(ViewOf(engine.model)))) else None
      ensures fresh((set m | m in engine.arbiter.active) - old(set m | m in engine.arbiter.active))
    {
      hide PrintBoard, JumpRequest, Tick, Clicked, Engine.GameEngine.Tied;
      page := None;
      engine.BoardIsModel();
      engine.BoardSize();
      match c {
        case ClickCommand(x, y) => player.Click(x, y);
        case JumpCommand(x, y) =>
          var p := ToPosition(engine.board.rows, engine.board.cols, x, y);
          if p.Some? { var ok := engine.HandleJumpRequest(p.value); }
        case WaitCommand(ms) => engine.UpdateGameClock(ms);
        case PrintCommand =>
          var lines := BoardIO.PrintBoard(engine.board);
          page := Some(lines);
      }
    }

    /** The commands of a script, one after the other. */
    method ExecuteAll(cs: seq<Command>) returns (pages: seq<seq<string>>)
      requires Valid()
      modifies player, engine, engine.board, engine.arbiter, engine.arbiter.active, engine.scoreboard, engine.roster
      ensures Valid() && Sound(old(engine.model)) && State() == Played(old(State()), cs)
      ensures |pages| == |Shown(old(State()), cs)|
      ensures forall k | 0 <= k < |pages| :: pages[k] == PrintBoard(Shown(old(State()), cs)[k])
    {
      hide Shown, Played, PrintBoard, Step, Engine.GameEngine.Tied, Sound;
      pages := [];
      ghost var s, shown := State(), [];
      engine.BoardIsModel();
      assert cs[0..] == cs;
      for i := 0 to |cs|
        invariant Valid() && Sound(engine.model)
        invariant fresh((set m | m in engine.arbiter.active) - old(set m | m in engine.arbiter.active))
        invariant shown + Shown(State(), cs[i..]) == Shown(s, cs) && Played(State(), cs[i..]) == Played(s, cs)
        invariant |pages| == |shown| && forall k | 0 <= k < |pages| :: pages[k] == PrintBoard(shown[k])
      {
        ShownStep(State(), cs, i);
        if cs[i].PrintCommand? { shown := shown + [ViewOf(engine.model)]; }
        var page := Execute(cs[i]);
        engine.BoardIsModel();
        if page.Some? { pages := pages + [page.value]; }
      }
      NothingShown(State());
      assert cs[|cs|..] == [];
    }
  }

  /** The script over the objects: parser, controller, engine and printer in turn. Without a board nothing
      happens. */
  method RunScript(lines: seq<string>, cs: seq<Command>) returns (fault: Option<TextError>, pages: seq<seq<string>>)
    ensures ParseBoard(lines).Err? ==> fault == Some(ParseBoard(lines).error)
    ensures lines == [] || ParseBoard(lines).Err? ==> pages == []
    ensures ParseBoard(lines).Ok? ==> fault == None
    ensures ParseBoard(lines).Ok? && lines != [] ==>
              var g := OpeningOf(ParseBoard(lines).value);
              && Sound(g)
              && var shown := Shown(Session(g, None), cs);
                 && |pages| == |shown|
                 && forall k | 0 <= k < |pages| ::
                      pages[k] == PrintBoard(shown[k]) && ParseBoard(pages[k]) == Ok(Grounded(shown[k]))
  {
    hide ParseBoard, OpeningOf, Shown, Initial, PrintBoard, Step, Engine.GameEngine.Tied;
    if lines == [] {
      NoBoard();
      return None, [];
    }
    var board, roster := BoardIO.ParseInitialBoard(lines);
    if board.Err? { return Some(board.error), []; }
    ScriptReadsBack(lines, cs);
    var engine := new Engine.GameEngine(board.value, roster);
    var runner := new ScriptRunner(engine);
    ghost var shown := Shown(Session(engine.model, None), cs);
    pages := runner.ExecuteAll(cs);
    assert forall k | 0 <= k < |pages| :: shown[k] in shown && ReadsBack(shown[k]);
    return None, pages;
  }

  lemma NoBoard()
    ensures ParseBoard([]).Ok?
  {
  }
}
