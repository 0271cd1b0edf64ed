/** The server's view of one game: moves are made for a colour, take time by distance, and a player
    can be made to forfeit. */
module Adapter {
  import opened Basics
  import opened Objects
  import opened Play
  import opened Flights
  import opened Occupancy
  import Arbiter
  import BoardIO
  import BoardText
  import Engine
  import MoveRules
  import Openings

  const MS_PER_CELL := 1000

  function ChebyshevDurationMs(start: Position, end: Position): nat {
    Max(Abs(end.row - start.row), Abs(end.col - start.col)) * MS_PER_CELL
  }

  datatype Reply = GameAlreadyOver | NotYourPiece | IllegalMove | Accepted

  function PlayerReply(g: Game, c: Color, start: Position, end: Position): Reply
    requires Sound(g)
  {
    if g.over then GameAlreadyOver
    else if start !in g.grid || g.pieces[g.grid[start]].color != c then NotYourPiece
    else if MoveAccepted(g, start, end) then Accepted
    else IllegalMove
  }

  /** What one call through the adapter does, as an event of the game. */
  function PlayerMove(g: Game, c: Color, start: Position, end: Position): (r: Game)
    requires Sound(g)
    ensures Sound(r)
  {
    if PlayerReply(g, c, start, end).Accepted?
    then MoveRequest(g, start, end, ChebyshevDurationMs(start, end))
    else g
  }

  /** Flying k squares in any of the eight directions takes k seconds. */
  lemma StepsAreSeconds(a: Position, k: nat, dr: int, dc: int)
    requires -1 <= dr <= 1 && -1 <= dc <= 1 && (dr != 0 || dc != 0)
    ensures ChebyshevDurationMs(a, a.Step(k, dr, dc)) == 1000 * k
  {
  }

  /** What a player is told, by what stands on the square: the end of the game before a piece that is not his,
      and that before a move that his piece may not make or make now. */
  lemma RepliesAre(g: Game, c: Color, start: Position, end: Position)
    requires Sound(g)
    ensures var own := start in g.grid && g.pieces[g.grid[start]].color == c;
            var ready := own && g.pieces[g.grid[start]].status.Idle? && MoveRules.Legal(ViewOf(g), start, end);
            && (PlayerReply(g, c, start, end).GameAlreadyOver? <==> g.over)
            && (PlayerReply(g, c, start, end).NotYourPiece? <==> !g.over && !own)
            && (PlayerReply(g, c, start, end).IllegalMove? <==> !g.over && own && !ready)
            && (PlayerReply(g, c, start, end).Accepted? <==> !g.over && ready)
            && (!PlayerReply(g, c, start, end).Accepted? ==> PlayerMove(g, c, start, end) == g)
  {
    hide MoveRules.Legal;
  }

  /** An accepted move that is not dropped puts one motion in the air, with a second to fly for every square of
      distance: two for a knight, one for a king. A dropped one puts none there. */
  lemma PlayerMovesTakeTheirTime(g: Game, c: Color, start: Position, end: Position)
    requires Sound(g) && PlayerReply(g, c, start, end).Accepted?
    ensures start in g.grid && g.grid[start] < |g.pieces|
    ensures var ms, k := 1000 * MoveRules.Distance(start, end), g.pieces[g.grid[start]].kind;
            && PlayerMove(g, c, start, end).active
               == (if Blocked(g.active, start, end) then g.active
                   else g.active + [Flight(g.launched + 1, g.grid[start], start, end, ms, ms, false)])
            && (k.Knight? ==> ms == 2000) && (k.King? ==> ms == 1000) && (k.Pawn? ==> ms == 1000 || ms == 2000)
  {
  }

  /** No accepted move is instantaneous: it takes a second at least, so every run through the adapter
      is timely. And nobody moves the other side's pieces: an accepted move launches a piece of the
      caller's colour and changes the record of no other piece. */
  lemma PlayerMovesAreTimely(g: Game, c: Color, start: Position, end: Position)
    requires Sound(g) && PlayerReply(g, c, start, end).Accepted?
    ensures ChebyshevDurationMs(start, end) >= 1000
    ensures Timely(Move(start, end, ChebyshevDurationMs(start, end)))
    ensures g.pieces[g.grid[start]].color == c
    ensures forall i | 0 <= i < |g.pieces| && i != g.grid[start] ::
              PlayerMove(g, c, start, end).pieces[i] == g.pieces[i]
  {
  }

  /** The kinds of object a game is made of. */
  ghost predicate OfGame(o: object) {
    || o is KungFuEngineAdapter || o is Engine.GameEngine || o is Board || o is Arbiter.RealTimeArbiter
    || o is Scoreboard || o is Piece || o is Motion
  }

  class KungFuEngineAdapter {
    const engine: Engine.GameEngine
    /** The objects the game consists of, those it had once included. */
    ghost var Repr: set<object>

    ghost predicate Valid()
      reads this, Repr
    {
      && this in Repr && (forall o | o in Repr :: OfGame(o))
      && engine in Repr && engine.board in Repr && engine.arbiter in Repr && engine.scoreboard in Repr
      && (forall p | p in engine.roster :: p in Repr)
      && (forall m | m in engine.arbiter.active :: m in Repr)
      && engine.Valid()
    }

    lemma InRepr()
      requires Valid()
      ensures this in Repr && engine in Repr && forall o | o in Repr :: OfGame(o)
    {
    }

    ghost function Model(): Game
      reads engine
    {
      engine.model
    }

    constructor (board: Board, ghost roster: seq<Piece>)
      requires Engine.Placed(board, roster)
      ensures Valid() && Initial(Model()) && Model() == Engine.Setup(board, roster)
      ensures fresh(Repr - {board} - (set p | p in roster)) && engine.board == board && engine.roster == roster
    {
      hide Initial, Play.Sound, Steady, Engine.GameEngine.Tied, Engine.Placed, Engine.Setup;
      engine := new Engine.GameEngine(board, roster);
      new;
      Repr := {this, engine, board, engine.arbiter, engine.scoreboard} + set p | p in roster;
    }

    predicate Over()
      requires Valid()
      reads this, Repr
      ensures Over() == Model().over
    {
      engine.over
    }

    function Winner(): Option<Color>
      requires Valid()
      reads this, Repr
      ensures Winner() == Model().winner
    {
      engine.winner
    }

    method TryPlayerMove(c: Color, start: Position, end: Position) returns (reply: Reply)
      requires Valid()
      modifies Repr
      ensures Valid() && Model() == PlayerMove(old(Model()), c, start, end)
      ensures reply == old(PlayerReply(Model(), c, start, end))
      ensures old(Repr) <= Repr && fresh(Repr - old(Repr))
    {
      hide MoveRules.Legal, Steady, Engine.GameEngine.Tied, MoveRequest, Play.Sound;
      engine.LookAt(start);
      Engine.MoveEffect(engine.model, start, end, ChebyshevDurationMs(start, end));
      if engine.over { return GameAlreadyOver; }
      var piece := engine.board.GetPiece(start);
      if piece == null || piece.color != c { return NotYourPiece; }
      var ok := engine.HandleMoveRequest(start, end, ChebyshevDurationMs(start, end));
      Repr := Repr + set m | m in engine.arbiter.active;
      return if ok then Accepted else IllegalMove;
    }

    method UpdateGameClock(ms: int)
      requires Valid()
      modifies Repr
      ensures Valid() && Model() == Tick(old(Model()), ms) && Repr == old(Repr)
    {
      hide Tick, Steady;
      engine.UpdateGameClock(ms);
    }

    /** Does nothing once the game is over. */
    method ForceForfeit(winner: Color)
      requires Valid()
      modifies Repr
      ensures Valid() && Model() == Forfeit(old(Model()), winner) && Repr == old(Repr)
    {
      hide Steady;
      NextKeeps(engine.model, Resign(winner));
      if engine.over { return; }
      engine.winner := Some(winner);
      engine.over := true;
      engine.model := Forfeit(engine.model, winner);
    }
  }

  /** Sets up a game from the file that holds the opening. */
  class KungFuEngineFactory {
    const loader: BoardIO.InputTxtBoardLoader

    constructor (loader: BoardIO.InputTxtBoardLoader)
      ensures this.loader == loader
    {
      this.loader := loader;
    }

    ghost function Opening(): BoardText.Parsed<View> {
      BoardText.ParseBoard(loader.Lines())
    }

    /** A file that cannot be read as a board makes no engine. */
    method Create() returns (e: BoardText.Parsed<KungFuEngineAdapter>)
      ensures Opening().Err? ==> e == BoardText.Err(Opening().error)
      ensures Opening().Ok? ==>
                && e.Ok? && fresh(e.value.Repr) && e.value.Valid()
                && e.value.Model() == Openings.OpeningOf(Opening().value)
    {
      hide BoardText.ParseBoard, Openings.OpeningOf, Initial, Engine.Placed, Engine.Setup, Play.Sound, Steady,
           KungFuEngineAdapter.Valid;
      var board, roster := loader.Load();
      if board.Err? { return BoardText.Err(board.error); }
      var engine := new KungFuEngineAdapter(board.value, roster);
      return BoardText.Ok(engine);
    }
  }
}
