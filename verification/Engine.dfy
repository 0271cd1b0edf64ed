/** The game engine over mutable objects. The ghost field `model` is the state of the value model in
    `Play`; `Valid` ties every object to it, and each method is proved to make the model's step. */
module Engine {
  import opened Basics
  import opened Flights
  import opened Objects
  import opened Play
  import opened Occupancy
  import Arbiter
  import MoveRules
  import PieceRules

  /** A board set up for a game: `roster` lists its pieces, each idle and on exactly one square. */
  ghost predicate Placed(board: Board, roster: seq<Piece>)
    reads board, roster
  {
    board.AllInBounds() && PlacedOn(board.grid, roster)
  }

  ghost predicate PlacedOn(grid: map<Position, Piece>, roster: seq<Piece>)
    reads roster
  {
    && (forall i | 0 <= i < |roster| ::
          roster[i].tag == i && roster[i].status.Idle? && exists p :: p in grid && grid[p] == roster[i])
    && (forall p | p in grid :: grid[p] in roster)
    && (forall p, q | p in grid && q in grid && grid[p] == grid[q] :: p == q)
  }

  ghost function Setup(board: Board, roster: seq<Piece>): Game
    reads board, roster
  {
    Game(board.rows, board.cols, map p | p in board.grid :: board.grid[p].tag,
         seq(|roster|, i requires 0 <= i < |roster| reads roster => roster[i].Data()),
         [], 0, 0, 0, false, None)
  }

  lemma SetupInitial(board: Board, roster: seq<Piece>)
    requires Placed(board, roster)
    ensures Initial(Setup(board, roster)) && Sound(Setup(board, roster)) && Steady(Setup(board, roster))
    ensures forall p | p in board.grid :: board.grid[p].tag < |roster| && roster[board.grid[p].tag] == board.grid[p]
  {
    var g := Setup(board, roster);
    assert forall p | p in g.grid ::
        board.grid[p] in roster && g.grid[p] < |roster| && roster[g.grid[p]] == board.grid[p];
    forall i | 0 <= i < |g.pieces| ensures g.pieces[i].status.Idle? && exists p :: g.On(p, i) {
      assert g.pieces[i] == roster[i].Data() && roster[i].status.Idle?;
      var p :| p in board.grid && board.grid[p] == roster[i];
      assert g.On(p, i);
    }
    InitialSteady(g);
  }

  /** What a jump request changes. */
  lemma JumpEffect(g: Game, p: Position)
    requires Sound(g)
    ensures !CanStart(g, p) ==> JumpRequest(g, p) == g
    ensures CanStart(g, p) ==>
            var r, i := JumpRequest(g, p), g.grid[p];
            && r.pieces == g.pieces[i := g.pieces[i].(status := Jumping)] && r.grid == g.grid
            && r.rows == g.rows && r.cols == g.cols && r.launched == g.launched + 1
            && r.active == g.active + [Launch(g, p, p, JUMP_MS, true)]
            && r.white == g.white && r.black == g.black && r.over == g.over && r.winner == g.winner
  {
  }

  /** What a move request changes. */
  lemma MoveEffect(g: Game, a: Position, b: Position, ms: int)
    requires Sound(g)
    ensures !MoveAccepted(g, a, b) ==> MoveRequest(g, a, b, ms) == g
    ensures MoveAccepted(g, a, b) ==>
            var r, i := MoveRequest(g, a, b, ms), g.grid[a];
            && r.pieces == g.pieces[i := g.pieces[i].(status := Moving)] && r.grid == g.grid
            && r.rows == g.rows && r.cols == g.cols && r.launched == g.launched + 1
            && r.active == g.active + (if Blocked(g.active, a, b) then [] else [Launch(g, a, b, ms, false)])
            && r.white == g.white && r.black == g.black && r.over == g.over && r.winner == g.winner
  {
  }

  class GameEngine {
    const board: Board
    const arbiter: Arbiter.RealTimeArbiter
    const scoreboard: Scoreboard
    var over: bool
    var winner: Option<Color>
    ghost const roster: seq<Piece>
    ghost var model: Game

    ghost predicate Mine(p: Piece) {
      p.tag < |roster| && roster[p.tag] == p
    }

    ghost predicate PiecesTied()
      reads this, roster
    {
      |roster| == |model.pieces| &&
      forall i | 0 <= i < |roster| :: roster[i].tag == i && roster[i].Data() == model.pieces[i]
    }

    ghost predicate GridTied()
      reads this, board
    {
      && board.rows == model.rows && board.cols == model.cols
      && board.grid.Keys == model.grid.Keys
      && forall p | p in board.grid :: Mine(board.grid[p]) && board.grid[p].tag == model.grid[p]
    }

    ghost predicate AirTied()
      reads this, arbiter, arbiter.active
    {
      && Apart(arbiter.active) && (forall m | m in arbiter.active :: Mine(m.piece))
      && Values(arbiter.active) == model.active && arbiter.counter == model.launched
    }

    ghost predicate ResultTied()
      reads this, scoreboard`white, scoreboard`black
    {
      over == model.over && winner == model.winner &&
      scoreboard.white == model.white && scoreboard.black == model.black
    }

    /** Every object agrees with the model. */
    ghost predicate Tied()
      reads this, board, arbiter, arbiter.active, scoreboard`white, scoreboard`black, roster
    {
      Sound(model) && PiecesTied() && GridTied() && AirTied() && ResultTied()
    }

    /** The move lists hold one line for each accepted request, a dropped launch included. */
    ghost predicate Valid()
      reads this, board, arbiter, arbiter.active, scoreboard, roster
    {
      && Tied() && Steady(model)
      && |scoreboard.Moves(White)| + |scoreboard.Moves(Black)| == model.launched
    }

    constructor (board: Board, ghost roster: seq<Piece>)
      requires Placed(board, roster)
      ensures Valid() && model == Setup(board, roster) && Initial(model)
      ensures this.board == board && this.roster == roster
      ensures fresh(arbiter) && fresh(scoreboard) && arbiter.active == []
    {
      hide Steady, Initial, Sound, Placed, Setup, Tied;
      this.board := board;
      this.roster := roster;
      arbiter := new Arbiter.RealTimeArbiter();
      scoreboard := new Scoreboard();
      over, winner := false, None;
      model := Setup(board, roster);
      new;
      TiedAtFirst();
    }

    lemma TiedAtFirst()
      requires Placed(board, roster) && model == Setup(board, roster)
      requires arbiter.active == [] && arbiter.counter == 0 && scoreboard.white == 0 && scoreboard.black == 0
      requires scoreboard.whiteMoves == [] && scoreboard.blackMoves == []
      requires !over && winner == None
      ensures Valid() && Initial(model)
    {
      hide Steady, Initial, Sound;
      SetupInitial(board, roster);
    }

    /** The record of the piece on a square, or that of a nameless white pawn if there is none. */
    ghost function MoverAt(p: Position): PieceData
      reads this
    {
      if p in model.grid && model.grid[p] < |model.pieces| then model.pieces[model.grid[p]]
      else PieceData("", White, Pawn, Idle)
    }

    method HandleJumpRequest(position: Position) returns (ok: bool)
      requires Valid()
      modifies this`model, arbiter, roster, scoreboard`whiteMoves, scoreboard`blackMoves
      ensures Valid() && model == JumpRequest(old(model), position)
      ensures ok == old(CanStart(model, position))
      ensures forall c :: scoreboard.Moves(c) == old(scoreboard.Moves(c)) +
                          if ok && old(MoverAt(position).color) == c
                          then [JumpText(old(MoverAt(position).kind), position)] else []
      ensures fresh((set m | m in arbiter.active) - old(set m | m in arbiter.active))
    {
      hide Steady, JumpRequest, JumpText, Tied, Sound;
      LookAt(position);
      JumpEffect(model, position);
      if over { return false; }
      var piece := board.GetPiece(position);
      if piece == null || !piece.status.Idle? { return false; }
      Jump(piece, position);
      return true;
    }

    /** The accepted half of a jump request. */
    method Jump(piece: Piece, position: Position)
      requires Valid() && CanStart(model, position) && board.GetPiece(position) == piece
      modifies this`model, arbiter, roster, scoreboard`whiteMoves, scoreboard`blackMoves
      ensures Valid() && model == JumpRequest(old(model), position)
      ensures forall c :: scoreboard.Moves(c) == old(scoreboard.Moves(c)) +
                          if piece.color == c then [JumpText(old(piece.kind), position)] else []
      ensures fresh((set m | m in arbiter.active) - old(set m | m in arbiter.active))
    {
      hide Steady, JumpRequest, Sound, JumpText, AirTied, PiecesTied, GridTied;
      LookAt(position);
      JumpEffect(model, position);
      LaunchJump(piece, position);
      var moves := scoreboard.AddMove(piece.color, JumpText(piece.kind, position));
    }

    method LaunchJump(piece: Piece, position: Position)
      requires Tied() && Steady(model) && CanStart(model, position) && board.GetPiece(position) == piece
      modifies this`model, arbiter, piece`status
      ensures Tied() && Steady(model) && model == JumpRequest(old(model), position)
      ensures fresh((set m | m in arbiter.active) - old(set m | m in arbiter.active))
    {
      hide Steady, JumpRequest, Sound;
      JumpKeeps(model, position);
      JumpEffect(model, position);
      arbiter.StartJump(piece, position, JUMP_MS);
      model := JumpRequest(model, position);
    }

    method HandleMoveRequest(start: Position, end: Position, ms: int) returns (ok: bool)
      requires Valid()
      modifies this`model, arbiter, roster, scoreboard`whiteMoves, scoreboard`blackMoves
      ensures Valid() && model == MoveRequest(old(model), start, end, ms)
      ensures ok == old(MoveAccepted(model, start, end))
      ensures forall c :: scoreboard.Moves(c) == old(scoreboard.Moves(c)) +
                          if ok && old(MoverAt(start).color) == c
                          then [MoveText(old(MoverAt(start).kind), start, end)] else []
      ensures fresh((set m | m in arbiter.active) - old(set m | m in arbiter.active))
    {
      hide Steady, MoveRules.Legal, Blocked, MoveRequest, MoveText, Tied, Sound;
      LookAt(start);
      MoveEffect(model, start, end, ms);
      if over { return false; }
      var piece := board.GetPiece(start);
      if piece == null || !piece.status.Idle? { return false; }
      BoardIsModel();
      var legal := PieceRules.IsMoveLegal(board, start, end);
      if !legal { return false; }
      TakeOff(piece, start, end, ms);
      return true;
    }

    /** The accepted half of a move request. */
    method TakeOff(piece: Piece, start: Position, end: Position, ms: int)
      requires Valid() && MoveAccepted(model, start, end) && board.GetPiece(start) == piece
      modifies this`model, arbiter, roster, scoreboard`whiteMoves, scoreboard`blackMoves
      ensures Valid() && model == MoveRequest(old(model), start, end, ms)
      ensures forall c :: scoreboard.Moves(c) == old(scoreboard.Moves(c)) +
                          if piece.color == c then [MoveText(old(piece.kind), start, end)] else []
      ensures fresh((set m | m in arbiter.active) - old(set m | m in arbiter.active))
    {
      hide Steady, MoveRules.Legal, Blocked, MoveRequest, Sound, MoveText, AirTied, PiecesTied, GridTied;
      LookAt(start);
      MoveEffect(model, start, end, ms);
      LaunchMove(piece, start, end, ms);
      var moves := scoreboard.AddMove(piece.color, MoveText(piece.kind, start, end));
    }

    method LaunchMove(piece: Piece, start: Position, end: Position, ms: int)
      requires Tied() && Steady(model) && MoveAccepted(model, start, end) && board.GetPiece(start) == piece
      modifies this`model, arbiter, piece`status
      ensures Tied() && Steady(model) && model == MoveRequest(old(model), start, end, ms)
      ensures fresh((set m | m in arbiter.active) - old(set m | m in arbiter.active))
    {
      hide Steady, MoveRules.Legal, Blocked, MoveRequest, Sound;
      MoveKeeps(model, start, end, ms);
      MoveEffect(model, start, end, ms);
      piece.status := Moving;
      arbiter.StartMotion(piece, start, end, ms);
      model := MoveRequest(model, start, end, ms);
      assert PiecesTied() && GridTied();
    }

    // ---- the single assignments of the landing loop, each with the model's half ----

    method ChangeStatus(piece: Piece, s: Status)
      requires Tied() && Mine(piece)
      modifies this`model, piece`status
      ensures Tied() && model == SetStatus(old(model), piece.tag, s)
    {
      piece.status := s;
      model := SetStatus(model, piece.tag, s);
    }

    method Capture(piece: Piece, taker: Color)
      requires Tied() && Mine(piece)
      modifies this`model, piece`status, scoreboard`white, scoreboard`black
      ensures Tied() && model == MarkCaptured(old(model), piece.tag, taker)
    {
      piece.status := Captured;
      var score := scoreboard.AddCapturePoints(taker, piece.kind);
      model := MarkCaptured(model, piece.tag, taker);
    }

    method EndGameIfKing(kind: Kind, taker: Color)
      requires Tied()
      modifies this`model, this`over, this`winner
      ensures Tied() && model == EndIfKing(old(model), kind, taker)
    {
      if kind.King? {
        over := true;
        winner := Some(taker);
      }
      model := EndIfKing(model, kind, taker);
    }

    method LiftPiece(p: Position, piece: Piece)
      requires Tied() && Mine(piece)
      modifies this`model, board
      ensures Tied() && model == LiftFrom(old(model), p, piece.tag)
    {
      if board.GetPiece(p) == piece {
        board.SetPiece(p, null);
      }
      model := LiftFrom(model, p, piece.tag);
    }

    method ClearSquare(p: Position)
      requires Tied()
      modifies this`model, board
      ensures Tied() && model == old(model).(grid := old(model).grid - {p})
    {
      board.SetPiece(p, null);
      model := model.(grid := model.grid - {p});
    }

    method PlacePiece(p: Position, piece: Piece)
      requires Tied() && Mine(piece)
      modifies this`model, board
      ensures Tied() && model == old(model).(grid := old(model).grid[p := piece.tag])
    {
      board.SetPiece(p, piece);
      model := model.(grid := model.grid[p := piece.tag]);
    }

    method PromoteIfArrived(piece: Piece, end: Position, ghost m: Flight)
      requires Tied() && Mine(piece) && m.piece == piece.tag && m.end == end
      modifies this`model, piece
      ensures Tied() && model == Promote(old(model), m)
    {
      if piece.kind.Pawn? {
        var promotionRow := if piece.color.White? then 0 else board.rows - 1;
        if end.row == promotionRow {
          piece.kind := Queen;
          piece.pieceId := if piece.color.White? then "wQ" else "bQ";
        }
      }
      model := Promote(model, m);
    }

    method SettleMotion(motion: Motion)
      requires Tied() && Mine(motion.piece)
      modifies this`model, board, roster
      ensures Tied() && model == Settle(old(model), old(motion.Value()))
    {
      hide Sound, Tied;
      ghost var m := motion.Value();
      ChangeStatus(motion.piece, Idle);
      LiftPiece(motion.start, motion.piece);
      PlacePiece(motion.end, motion.piece);
      PromoteIfArrived(motion.piece, motion.end, m);
    }

    /** An enemy jumper is on the target square: the mover is captured. */
    method CatchMover(motion: Motion, taker: Color)
      requires Tied() && Mine(motion.piece) && motion.piece.tag < |model.pieces|
      modifies this`over, this`winner, this`model, board, scoreboard`white, scoreboard`black, roster
      ensures var i := motion.piece.tag;
              Tied() && model == LiftFrom(Play.Capture(old(model), i, taker), motion.start, i)
    {
      hide Sound, Tied;
      Look(motion.piece);
      Capture(motion.piece, taker);
      LiftPiece(motion.start, motion.piece);
      EndGameIfKing(motion.piece.kind, taker);
    }

    /** An idle enemy is on the target square: it is captured and the square cleared. */
    method TakeTarget(p: Position, target: Piece, taker: Color)
      requires Tied() && Mine(target) && target.tag < |model.pieces|
      modifies this`over, this`winner, this`model, board, scoreboard`white, scoreboard`black, roster
      ensures Tied() && model == Cleared(old(model), p, target.tag, taker)
    {
      hide Sound, Tied;
      Look(target);
      Capture(target, taker);
      ClearSquare(p);
      EndGameIfKing(target.kind, taker);
    }

    /** The board the players see is the board of the model. */
    lemma BoardIsModel()
      requires Valid()
      ensures Sound(model) && board.Seen() == ViewOf(model) && board.AllInBounds()
    {
      OnBoardInBounds(model);
    }

    lemma BoardSize()
      requires Tied()
      ensures board.rows == model.rows && board.cols == model.cols
    {
    }

    lemma Look(p: Piece)
      requires Tied() && Mine(p)
      ensures p.tag < |model.pieces| && p.Data() == model.pieces[p.tag]
    {
    }

    lemma LookAt(p: Position)
      requires Tied()
      ensures Sound(model) && over == model.over && (p in board.grid <==> p in model.grid)
      ensures p in board.grid ==>
                Mine(board.grid[p]) && board.grid[p].tag == model.grid[p] < |model.pieces|
                && board.grid[p].Data() == model.pieces[model.grid[p]]
    {
    }

    /** One pass of the landing loop. */
    method LandMotion(motion: Motion)
      requires Tied() && Mine(motion.piece)
      modifies this`over, this`winner, this`model, board, scoreboard`white, scoreboard`black, roster
      ensures Tied() && model == Land(old(model), old(motion.Value()))
    {
      hide Sound, Tied, Settle, Cleared, LiftFrom, Play.Capture;
      ghost var m := motion.Value();
      var mover := motion.piece;
      Look(mover);
      LookAt(motion.end);
      if mover.status.Captured? { return; }
      if motion.isJump {
        ChangeStatus(mover, Idle);
        return;
      }
      var jumper := board.GetPiece(motion.end);
      if jumper != null && jumper.status.Jumping? && jumper.color != mover.color {
        CatchMover(motion, jumper.color);
        return;
      }
      var target := board.GetPiece(motion.end);
      if target != null && target.status.Idle? {
        if target.color == mover.color {
          ChangeStatus(mover, Idle);
          return;
        }
        TakeTarget(motion.end, target, mover.color);
      }
      SettleMotion(motion);
    }

    /** The game clock: time passes, then everything that has run out lands in landing order. */
    method UpdateGameClock(ms: int)
      requires Valid()
      modifies this`over, this`winner, this`model, board, scoreboard`white, scoreboard`black, roster
      modifies arbiter, arbiter.active
      ensures Valid() && model == Tick(old(model), ms)
      ensures forall m | m in arbiter.active :: m in old(arbiter.active)
    {
      hide Steady, Sound, LandAll, Landings, StillMoving, PiecesTied, GridTied, AirTied;
      if over { return; }
      TickKeeps(model, ms);
      var completed := AdvanceAir(ms);
      completed := Arbiter.SortMotions(ByLanding, completed);
      assert Values(completed) == Landings(old(model).active, ms) by { SortedTwice(old(model).active, ms); }
      LandCompleted(completed, Landings(old(model).active, ms));
    }

    lemma SortedTwice(q: seq<Flight>, ms: int)
      ensures Landings(q, ms) == Sort(ByLanding, Sort(ByArrival, Completed(q, ms)))
    {
    }

    /** Time passes for the motions in the air; those that have run out leave it. */
    method AdvanceAir(ms: int) returns (completed: seq<Motion>)
      requires Tied()
      modifies this`model, arbiter, arbiter.active
      ensures Tied() && model == Airborne(old(model), ms)
      ensures Values(completed) == Sort(ByArrival, Completed(old(model).active, ms)) && Apart(completed)
      ensures forall m | m in arbiter.active :: m in old(arbiter.active)
      ensures forall m | m in completed :: Mine(m.piece)
    {
      hide Sort, StillMoving, Completed, Sound, Landings;
      completed := arbiter.AdvanceTime(ms);
      model := Airborne(model, ms);
    }

    method LandCompleted(completed: seq<Motion>, ghost q: seq<Flight>)
      requires Tied() && Sound(model) && Values(completed) == q && Named(model, q)
      requires forall m | m in completed :: Mine(m.piece)
      modifies this`over, this`winner, this`model, board, scoreboard`white, scoreboard`black, roster
      ensures Tied() && model == LandAll(old(model), q)
    {
      hide Tied, Land, Sound;
      ghost var g := model;
      for i := 0 to |completed|
        invariant Tied() && Values(completed) == q
        invariant Sound(model) && Named(model, q)
        invariant LandAll(model, q[i..]) == LandAll(g, q)
      {
        assert q[i..][1..] == q[i + 1..] && q[i..][0] == q[i];
        LandMotion(completed[i]);
      }
    }
  }

  lemma OnBoardInBounds(g: Game)
    requires Steady(g)
    ensures forall p | p in g.grid :: g.InBounds(p)
  {
  }
}
