/** The game as a state machine on values: requests, clock ticks and the landing loop.
    A piece is named by its index in `pieces`; two squares hold the same piece object exactly when
    they hold the same index. */
module Play {
  import opened Basics
  import opened Flights
  import HeadOn
  import MoveRules

  const JUMP_MS := 1000

  datatype Game = Game(
    rows: nat, cols: nat,
    grid: map<Position, nat>,
    pieces: seq<PieceData>,
    active: seq<Flight>,
    launched: nat,
    white: nat, black: nat,
    over: bool,
    winner: Option<Color>)
  {
    predicate InBounds(p: Position) {
      0 <= p.row < rows && 0 <= p.col < cols
    }

    predicate On(p: Position, i: nat) {
      p in grid && grid[p] == i
    }
  }

  /** Every index stored in the game names a piece. */
  ghost predicate Sound(g: Game) {
    && (forall p | p in g.grid :: g.grid[p] < |g.pieces|)
    && (forall m | m in g.active :: m.piece < |g.pieces|)
  }

  /** The board as the move rules see it. */
  function ViewOf(g: Game): View
    requires Sound(g)
  {
    View(g.rows, g.cols, map p | p in g.grid :: g.pieces[g.grid[p]])
  }

  function PieceValue(k: Kind): nat {
    match k
    case Pawn => 1
    case Knight => 3
    case Bishop => 3
    case Rook => 5
    case Queen => 9
    case King => 0
  }

  function SetStatus(g: Game, i: nat, s: Status): (r: Game)
    requires Sound(g) && i < |g.pieces|
    ensures Sound(r) && |r.pieces| == |g.pieces|
  {
    g.(pieces := g.pieces[i := g.pieces[i].(status := s)])
  }

  function Credit(g: Game, c: Color, k: Kind): Game {
    if c.White? then g.(white := g.white + PieceValue(k)) else g.(black := g.black + PieceValue(k))
  }

  function MarkCaptured(g: Game, victim: nat, taker: Color): (r: Game)
    requires Sound(g) && victim < |g.pieces|
    ensures Sound(r) && |r.pieces| == |g.pieces|
  {
    Credit(SetStatus(g, victim, Captured), taker, g.pieces[victim].kind)
  }

  function EndIfKing(g: Game, kind: Kind, taker: Color): Game {
    if kind.King? then g.(over := true, winner := Some(taker)) else g
  }

  /** One capture: the status, the score, and the end of the game if it was a king. */
  function Capture(g: Game, victim: nat, taker: Color): (r: Game)
    requires Sound(g) && victim < |g.pieces|
    ensures Sound(r) && |r.pieces| == |g.pieces|
  {
    EndIfKing(MarkCaptured(g, victim, taker), g.pieces[victim].kind, taker)
  }

  function LiftFrom(g: Game, p: Position, i: nat): (r: Game)
    requires Sound(g)
    ensures Sound(r) && r.pieces == g.pieces && r.active == g.active
  {
    if g.On(p, i) then g.(grid := g.grid - {p}) else g
  }

  function PromotionRow(g: Game, c: Color): int {
    if c.White? then 0 else g.rows - 1
  }

  function QueenLabel(c: Color): string {
    if c.White? then "wQ" else "bQ"
  }

  function Promote(g: Game, m: Flight): (r: Game)
    requires Sound(g) && m.piece < |g.pieces|
    ensures Sound(r) && |r.pieces| == |g.pieces|
  {
    var p := g.pieces[m.piece];
    if p.kind.Pawn? && m.end.row == PromotionRow(g, p.color)
    then g.(pieces := g.pieces[m.piece := p.(kind := Queen, pieceId := QueenLabel(p.color))])
    else g
  }

  /** The mover takes the square it flew to. */
  function Settle(g: Game, m: Flight): (r: Game)
    requires Sound(g) && m.piece < |g.pieces|
    ensures Sound(r) && |r.pieces| == |g.pieces|
  {
    var idle := SetStatus(g, m.piece, Idle);
    var lifted := LiftFrom(idle, m.start, m.piece);
    Promote(lifted.(grid := lifted.grid[m.end := m.piece]), m)
  }

  /** The board in the middle of a capture by a landing: the victim is gone, the mover not yet put. */
  function Cleared(g: Game, p: Position, t: nat, taker: Color): (r: Game)
    requires Sound(g) && t < |g.pieces|
    ensures Sound(r) && |r.pieces| == |g.pieces| && r.active == g.active
    ensures r.rows == g.rows && r.cols == g.cols && r.launched == g.launched
  {
    var taken := Capture(g, t, taker);
    taken.(grid := taken.grid - {p})
  }

  datatype Outcome = Skipped | JumpEnds | Caught(jumper: nat) | Bounces | Takes(victim: nat) | Arrives

  /** Which branch of the landing loop a completed motion takes. */
  function OutcomeOf(g: Game, m: Flight): Outcome
    requires Sound(g) && m.piece < |g.pieces|
  {
    var p := g.pieces[m.piece];
    if p.status.Captured? then Skipped
    else if m.isJump then JumpEnds
    else if m.end !in g.grid then Arrives
    else
      var t := g.grid[m.end];
      var q := g.pieces[t];
      if q.status.Jumping? && q.color != p.color then Caught(t)
      else if q.status.Idle? then (if q.color == p.color then Bounces else Takes(t))
      else Arrives
  }

  /** One pass of the landing loop. */
  function Land(g: Game, m: Flight): (r: Game)
    requires Sound(g) && m.piece < |g.pieces|
    ensures Sound(r) && |r.pieces| == |g.pieces| && r.active == g.active
    ensures r.rows == g.rows && r.cols == g.cols && r.launched == g.launched
  {
    match OutcomeOf(g, m)
    case Skipped => g
    case JumpEnds => SetStatus(g, m.piece, Idle)
    case Caught(t) => LiftFrom(Capture(g, m.piece, g.pieces[t].color), m.start, m.piece)
    case Bounces => SetStatus(g, m.piece, Idle)
    case Takes(t) => Settle(Cleared(g, m.end, t, g.pieces[m.piece].color), m)
    case Arrives => Settle(g, m)
  }

  ghost predicate Named(g: Game, q: seq<Flight>) {
    forall m | m in q :: m.piece < |g.pieces|
  }

  function LandAll(g: Game, q: seq<Flight>): (r: Game)
    requires Sound(g) && Named(g, q)
    ensures Sound(r) && |r.pieces| == |g.pieces| && r.active == g.active
    ensures r.rows == g.rows && r.cols == g.cols && r.launched == g.launched
    decreases |q|
  {
    if q == [] then g else LandAll(Land(g, q[0]), q[1..])
  }

  /** The motions of q after ms milliseconds that are still in the air, in the old order. */
  function StillMoving(q: seq<Flight>, ms: int): seq<Flight> {
    if q == [] then []
    else if q[0].remaining - ms <= 0 then StillMoving(q[1..], ms)
    else [q[0].After(ms)] + StillMoving(q[1..], ms)
  }

  /** The motions of q that have run out after ms milliseconds, in the old order. */
  function Completed(q: seq<Flight>, ms: int): seq<Flight> {
    if q == [] then []
    else if q[0].remaining - ms <= 0 then [q[0].After(ms)] + Completed(q[1..], ms)
    else Completed(q[1..], ms)
  }

  /** Each motion is in exactly one of the two lists, one tick older. */
  lemma {:induction false} Parted(q: seq<Flight>, ms: int, m: Flight)
    ensures m in StillMoving(q, ms) <==> m.remaining > 0 && m.After(-ms) in q
    ensures m in Completed(q, ms) <==> m.remaining <= 0 && m.After(-ms) in q
  {
    if q != [] {
      Parted(q[1..], ms, m);
      assert q == [q[0]] + q[1..];
      assert q[0] == m.After(-ms) <==> q[0].After(ms) == m;
    }
  }

  lemma PartedAll(q: seq<Flight>, ms: int)
    ensures forall m :: m in StillMoving(q, ms) <==> m.remaining > 0 && m.After(-ms) in q
    ensures forall m :: m in Completed(q, ms) <==> m.remaining <= 0 && m.After(-ms) in q
  {
    forall m
      ensures m in StillMoving(q, ms) <==> m.remaining > 0 && m.After(-ms) in q
      ensures m in Completed(q, ms) <==> m.remaining <= 0 && m.After(-ms) in q
    {
      Parted(q, ms, m);
    }
  }

  /** The order in which one tick resolves its landings. */
  function Landings(q: seq<Flight>, ms: int): seq<Flight> {
    Sort(ByLanding, Sort(ByArrival, Completed(q, ms)))
  }

  lemma {:induction false} InsertKeeps(o: Order, m: Flight, q: seq<Flight>)
    ensures forall n :: n in Insert(o, m, q) <==> n == m || n in q
  {
    if q != [] && Before(o, q[0], m) {
      assert q == [q[0]] + q[1..];
      InsertKeeps(o, m, q[1..]);
    }
  }

  lemma {:induction false} SortKeeps(o: Order, q: seq<Flight>)
    ensures forall n :: n in Sort(o, q) <==> n in q
  {
    if q != [] {
      assert q == [q[0]] + q[1..];
      SortKeeps(o, q[1..]);
      InsertKeeps(o, q[0], Sort(o, q[1..]));
    }
  }

  lemma LandingsKeep(q: seq<Flight>, ms: int)
    ensures forall n :: n in Landings(q, ms) <==> n in Completed(q, ms)
  {
    SortKeeps(ByArrival, Completed(q, ms));
    SortKeeps(ByLanding, Sort(ByArrival, Completed(q, ms)));
  }

  /** The state in which the landing loop of a tick starts: the clock has moved, nothing has landed. */
  function Airborne(g: Game, ms: int): (r: Game)
    requires Sound(g)
    ensures Sound(r) && Named(r, Landings(g.active, ms))
  {
    LandingsKeep(g.active, ms);
    PartedAll(g.active, ms);
    g.(active := StillMoving(g.active, ms))
  }

  function Tick(g: Game, ms: int): (r: Game)
    requires Sound(g)
    ensures Sound(r) && |r.pieces| == |g.pieces|
  {
    if g.over then g else LandAll(Airborne(g, ms), Landings(g.active, ms))
  }

  predicate CanStart(g: Game, p: Position)
    requires Sound(g)
  {
    !g.over && p in g.grid && g.pieces[g.grid[p]].status.Idle?
  }

  predicate Blocked(active: seq<Flight>, start: Position, end: Position) {
    exists i :: 0 <= i < |active| && HeadOn.OnCollisionCourse(active[i].start, active[i].end, start, end)
  }

  function Launch(g: Game, start: Position, end: Position, ms: int, isJump: bool): Flight
    requires start in g.grid
  {
    Flight(g.launched + 1, g.grid[start], start, end, ms, ms, isJump)
  }

  function JumpRequest(g: Game, p: Position): (r: Game)
    requires Sound(g)
    ensures Sound(r) && |r.pieces| == |g.pieces|
  {
    if !CanStart(g, p) then g
    else
      SetStatus(g, g.grid[p], Jumping)
        .(launched := g.launched + 1, active := g.active + [Launch(g, p, p, JUMP_MS, true)])
  }

  predicate MoveAccepted(g: Game, start: Position, end: Position)
    requires Sound(g)
  {
    CanStart(g, start) && MoveRules.Legal(ViewOf(g), start, end)
  }

  /** A launch on a collision course is dropped from the air, but its piece stays MOVING. */
  function Depart(g: Game, start: Position, end: Position, ms: int): (r: Game)
    requires Sound(g) && start in g.grid
    ensures Sound(r) && |r.pieces| == |g.pieces|
  {
    var moving := SetStatus(g, g.grid[start], Moving).(launched := g.launched + 1);
    if Blocked(g.active, start, end) then moving
    else moving.(active := g.active + [Launch(g, start, end, ms, false)])
  }

  function MoveRequest(g: Game, start: Position, end: Position, ms: int): (r: Game)
    requires Sound(g)
    ensures Sound(r) && |r.pieces| == |g.pieces|
  {
    if MoveAccepted(g, start, end) then Depart(g, start, end, ms) else g
  }

  function Forfeit(g: Game, winner: Color): (r: Game)
    requires Sound(g)
    ensures Sound(r) && |r.pieces| == |g.pieces|
  {
    if g.over then g else g.(winner := Some(winner), over := true)
  }

  datatype Event =
    | JumpAt(at: Position)
    | Move(start: Position, end: Position, duration: int)
    | Wait(ms: int)
    | Resign(winner: Color)

  function Next(g: Game, e: Event): (r: Game)
    requires Sound(g)
    ensures Sound(r) && |r.pieces| == |g.pieces|
  {
    match e
    case JumpAt(p) => JumpRequest(g, p)
    case Move(a, b, ms) => MoveRequest(g, a, b, ms)
    case Wait(ms) => Tick(g, ms)
    case Resign(c) => Forfeit(g, c)
  }

  function Run(g: Game, es: seq<Event>): (r: Game)
    requires Sound(g)
    ensures Sound(r) && |r.pieces| == |g.pieces|
    decreases |es|
  {
    if es == [] then g else Run(Next(g, es[0]), es[1..])
  }

  lemma RunNone(g: Game)
    requires Sound(g)
    ensures Run(g, []) == g
  {
  }

  lemma RunOne(g: Game, e: Event)
    requires Sound(g)
    ensures Run(g, [e]) == Next(g, e)
  {
    hide Next;
    assert [e][1..] == [];
  }

  lemma {:induction false} RunTwo(g: Game, es: seq<Event>, fs: seq<Event>)
    requires Sound(g)
    ensures Run(g, es + fs) == Run(Run(g, es), fs)
    decreases |es|
  {
    hide Next, Sound;
    if es == [] {
      assert es + fs == fs;
    } else {
      assert (es + fs)[1..] == es[1..] + fs;
      RunTwo(Next(g, es[0]), es[1..], fs);
    }
  }

  lemma RunOneMore(g: Game, es: seq<Event>, e: Event)
    requires Sound(g)
    ensures Run(g, es + [e]) == Next(Run(g, es), e)
  {
    hide Next;
    RunTwo(g, es, [e]);
  }

  /** Time never runs backwards and no flight is instantaneous. */
  predicate Timely(e: Event) {
    match e
    case Move(_, _, ms) => ms > 0
    case Wait(ms) => ms >= 0
    case _ => true
  }

  ghost predicate AllTimely(es: seq<Event>) {
    forall e | e in es :: Timely(e)
  }

  /** A freshly set up game: every piece idle and on exactly one square of the board. */
  ghost predicate Initial(g: Game) {
    && Sound(g)
    && g.active == [] && g.launched == 0 && g.white == 0 && g.black == 0
    && !g.over && g.winner == None
    && (forall p | p in g.grid :: g.InBounds(p))
    && (forall p, q | p in g.grid && q in g.grid && g.grid[p] == g.grid[q] :: p == q)
    && (forall i | 0 <= i < |g.pieces| :: g.pieces[i].status.Idle? && exists p :: g.On(p, i))
  }
}
