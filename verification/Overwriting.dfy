/** How a jumper is lost: exactly if a friend lands on its square while it is in the air. */
module Overwriting {
  import opened Basics
  import opened Flights
  import opened Play
  import opened Occupancy
  import opened Traces
  import opened JumpWindow
  import Census

  // ---- nothing moves between landings ----

  lemma RequestsMoveNothing(g: Game, e: Event)
    requires Sound(g)
    ensures !(e.Wait? && !g.over) ==> Next(g, e).grid == g.grid
  {
  }

  lemma {:induction false} LandOneMore(g: Game, q: seq<Flight>, k: nat)
    requires Sound(g) && Named(g, q) && k < |q|
    ensures LandAll(g, q[..k + 1]) == Land(LandAll(g, q[..k]), q[k])
    decreases k
  {
    hide Land, Sound;
    if k == 0 {
      assert q[..0] == [] && q[..1] == [q[0]] && [q[0]][1..] == [];
    } else {
      LandOneMore(Land(g, q[0]), q[1..], k - 1);
      assert q[..k][0] == q[0] && q[..k][1..] == q[1..][..k - 1];
      assert q[..k + 1][0] == q[0] && q[..k + 1][1..] == q[1..][..k];
    }
  }

  ghost predicate Resolves(l: Landing) {
    l.Live() && Sound(l.before) && l.Flight().piece < |l.before.pieces|
  }

  ghost function GridAfter(l: Landing): map<Position, nat>
    requires Resolves(l)
  {
    Land(l.before, l.Flight()).grid
  }

  /** Within one tick the board is what the previous landing left. */
  lemma BoardInTick(g: Game, e: Event, clock: int, k: nat)
    requires Sound(g) && k < |TraceOf(g, e, clock)|
    ensures var t := TraceOf(g, e, clock);
            && Resolves(t[k]) && (k == 0 ==> t[k].before.grid == g.grid)
            && GridAfter(t[k]) == if k + 1 < |t| then t[k + 1].before.grid else Next(g, e).grid
  {
    hide Sound, Land, LandAll, Landings, StillMoving, LandTrace;
    var a, q := Airborne(g, e.ms), Landings(g.active, e.ms);
    LandTraceAt(a, q, clock + e.ms, k);
    LandOneMore(a, q, k);
    LandNone(a);
    assert q[..0] == [] && q[..|q|] == q;
    if k + 1 < |q| { LandTraceAt(a, q, clock + e.ms, k + 1); }
  }

  lemma LandNone(g: Game)
    requires Sound(g)
    ensures LandAll(g, []) == g
  {
  }

  lemma {:induction false} FirstBoard(g: Game, es: seq<Event>, clock: int)
    requires Sound(g) && Trace(g, es, clock) != []
    ensures Trace(g, es, clock)[0].before.grid == g.grid
    decreases |es|
  {
    hide Sound, Next, TraceOf;
    if TraceOf(g, es[0], clock) != [] {
      BoardInTick(g, es[0], clock, 0);
    } else {
      QuietEvent(g, es[0], clock);
      FirstBoard(Next(g, es[0]), es[1..], clock + Elapsed(g, es[0]));
    }
  }

  lemma QuietEvent(g: Game, e: Event, clock: int)
    requires Sound(g) && TraceOf(g, e, clock) == []
    ensures Next(g, e).grid == g.grid
  {
    hide Sound, Land, Landings, StillMoving;
    RequestsMoveNothing(g, e);
    if e.Wait? && !g.over { LandNone(Airborne(g, e.ms)); }
  }

  /** Over a whole run, with requests in between, the board is what the previous landing left. */
  lemma {:induction false} NextBoard(g: Game, es: seq<Event>, clock: int, k: nat)
    requires Sound(g) && k < |Trace(g, es, clock)|
    ensures var t := Trace(g, es, clock);
            Resolves(t[k]) && (k + 1 < |t| ==> t[k + 1].before.grid == GridAfter(t[k]))
    decreases |es|
  {
    hide Sound, Next, TraceOf, GridAfter, Resolves;
    var first, h, c := TraceOf(g, es[0], clock), Next(g, es[0]), clock + Elapsed(g, es[0]);
    if k < |first| {
      BoardInTick(g, es[0], clock, k);
      if k + 1 == |first| < |Trace(g, es, clock)| { FirstBoard(h, es[1..], c); }
    } else {
      NextBoard(h, es[1..], c, k - |first|);
    }
  }

  // ---- leaving a square, and staying off it ----

  /** With this landing piece i stops standing on p. */
  ghost predicate Leaves(l: Landing, p: Position, i: nat) {
    Resolves(l) && l.before.On(p, i) && !(p in GridAfter(l) && GridAfter(l)[p] == i)
  }

  /** A piece on p at first and not at a later landing leaves p with a landing in between. */
  lemma {:induction false} LeavesBetween(g: Game, es: seq<Event>, clock: int, p: Position, i: nat, k: nat)
    returns (j: nat)
    requires Sound(g) && g.On(p, i) && k < |Trace(g, es, clock)| && !Trace(g, es, clock)[k].before.On(p, i)
    ensures j < k && Leaves(Trace(g, es, clock)[j], p, i)
    decreases k
  {
    hide Sound, Trace, GridAfter, Resolves;
    FirstBoard(g, es, clock);
    j := k - 1;
    NextBoard(g, es, clock, j);
    if !Trace(g, es, clock)[j].before.On(p, i) { j := LeavesBetween(g, es, clock, p, i, j); }
  }

  /** Once off p a piece stays off it as long as no motion of its own lands. */
  lemma {:induction false} StaysOff(g: Game, es: seq<Event>, clock: int, p: Position, i: nat, j: nat, k: nat)
    requires Sound(g) && Steady(g) && j < k < |Trace(g, es, clock)| && Leaves(Trace(g, es, clock)[j], p, i)
    requires forall n | j < n < k :: Trace(g, es, clock)[n].Flight().piece != i
    ensures !Trace(g, es, clock)[k].before.On(p, i)
    decreases k
  {
    hide Sound, Steady, Trace, GridAfter, Resolves, Inv;
    NextBoard(g, es, clock, k - 1);
    if j < k - 1 {
      var l := Trace(g, es, clock)[k - 1];
      StaysOff(g, es, clock, p, i, j, k - 1);
      InvAtEveryLanding(g, es, clock, k - 1);
      OthersLand(l, p, i);
    }
  }

  lemma OthersLand(l: Landing, p: Position, i: nat)
    requires Resolves(l) && Inv(l.before, l.Pending()) && l.Flight().piece != i && !l.before.On(p, i)
    ensures !(p in GridAfter(l) && GridAfter(l)[p] == i)
  {
    hide Inv, Land, Sound;
    LandEffect(l.before, l.Pending(), l.Flight());
  }

  // ---- the jumper ----

  /** A mover lands on p and pushes its friend i off it. */
  ghost predicate Overwrites(l: Landing, p: Position, i: nat) {
    && Leaves(l, p, i) && i < |l.before.pieces| && !l.Flight().isJump && l.Flight().end == p
    && l.before.pieces[l.Flight().piece].color == l.before.pieces[i].color
  }

  lemma JumpIsDisplaced(l: Landing, p: Position, i: nat)
    requires Resolves(l) && Inv(l.before, l.Pending())
    requires l.Flight().isJump && l.Flight().start == p && l.Flight().piece == i
    ensures Census.DisplacedAt(l, i) <==> !l.before.On(p, i)
  {
    hide Inv, Sound;
    GroundedPiecesOwnNothing(l.before, l.Pending(), l.Flight());
  }

  lemma LeavesByFriend(l: Landing, p: Position, i: nat, jump: Flight)
    requires Leaves(l, p, i) && Inv(l.before, l.Pending()) && jump in l.Pending() && jump != l.Flight()
    requires jump.isJump && jump.start == p && jump.piece == i
    ensures Overwrites(l, p, i)
  {
    hide Inv, Land;
    InvParts(l.before, l.Pending(), jump);
    Census.JumperOverwrittenByFriend(l.before, l.Pending(), l.Flight(), jump);
  }

  /** At a landing before its own, the jump is pending and the landing motion is another piece's. */
  lemma StillJumping(h: Game, es: seq<Event>, clock: int, j: nat, k: nat, f: Flight) returns (jump: Flight)
    requires Sound(h) && Steady(h) && InTime(h) && AllTimely(es) && f in Aloft(h, clock)
    requires j < k < |Trace(h, es, clock)| && Trace(h, es, clock)[k].Key() == f
    ensures var l := Trace(h, es, clock)[j];
            && Inv(l.before, l.Pending()) && jump in l.Pending() && jump.Absolute(l.clock) == f
            && jump != l.Flight() && l.Flight().piece != f.piece
  {
    hide Steady, Trace, Sound, InTime, Inv;
    LandingOrder(h, es, clock);
    PendingInRun(h, es, clock, j, f);
    InvAtEveryLanding(h, es, clock, j);
    var l := Trace(h, es, clock)[j];
    jump :| jump in l.Pending() && jump.Absolute(l.clock) == f;
    InvParts(l.before, l.Pending(), jump);
  }

  /** Piece i jumps on p. When its jump ends it is lost if and only if some landing since the launch was a
      friend's landing on p, with i still standing there. */
  lemma LostIffOverwritten(g: Game, p: Position, es: seq<Event>, clock: int, k: nat)
    requires Sound(g) && Steady(g) && InTime(g) && AllTimely(es) && CanStart(g, p)
    requires k < |Trace(JumpRequest(g, p), es, clock)|
    requires Trace(JumpRequest(g, p), es, clock)[k].Key() == Launch(g, p, p, 1000, true).Absolute(clock)
    ensures var t, i := Trace(JumpRequest(g, p), es, clock), g.grid[p];
            Census.DisplacedAt(t[k], i) <==> exists j :: 0 <= j < k && Overwrites(t[j], p, i)
  {
    hide Steady, Trace, Sound, InTime, Inv, Leaves, JumpRequest, Resolves;
    var h, i, f := JumpRequest(g, p), g.grid[p], Launch(g, p, p, JUMP_MS, true).Absolute(clock);
    var t := Trace(h, es, clock);
    Launched(g, p, clock);
    NextBoard(h, es, clock, k);
    InvAtEveryLanding(h, es, clock, k);
    JumpIsDisplaced(t[k], p, i);
    if !t[k].before.On(p, i) {
      var j := LeavesBetween(h, es, clock, p, i, k);
      var jump := StillJumping(h, es, clock, j, k, f);
      LeavesByFriend(t[j], p, i, jump);
    } else {
      forall j | 0 <= j < k ensures !Overwrites(t[j], p, i) {
        forall n | j < n < k ensures t[n].Flight().piece != i { var _ := StillJumping(h, es, clock, n, k, f); }
        if Leaves(t[j], p, i) { StaysOff(h, es, clock, p, i, j, k); }
      }
    }
  }
}
